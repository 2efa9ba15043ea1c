# Aquarium storefront: a verified model

This project models the rules at the core of an aquarium shop. The shop has a
PHP back end over MySQL and two React storefronts: the current one under
`frontend/` and an older one that keeps everything in the browser's storage.
Each module follows one source file, or a pair of files that implement the
same thing.

Back end:

- `ChatRouting` decides whether the assistant answers a customer message.
  A recognised keyword asks for a human or for the assistant. The most
  recent such request in the conversation wins. Equal timestamps go to the
  human.
- `ReplySynthesis` builds the context sent to the language model: two fixed
  opening turns, at most five history turns, then the message.
  The history rows carry snake_case column names, while the role test
  reads camelCase keys, so every history entry is sent as a user turn.
  It walks the candidate models in order and caches the first that answers.
  It strips an assistant label from the reply. When every candidate fails it
  returns the fixed apology.
- `ChatStore` is the chat endpoint over the tables in `ChatSchema`:
  get-or-create of a conversation, the two-second duplicate guard, and at
  most one stored assistant reply.
- `LegacyChat` is the older chat endpoint: its listings, the presence check,
  the role normalisation and the read-back of the new row.
- `OrderRules`, `Orders` and `LegacyOrders` cover order intake: status
  defaults, the item price, subtotal, image and product rules, and the
  all-or-nothing transaction. They also cover the sales-count bookkeeping of
  status changes, as a class over the product table.
- `Reviews` holds the purchase gate, the rating check and the one review per
  customer and product. `Favorites` holds the favourite set.
- `Products` holds the row transform, the bestseller query, and the
  allowed-field update and delete.
- `Shipping` holds the distance tariff, its fallback ranges and the handler
  that chooses between them.
- `EnvConfig` is the `.env` loader, which never overwrites a value that is
  already set.

Client:

- `Cart` and `CartProvider` are the cart context. They merge by product id,
  total the cart with the offer price, and save the cart after every change.
- `Checkout` covers both cart pages: quantity steps, the checkout guards, the
  order each page creates and the order message.
- `ClientServices` is the order normaliser in `frontend/services/api.ts`.
- `LocalStore` is the browser-storage service layer of the older storefront.
- `ImageUrl` resolves image paths.
- `AddressForm` parses address components and composes the full address.
- `Catalogue` holds the shop and admin filters.
- `ChatWidget` is the chat widget's message list.
- `AdminChat` is the storage-backed admin inbox.
- `FavoritesPage` is the favourites page. `FavoriteIds` is the id set the
  cart and favourites pages toggle.
- `AuthForm` is the sign-in and registration form.

`Domain`, `Text`, `Seqs`, `Sorting` and `Wrappers` hold the shared records and
the string, sequence and sorting helpers.

Integers are unbounded; money is in whole units, as the shop stores it.
Timestamps are integers. Lower-casing is ASCII-only. JavaScript's `trim`
strips its whole white-space set, the Unicode spaces included, and a
JavaScript string length counts UTF-16 code units.

## Model

| member | source | states |
|---|---|---|
| AddressForm.AddressDetails.Set | frontend/components/AddressForm.tsx:239-241 | editing one detail sets that detail and leaves the other details and the full address as they were |
| AddressForm.KindOf | frontend/components/AddressForm.tsx:151-172 | only a component's first type decides the detail it fills; a component without types fills none; the ward comes from `administrative_area_level_3` or `sublocality` and from nothing else |
| AddressForm.ParseComponents | frontend/components/AddressForm.tsx:141-149 | parsing keeps the address currently in the box as the full address |
| AddressForm.LastOfKind | frontend/components/AddressForm.tsx:151-172 | none exactly when no component maps to the detail; otherwise the long name of a component that maps to it with no later one mapping to it |
| AddressForm.ParseTakesLast | frontend/components/AddressForm.tsx:141-175 | each parsed detail is the long name of the last component of its kind, or '' when there is none, so later components overwrite earlier ones and other types are ignored |
| AddressForm.ParseAddressComponents | frontend/components/AddressForm.tsx:141-175 | the `forEach` over the components that overwrites fields of a local record yields the parsed details |
| AddressForm.Present | frontend/components/AddressForm.tsx:243-248 | a string is among the kept parts exactly when it is a non-empty part |
| AddressForm.PresentParts | frontend/components/AddressForm.tsx:243-248 | the kept parts are the non-empty ones among street number, street, ward, district and city, in that order |
| AddressForm.PushIfPresent | frontend/components/AddressForm.tsx:244-248 | `parts.push` happens exactly when the part is non-empty |
| AddressForm.DetailFieldChange | frontend/components/AddressForm.tsx:239-253 | the edited detail takes the new value, the others stay, and the full address becomes the non-empty parts in order joined by ', ' |
| AddressForm.AllEmptyGivesEmpty | frontend/components/AddressForm.tsx:243-249 | with every detail empty the full address is '' |
| AddressForm.AssembledContainsParts | frontend/components/AddressForm.tsx:243-249 | every non-empty detail occurs in the rebuilt full address |
| AddressForm.ManualInputChange | frontend/components/AddressForm.tsx:233-237 | typing sets the full address to the typed text and leaves every detail unchanged |
| AddressForm.DetailEditDiscardsTyping | frontend/components/AddressForm.tsx:233-253 | a detail edit after typing gives the same full address as the edit without the typing |
| AdminChat.KeyOf | pages/AdminChat.tsx:223 | a user's storage key is `chat_` followed by the user id |
| AdminChat.UserOf | pages/AdminChat.tsx:155 | removing the `chat_` prefix from a chat key gives the user whose key it is |
| AdminChat.ConversationOf | pages/AdminChat.tsx:154-203 | a chat key contributes a conversation exactly when it is not the admin's own key, its entry is a readable non-empty list and some message has role customer or a sender other than the admin; the name comes from the first such message and the last message is the list's final element |
| AdminChat.CollectMembers | pages/AdminChat.tsx:152-204 | a conversation is collected exactly when some chat key contributes it |
| AdminChat.NewerFirstIsPreorder | pages/AdminChat.tsx:207-211 | the newest-first comparison is total and transitive, so sorting by it is well defined |
| AdminChat.ListingMeets | pages/AdminChat.tsx:124-213 | the list is sorted newest last message first, is a permutation of the collected conversations, and holds exactly the conversations some `chat_` key contributes |
| AdminChat.MarkAdminRead | pages/AdminChat.tsx:241-246 | admin messages become read, customer messages keep their flag, and nothing else about any message changes |
| AdminChat.MarkAdminReadIdempotent | pages/AdminChat.tsx:241-246 | marking read a second time changes nothing |
| AdminChat.ChangeDetection | pages/AdminChat.tsx:226-234 | an unchanged list is never seen as changed, and a list with one more message always is |
| AdminChat.SearchConversations | pages/AdminChat.tsx:281-283 | a conversation is kept exactly when its customer name contains the term ignoring case, in list order |
| AdminChat.EmptySearchKeepsAll | pages/AdminChat.tsx:281-283 | an empty search term keeps every conversation |
| AdminChat.AdminMessage | pages/AdminChat.tsx:260-269 | the reply is an unread admin message of the selected conversation from the signed-in admin, carrying the text and an id made from the clock |
| AdminChat.AdminChatPage.constructor | pages/AdminChat.tsx:117-124 | the page starts with the given storage, whose keys are listed once each, no conversations, no selection, no messages and empty input |
| AdminChat.AdminChatPage.LoadConversations | pages/AdminChat.tsx:117-219 | for a non-admin nothing changes; for an admin, any chat entry that is not valid JSON (the admin's own included) throws before the list or selection changes; otherwise the list becomes the sorted listing of the chat keys and the first conversation is selected when none was |
| AdminChat.AdminChatPage.ParseAll | pages/AdminChat.tsx:133-136 | the first pass over the chat keys gets through exactly when no chat entry is invalid JSON |
| AdminChat.AdminChatPage.CollectConversations | pages/AdminChat.tsx:152-204 | the loop over the chat keys pushes each key's conversation in key order |
| AdminChat.AdminChatPage.ReadConversation | pages/AdminChat.tsx:155-203 | one key's step of the loop yields exactly the conversation that key contributes |
| AdminChat.AdminChatPage.LoadMessages | pages/AdminChat.tsx:221-254 | keeps the page's storage and key list in step; a missing or unreadable entry empties the view; otherwise the view is replaced only when the length or last id differs, and the entry is written back with admin messages read |
| AdminChat.AdminChatPage.Send | pages/AdminChat.tsx:256-278 | blank input, no selection or no user changes nothing; otherwise the trimmed text is appended as an unread admin message, stored under the selected conversation, the input is cleared and the list reloaded, unchanged when some chat entry is invalid JSON |
| AuthForm.DisplayNameSent | frontend/pages/Auth.tsx:64 | the display name is sent trimmed, and left out exactly when it is blank after trimming |
| AuthForm.ValidateChecks | frontend/pages/Auth.tsx:19-73 | signing in needs a username and password that are not blank under JavaScript's `trim` (ASCII and Unicode white space) and sends the trimmed username with the password as typed; registering checks, in this order and with these messages, blank fields, a password under 6 UTF-16 code units (JavaScript's `.length`, where a character beyond U+FFFF counts twice) and a mismatched confirmation, and sends the trimmed username, the password, the trimmed display name or 'New User', and empty phone and address |
| AuthForm.SignInButtonMatchesCheck | frontend/pages/Auth.tsx:23-199 | in sign-in mode the submit button is enabled exactly when the form passes its check |
| AuthForm.RegisterReadyEnablesButton | frontend/pages/Auth.tsx:46-199 | in register mode every form that passes the checks has an enabled button |
| AuthForm.ShortPasswordPassesButton | frontend/pages/Auth.tsx:50-199 | the button ignores the password's length, so a short password with a matching confirmation is enabled and then rejected on submit |
| AuthForm.SentUsernameIsTrimmed | frontend/pages/Auth.tsx:30-62 | the username of every request is non-empty with no white space at either end |
| AuthForm.FailureText | frontend/pages/Auth.tsx:36-69 | a thrown error shows its message, or the mode's fallback text when the message is empty |
| AuthForm.AuthPage.constructor | frontend/pages/Auth.tsx:8-15 | the form opens in sign-in mode with every field and the error empty and not loading |
| AuthForm.AuthPage.SwitchMode | frontend/pages/Auth.tsx:222-241 | switching mode clears the error and keeps every field |
| AuthForm.AuthPage.Submit | frontend/pages/Auth.tsx:19-76 | a failed check shows its error and sends nothing; a passing one sends its request, ends not loading, shows a thrown error's text, and leaves the authentication state the answer gives |
| AuthForm.SignedInAfter | frontend/pages/Auth.tsx:31-66 | a returned user is signed in; a registration answer always marks the application authenticated; a failure or a sign-in with no user changes nothing |
| AuthForm.RegisterWithoutUserIsInconsistent | frontend/pages/Auth.tsx:66 | `login` of a missing user after registering leaves an authenticated state with no user |
| Cart.AddQuantity | context.tsx:58-60 | the mapped cart has the same length; each line with the id gains `qty` units and every other line is kept as it was |
| Cart.AddToCartEffect | context.tsx:54-64 | adding a product already in the cart keeps the length and the other lines and raises that product's quantity by `qty`; adding a new one keeps every line and appends one line with quantity `qty` at the end |
| Cart.AddToCartKeepsIdsUnique | frontend/context.tsx:77-87 | adding to a cart whose ids are unique leaves them unique |
| Cart.RemoveFromCart | context.tsx:66-68 | the lines with the id are dropped, no line with it remains, and the rest keep their order |
| Cart.RemoveAfterAdd | context.tsx:54-68 | removing a product after adding it gives the same cart as removing it without the add |
| Cart.RemoveAfterAddQuantity | context.tsx:58-68 | raising a product's quantity does not change what remains once it is removed |
| Cart.UnitPrice | context.tsx:73 | the unit price is the offer price unless it is missing or 0, when it is the price |
| Cart.CartTotalAppend | context.tsx:72-75 | the total of a concatenation is the sum of the totals |
| Cart.AddToCartTotal | frontend/context.tsx:77-106 | adding `qty` units raises the total by `qty` times the unit price of that product's line, new or existing |
| Cart.AddQuantityTotal | context.tsx:58-75 | raising one line's quantity raises the total by that line's unit price times the added units |
| Cart.Login | context.tsx:44-46 | `login` leaves the user signed in and authenticated |
| Cart.Logout | context.tsx:48-51 | `logout` leaves no user and not authenticated, whoever was signed in |
| CartProvider.CartProvider.constructor | frontend/context.tsx:22-55 | the cart starts from the stored entry or empty, the user from the stored current user, and the save effect stores the cart |
| CartProvider.CartProvider.SaveEffect | frontend/context.tsx:48-55 | after the effect the stored entry is the cart |
| CartProvider.CartProvider.AddToCart | frontend/context.tsx:77-87 | the cart becomes the `addToCart` result, is saved, and keeps its ids unique |
| CartProvider.CartProvider.RemoveFromCart | frontend/context.tsx:89-91 | the cart becomes the `removeFromCart` result and is saved |
| CartProvider.CartProvider.ClearCart | frontend/context.tsx:93-101 | the cart is emptied and the key removed; the save effect then stores the empty cart |
| CartProvider.CartProvider.Login | frontend/context.tsx:65-67 | the signed-in user becomes the authenticated user; the cart is untouched |
| CartProvider.CartProvider.Logout | frontend/context.tsx:69-74 | signing out keeps the cart |
| Catalogue.ActiveCategory | frontend/pages/Shop.tsx:15 | the category is the `cat` parameter when it is non-empty, and 'All' otherwise |
| Catalogue.SalesFirstIsPreorder | frontend/pages/Shop.tsx:67-73 | ranking by sales is total and transitive |
| Catalogue.ShopListingSelects | frontend/pages/Shop.tsx:55-66 | a product is listed exactly when it passes the category test ('All' takes all, 'Bestsellers' takes products whose sales, missing counted as 0, are positive, others match the category) and its lowercased name contains the lowercased term |
| Catalogue.ShopListingKeepsOrder | frontend/pages/Shop.tsx:67-73 | outside 'Bestsellers' the listing is an order-preserving selection of the products |
| Catalogue.RankedBelowFirst | frontend/pages/Shop.tsx:69-70 | in a ranked list no product sold more than the first |
| Catalogue.InsertAtFrontKeepsTies | frontend/pages/Shop.tsx:69-70 | a product that outsold the head of a ranked list has no equal-sales product after it |
| Catalogue.ConsKeepsTies | frontend/pages/Shop.tsx:69-70 | putting the same product in front of two lists keeps a relation between their equal-sales products |
| Catalogue.InsertKeepsTies | frontend/pages/Shop.tsx:69-70 | inserting into a ranked list keeps the order among equal sales and places the new product last among its equals |
| Catalogue.SortKeepsTies | frontend/pages/Shop.tsx:67-73 | the sort is stable: products with equal sales keep their relative order |
| Catalogue.BestsellersRanked | frontend/pages/Shop.tsx:55-73 | under 'Bestsellers' every listed product has sold, the list runs from most to fewest sales, and equal sales keep the filter's order |
| Catalogue.EverythingByDefault | frontend/pages/Shop.tsx:15-73 | with no `cat` parameter and an empty search every product is listed in its own order |
| Catalogue.LegacyShopListing | pages/Shop.tsx:25-29 | a product is listed exactly when the category is 'All' or its own and its lowercased name contains the lowercased term |
| Catalogue.LegacyListingKeepsOrder | pages/Shop.tsx:25-29 | the older listing is an order-preserving selection of the products |
| Catalogue.LegacyAgreesOutsideBestsellers | pages/Shop.tsx:25-29 | outside 'Bestsellers' the two storefronts list the same products in the same order |
| Catalogue.AdminListing | pages/Admin.tsx:187-192 | a product is shown exactly when its name or description contains the term ignoring case and the filter is 'all' or its category |
| Catalogue.AdminListingOrder | pages/Admin.tsx:187-192 | the admin list keeps the products' order, and with no search and filter 'all' it is the whole catalogue |
| Catalogue.FormOf | pages/Admin.tsx:122-137 | editing fills the form from the product, with a missing scientific name as '' and a missing new flag as false |
| Catalogue.Submit | pages/Admin.tsx:139-159 | the form is rejected exactly when the name is empty, the price is missing or 0, or the stock is undefined; an edit keeps the product's id and takes every form field; otherwise the form is added as it is |
| Catalogue.EmptyFormRejected | pages/Admin.tsx:105-144 | the reset form cannot be submitted |
| Catalogue.UnchangedEditIsIdentity | pages/Admin.tsx:122-155 | saving an edit without changes gives back the same product |
| Catalogue.NextStatus | pages/Admin.tsx:657-673 | 'pending' offers only paid, 'paid' offers only delivered, and any other status offers nothing |
| Catalogue.StatusOnlyAdvances | pages/Admin.tsx:657-673 | each offered change moves an order one stage forward, so at most two changes are ever offered in a row |
| Catalogue.OrderCounter.constructor | pages/Admin.tsx:528-529 | the counter and the banner start at 0 |
| Catalogue.OrderCounter.Load | pages/Admin.tsx:550-560 | the banner shows the growth since the previous load when there is growth, keeps its number otherwise, and the count is always recorded |
| Catalogue.OrderCounter.Dismiss | pages/Admin.tsx:588 | dismissing hides the banner and keeps the count |
| Catalogue.FirstLoadReportsAll | pages/Admin.tsx:529-560 | the first load reports every order as new, and a reload with no new orders keeps the banner's number |
| ChatRouting.RecentCustomerMessages | backend/api/ai_chat.php:264-274 | the history query returns at most 20 rows, each a customer message of the conversation not written by the assistant, and all such rows when there are at most 20 |
| ChatRouting.LatestMatchIsMaximum | backend/api/ai_chat.php:276-302 | each running maximum is unset exactly when no scanned row matches its keywords, and otherwise is the latest creation time among the matching rows |
| ChatRouting.RouteDecision | backend/api/ai_chat.php:212-323 | a sender other than a customer or a missing key never gets the assistant; a bot keyword in the current message gets it, before the escalation keywords are looked at; otherwise an escalation keyword refuses it; with no history to read, or a failed read, the answer follows the current message alone |
| ChatRouting.ShouldUseAI | backend/api/ai_chat.php:212-324 | the gates, the keyword override and the loop keeping two running maxima over the history give the routing decision |
| ChatRouting.RowSignals | backend/api/ai_chat.php:281-301 | a history row matches a keyword list exactly when its lowercased message contains one of the keywords |
| ChatRouting.HistoryRule | backend/api/ai_chat.php:261-323 | for a neutral current message the assistant answers exactly when no scanned row asks for an admin, or some row asking for the bot is strictly later than every row asking for an admin |
| ChatRouting.VerdictRule | backend/api/ai_chat.php:304-316 | the verdict from the two maxima is true exactly when no row matches the escalation list, or some bot row is strictly later than every escalation row |
| ChatRouting.BothSignalsInOneRowEscalates | backend/api/ai_chat.php:280-316 | one row asking for both, at least as late as every bot row, hands the conversation to a human, since equal timestamps do not favour the bot |
| ChatRouting.ComplaintRoutesToBot | backend/api/ai_chat.php:230-248 | 'complaint' contains the bot keyword 'ai', so a customer message containing 'complaint' always gets the assistant once a key is configured |
| ChatStore.ConversationOf | backend/api/chat.php:32-35 | the lookup finds nothing exactly when no conversation belongs to the user, and otherwise returns the id of the user's conversation |
| ChatStore.FindRecentCopy | backend/api/chat.php:124-134 | the duplicate query finds nothing exactly when no row of the same conversation, sender and text was created in the last two seconds, and otherwise returns such a row |
| ChatStore.ConversationMessages | backend/api/chat.php:85-93 | GET returns exactly the conversation's messages, in ascending creation time when the table is |
| ChatStore.HistoryEndsWithNewMessage | backend/api/chat.php:172-214 | the history read for the reply is taken after the customer's message is stored, so it ends with that message |
| ChatStore.ChatStore.constructor | backend/api/chat.php:42 | the store starts with no conversations and no messages |
| ChatStore.ChatStore.EnsureConversation | backend/api/chat.php:30-40 | get-or-create: an existing conversation's id is returned with nothing inserted; otherwise exactly one conversation is inserted with the next id; either way the user then has that conversation |
| ChatStore.ChatStore.GetMessages | backend/api/chat.php:74-104 | with neither a conversation id nor a user the request is refused; a conversation id is used as given; a user alone gets the conversation created if needed; the messages come back oldest first |
| ChatStore.ChatStore.Insert | backend/api/chat.php:173-185 | an insert appends one row with the next id and changes nothing else |
| ChatStore.ChatStore.Route | backend/api/chat.php:187-196 | the assistant is used exactly when the routing check does not throw and decides for it, a failed history query counting as no history |
| ChatStore.ChatStore.AnswerIfRouted | backend/api/chat.php:210-248 | at most one row is added, and only when routing says so and the reply path does not fail; that row is the assistant's (sender 0, role admin, name 'AI Assistant', AI flag and model set) and carries the reply computed from the history read after the customer's message |
| ChatStore.ChatStore.StoreCustomer | backend/api/chat.php:121-185 | the user's conversation exists afterwards; a copy of the message from the same sender in the last two seconds is returned with nothing stored; otherwise exactly the customer's row, with the next id, AI flag off and the current time, is appended |
| ChatStore.ChatStore.Accept | backend/api/chat.php:121-253 | the user's conversation exists afterwards; a copy within two seconds is returned as a duplicate with nothing stored and no reply; otherwise the customer's row (AI flag off) is stored first, then at most the assistant's reply, and a failure in the reply path still answers with the customer's message |
| ChatStore.ChatStore.Post | backend/api/chat.php:109-253 | a request without user, sender, role or a non-blank trimmed message is refused and stores nothing; a posted message is stored trimmed, first, and at most one more row follows it |
| ChatStore.ConversationOfAppend | backend/api/chat.php:37-39 | a conversation inserted for a user without one is the one found for that user afterwards |
| ChatWidget.IsFirstIff | frontend/components/ChatWidget.tsx:25-27 | `index === self.findIndex(…)` holds exactly when no earlier message has the same id |
| ChatWidget.FirstsFrom | frontend/components/ChatWidget.tsx:25-27 | every kept message is a first occurrence of its id in the fetched list |
| ChatWidget.FirstsFromDistinct | frontend/components/ChatWidget.tsx:25-27 | the kept messages repeat no id |
| ChatWidget.RepeatNotKept | frontend/components/ChatWidget.tsx:25-27 | a message repeating an earlier id is not kept |
| ChatWidget.FirstsFromSubsequence | frontend/components/ChatWidget.tsx:25-27 | the kept messages keep the fetched order |
| ChatWidget.FirstsFromHas | frontend/components/ChatWidget.tsx:25-27 | every first occurrence is kept |
| ChatWidget.FirstsFromOfDistinct | frontend/components/ChatWidget.tsx:25-27 | a list without repeated ids is kept whole |
| ChatWidget.DedupeMeets | frontend/components/ChatWidget.tsx:25-27 | the de-duplicated list repeats no id, keeps the fetched order, holds a message of every fetched id, and is the fetched list itself when that repeated no id |
| ChatWidget.Fetched | frontend/components/ChatWidget.tsx:19-33 | a successful fetch replaces the list with an order-preserving selection without repeated ids; a failed or malformed reply keeps the list |
| ChatWidget.Optimistic | frontend/components/ChatWidget.tsx:79-88 | the optimistic message has a `temp-` id, the user's id, name and role, the text, and is unread |
| ChatWidget.Send | frontend/components/ChatWidget.tsx:71-91 | blank input or no user changes nothing; otherwise the input is cleared and the trimmed text appended as the optimistic message |
| ChatWidget.Delivered | frontend/components/ChatWidget.tsx:106-115 | after success the stored message is present, the optimistic one is gone, every other message stays, and the stored one is added only when its id was not already there |
| ChatWidget.AiReplied | frontend/components/ChatWidget.tsx:118-128 | the assistant's reply is present afterwards, and is appended only when its id was absent |
| ChatWidget.Failed | frontend/components/ChatWidget.tsx:135-140 | on failure the optimistic message is removed, the rest keep their order, and the text returns to the input |
| ChatWidget.DistinctSubsequence | frontend/components/ChatWidget.tsx:108-140 | removing messages never creates a repeated id |
| ChatWidget.SubsequenceMembers | frontend/components/ChatWidget.tsx:108-140 | removing messages never adds one |
| ChatWidget.StepsKeepIdsDistinct | frontend/components/ChatWidget.tsx:71-140 | send, delivery, the assistant's reply and failure all keep the shown list free of repeated ids, given a fresh optimistic id |
| ChatWidget.AppendFresh | frontend/components/ChatWidget.tsx:112-128 | appending a message whose id is absent keeps the ids distinct |
| ChatWidget.SendThenFailRestores | frontend/components/ChatWidget.tsx:71-140 | a send that fails leaves the list as it was and puts the trimmed text back in the input |
| ChatWidget.SendThenDeliverReplaces | frontend/components/ChatWidget.tsx:71-115 | a send that succeeds shows the stored message where the optimistic one was |
| ChatWidget.ShownWidgetSendsAsCustomer | frontend/components/ChatWidget.tsx:79-147 | the widget is shown only to signed-in non-admins, so every message it sends carries the customer role |
| Checkout.UnknownIdChangesNothing | frontend/pages/Cart.tsx:120-129 | a quantity change for an id not in the cart changes nothing |
| Checkout.QuantityRaised | frontend/pages/Cart.tsx:120-125 | while the quantity stays positive only that line changes, gaining `delta` units, and the cart total moves by `delta` times its unit price |
| Checkout.QuantityDropped | pages/Cart.tsx:11-20 | when the quantity would not stay positive the line leaves the cart and the other lines keep their order |
| Checkout.ChangeQuantity | frontend/pages/Cart.tsx:120-129 | `handleQuantityChange` through the cart provider leaves the changed cart saved |
| Checkout.Attempt | frontend/pages/Cart.tsx:131-170 | the guards apply in order (a user, a non-empty cart, a non-blank address, a non-blank phone, ten digits in it), each failing exactly in its case; a placed order is 'paid', for the cart plus shipping, with the trimmed phone and address |
| Checkout.Checkout | frontend/pages/Cart.tsx:131-176 | the page submits what the guards allow, and the cart is cleared only once the order has been created |
| Checkout.ShippingStepFor | frontend/pages/Cart.tsx:98-110 | a trimmed address of 5 UTF-16 code units or more asks for a quote, 1 to 4 clear it, and an empty one does nothing |
| Checkout.CartPage.constructor | frontend/pages/Cart.tsx:13-20 | the page starts with no favourites, no shipping cost and no distance or duration |
| Checkout.CartPage.FavoritesLoaded | frontend/pages/Cart.tsx:29-37 | the loaded favourite ids become the set of hearts |
| Checkout.CartPage.AddressSettled | frontend/pages/Cart.tsx:62-114 | a quote replaces cost, distance and duration; a failed request keeps them; a short address resets the cost to 0 and distance and duration to none; an empty one changes nothing |
| Checkout.CartPage.ToggleFavorite | frontend/pages/Cart.tsx:39-60 | without a user nothing is sent; otherwise the service is asked to remove a favourite or add a new one, and the heart flips only when that call succeeds |
| Checkout.InitialAddress | pages/Cart.tsx:9 | the address box starts with the signed-in user's address, or '' |
| Checkout.ItemLines | pages/Cart.tsx:46-48 | one message line per cart line, in order, numbered from 1 with name, quantity and line total |
| Checkout.AddressLine | pages/Cart.tsx:56 | an empty address becomes 'Pick up from store' |
| Checkout.MessageListsEveryItem | pages/Cart.tsx:46-57 | every cart line appears in the order message |
| Checkout.MessageStatesTotalAndAddress | pages/Cart.tsx:50-57 | the message states the cart total and the address, asking to pick up from the store when the address is empty |
| Checkout.LegacyAttempt | pages/Cart.tsx:22-57 | the older checkout needs a user and a non-empty cart, then builds a 'pending' order at the cart total with the user's phone, and its message |
| Checkout.LegacyCheckout | pages/Cart.tsx:22-64 | the older flow submits what its guards allow and clears the cart once the order has been created |
| ClientServices.Prop | frontend/services/api.ts:57-79 | a property read finds a value exactly when the value is an object holding that field |
| ClientServices.Coalesce | frontend/services/api.ts:61-79 | a `??` chain never yields null |
| ClientServices.CoalesceIsFirst | frontend/services/api.ts:61-79 | a `??` chain yields the first field that is neither null nor undefined, and nothing exactly when every field is one of those |
| ClientServices.ToStr | frontend/services/api.ts:57 | `String()` keeps a string as it is and writes a number in decimal |
| ClientServices.ToNumber | frontend/services/api.ts:58 | `Number()` keeps a number, reads null and false as 0 and true as 1 |
| ClientServices.NumberOfDecimal | frontend/services/api.ts:58 | `Number()` reads the decimal notation of a natural number back as that number |
| ClientServices.TextOr | frontend/services/api.ts:61-67 | a text field with a default is the default when every key is absent or null, and the first present string otherwise |
| ClientServices.NumberOr0 | frontend/services/api.ts:58-65 | `Number(x ?? 0)` is 0 when every key is absent or null, and the first present number otherwise |
| ClientServices.NormalizeItem | frontend/services/api.ts:56-69 | a null line throws and nothing else does; a mapped line takes its id, quantity, price, stock, name and image from the listed fields, keeps an offer price only when one is sent, and reads `is_new` before `isNew` |
| ClientServices.NormalizeItems | frontend/services/api.ts:56 | the map throws exactly when some line is null; a result maps the lines one by one, in order |
| ClientServices.ItemsSource | frontend/services/api.ts:52-54 | `items` is used when it is an array, then `items_json`, then an empty list; a truthy non-array `items` throws, and so does a null order |
| ClientServices.NormalizeOrder | frontend/services/api.ts:51-81 | the order throws exactly when its item list throws or holds a null line, and a null order always throws; otherwise each field comes from its snake_case key before its camelCase one, status defaults to 'pending' and the date to the current time |
| ClientServices.NormalizeEncodedItem | frontend/services/api.ts:56-69 | normalising a line the client serialised gives that line back |
| ClientServices.EncodedItemFields | frontend/services/api.ts:57-68 | every field the item normaliser reads from a serialised line is the line's own value |
| ClientServices.EncodedItemNumbers | frontend/services/api.ts:58-65 | a serialised line's quantity, price, stock and offer price read back unchanged |
| ClientServices.EncodedItemTexts | frontend/services/api.ts:63-67 | a serialised line's category, origin, scientific name and description read back unchanged |
| ClientServices.EncodedItemHasNoSnakeCase | frontend/services/api.ts:57-68 | a serialised line has none of the snake_case fields, so the camelCase ones are read |
| ClientServices.NormalizeEncodedOrder | frontend/services/api.ts:51-81 | normalising an order the client serialised gives that order back, so the normaliser is idempotent on its own output |
| ClientServices.EncodedOrderItems | frontend/services/api.ts:52-56 | a serialised order's `items` array normalises back to its lines |
| ClientServices.EncodedOrderFields | frontend/services/api.ts:72-79 | every order field the normaliser reads from a serialised order is the order's own value |
| ClientServices.EncodedOrderUser | frontend/services/api.ts:73-75 | a serialised order's user id, name and phone read back unchanged |
| ClientServices.EncodedOrderRest | frontend/services/api.ts:72-79 | a serialised order's id, total, status and date read back unchanged |
| ClientServices.EncodedItemsNormalize | frontend/services/api.ts:56 | a list whose every line normalises to a given line normalises to the list of those lines |
| ClientServices.CreatePayloadOf | frontend/services/api.ts:239-246 | the posted body copies the order's user, items and total, and an empty status is sent as 'pending' |
| ClientServices.CreatedOrder | frontend/services/api.ts:252 | only the id of the created order may differ from the order given; it stays the same exactly when the server sends no id, an empty one or the same one |
| ClientServices.CreatedOrderTakesServerId | frontend/services/api.ts:252 | a numeric server id becomes the order's id in decimal, and that string reads back as the number |
| ClientServices.ToggleCall | frontend/services/api.ts:355-361 | the toggle removes exactly when the product is shown as a favourite |
| ClientServices.ToggleFlips | frontend/services/api.ts:355-361 | when the client's flag agrees with the server, a toggle flips that pair's membership and leaves every other pair alone |
| ClientServices.FavoriteIdStrings | frontend/services/api.ts:332-337 | an array of ids becomes the array of their strings, in order; a missing or falsy list gives none; a truthy non-array throws |
| ClientServices.FavoriteIdsStayDistinct | frontend/services/api.ts:336 | distinct numeric product ids stay distinct once written as strings |
| ClientServices.ShippingCostShown | frontend/services/api.ts:379 | the quoted shipping cost is shown unless it is falsy, when 0 is shown |
| ClientServices.ShippingCostNumeric | frontend/services/api.ts:379 | a numeric quote is shown as that number and a missing one as 0 |
| ClientServices.RegisterPayloadOf | frontend/services/api.ts:96-114 | the register body carries the username and password, with a missing name sent as 'New User' and a missing phone or address as '' |
| EnvConfig.FirstIndexOf | backend/config.php:28 | finds the first `=` of a line: none exactly when there is none, otherwise an index holding it with none before it |
| EnvConfig.Unquote | backend/config.php:33-35 | a value wrapped in a matching pair of double or single quotes loses them; any other value is kept |
| EnvConfig.ParseLine | backend/config.php:21-35 | a comment or a line without `=` sets nothing; any other line yields the trimmed text before its first `=` and the trimmed, unquoted text after it |
| EnvConfig.ParseLineRoundTrip | backend/config.php:21-35 | a plain `KEY=VALUE` line reads back as the pair it was written from |
| EnvConfig.FirstIndexAfterPrefix | backend/config.php:28 | in a line whose key has no `=`, the first `=` is the one right after the key |
| EnvConfig.TrimStartKeepsFirst | backend/config.php:22 | a line whose first character is not white space keeps that character first once trimmed, so it is a comment only if that character is `#` |
| EnvConfig.NeverOverwrites | backend/config.php:37-41 | a variable that already holds a value that is neither empty nor "0" keeps it, whatever the file says, when the load completes |
| EnvConfig.NamedKeysNeverFail | backend/config.php:38-41 | a file in which every assignment line has a non-empty key always loads |
| EnvConfig.NeverSetsEmptyKey | backend/config.php:38-41 | the loader never creates a variable with an empty name |
| EnvConfig.FatalPersists | backend/config.php:20-42 | once a line is fatal, the load fails however the file continues |
| EnvConfig.EmptyKeyIsFatal | backend/config.php:38-41 | a line such as `=x`, whose key is empty, passes the unset test and makes `putenv` raise, so the load fails |
| EnvConfig.SetFromSomeLine | backend/config.php:26-41 | after a completed load, every variable the file adds or changes was parsed from one of its lines, with that value |
| EnvConfig.Environment.constructor | backend/config.php:14 | the loader starts from the process environment |
| EnvConfig.Environment.ApplyOneLine | backend/config.php:20-42 | one line is applied: its variable is set only when it is unset, empty or "0"; an empty key in that case fails and changes nothing |
| EnvConfig.Environment.LoadEnv | backend/config.php:14-44 | a missing file changes nothing; otherwise the lines are applied in order, and the load fails exactly when some line is fatal, leaving the effect of the lines before it |
| EnvConfig.Environment.GeminiKey | backend/config.php:63 | the assistant key is nonempty exactly when the variable holds a value other than '' and "0", and is then that value |
| EnvConfig.NoKeyNoAssistant | backend/api/ai_chat.php:22 | without a configured key the assistant never answers |
| FavoriteIds.Toggled | frontend/pages/Favorites.tsx:55-63 | after a successful toggle the product's id is in the set exactly when it was not before, and no other id changes |
| FavoriteIds.ToggleTwiceRestores | frontend/pages/Cart.tsx:47-54 | toggling the same product twice restores the set of hearts |
| FavoriteIds.TogglesCommute | frontend/pages/Cart.tsx:47-54 | toggles of two products give the same set in either order |
| Favorites.FavoriteIds | backend/api/favorites.php:35-47 | the listed ids are exactly the products the user has favourited |
| Favorites.NewestListedFirst | backend/api/favorites.php:39 | a newly added favourite is listed first, ahead of the user's earlier ones |
| Favorites.FavoriteStore.constructor | backend/api/favorites.php:21-23 | the table starts empty, with no pair repeated |
| Favorites.FavoriteStore.Get | backend/api/favorites.php:26-57 | a missing or falsy userId is refused; otherwise the response lists the user's favourite ids, newest first |
| Favorites.FavoriteStore.Add | backend/api/favorites.php:59-96 | a missing user or product is refused; a pair already present inserts nothing; otherwise one row is appended; either way the pair is in the table afterwards and no pair is repeated |
| Favorites.FavoriteStore.Remove | backend/api/favorites.php:98-130 | a missing user or product is refused; a pair not present is reported as not found and nothing changes; otherwise exactly that pair's rows go and the rest keep their order |
| Favorites.PairsOfFilter | backend/api/favorites.php:109-113 | deleting the rows of one pair removes exactly that pair from the table |
| FavoritesPage.ShownAreFavorites | frontend/pages/Favorites.tsx:37-40 | the page shows exactly the catalogue products whose ids are favourites, in catalogue order |
| FavoritesPage.FavoritesPage.constructor | frontend/pages/Favorites.tsx:10-12 | the page starts loading, with no ids and no products |
| FavoritesPage.FavoritesPage.Open | frontend/pages/Favorites.tsx:14-46 | without a user nothing is fetched; a failed id request keeps the page as it was; no ids empty the list without asking for the catalogue; otherwise the catalogue, when it arrives, is filtered to the favourites; loading always ends |
| FavoritesPage.FavoritesPage.ToggleFavorite | frontend/pages/Favorites.tsx:48-73 | without a user nothing is sent; otherwise the service is asked to remove a favourite or add a new one, and on success the heart flips and an unfavourited product leaves the list, while a favourited one is never added to it |
| FavoritesPage.UnfavoritedLeavesList | frontend/pages/Favorites.tsx:65-68 | after an unfavourite the product is gone from the list and the others keep their order |
| ImageUrl.ResolveImage | frontend/utils/imageUtils.ts:14-29 | no path gives ''; an http or https URL is kept; an `/uploads/` path gets the back end's origin in front; any other path is kept for the front end to serve |
| ImageUrl.ResolvedShape | frontend/utils/imageUtils.ts:14-29 | every resolved URL is empty, absolute, or a front-end path that is not an upload |
| ImageUrl.ResolveIdempotent | frontend/utils/imageUtils.ts:14-29 | resolving an already resolved URL changes nothing |
| LegacyChat.FirstMissing | database/api/chat.php:38-43 | the reported field is the first required one that is absent or blank after trimming, and none is reported exactly when all are present |
| LegacyChat.FirstMissingIsFirst | database/api/chat.php:39-43 | a blank field with every earlier one present is the one reported |
| LegacyChat.CheckFields | database/api/chat.php:39-43 | the validation loop stops at the first absent or blank field |
| LegacyChat.NormaliseRole | database/api/chat.php:48 | only exactly "admin" is kept; every other role is stored as "customer" |
| LegacyChat.RowById | database/api/chat.php:57-60 | a row found by id is in the table with that id; none is found only when no row has it |
| LegacyChat.RowByIdAppend | database/api/chat.php:56-60 | the row just inserted under a fresh id is the one read back by that id |
| LegacyChat.LegacyChatStore.constructor | database/api/chat.php:12 | the table starts empty |
| LegacyChat.LegacyChatStore.Get | database/api/chat.php:15-34 | `conversationId` lists that conversation's messages, `all` lists every message, both oldest first; neither is a missing-conversation error |
| LegacyChat.LegacyChatStore.Insert | database/api/chat.php:52-56 | one row is appended under the next id, which then reads back as that row |
| LegacyChat.LegacyChatStore.Post | database/api/chat.php:36-62 | a missing field is reported exactly when some required field is absent or blank, and then nothing is stored; otherwise one row is stored with the request's fields, the role made "admin" or "customer", read exactly when sent by an admin, and that row is returned |
| LegacyOrders.LegacyOrderStore.constructor | database/api/orders.php:10 | the tables start with no orders and no lines over the given products |
| LegacyOrders.LegacyOrderStore.InsertItems | database/api/orders.php:144-173 | the lines are inserted in order; the loop succeeds exactly when no line's insert fails, and then every submitted line is stored |
| LegacyOrders.LegacyOrderStore.Post | database/api/orders.php:100-187 | the first unset required field is reported and nothing is stored; otherwise the order and all its lines are stored in one transaction under the next id with the status normalised, and any failed insert rolls everything back |
| LegacyOrders.LegacyOrderStore.Put | database/api/orders.php:189-216 | a missing id or status is refused, then a status outside pending, paid and delivered; an unknown order, or one already in that status, is reported as not found; otherwise only that order's status changes |
| OrderRules.NormaliseStatus | backend/api/orders.php:168-171 | the stored status is always pending, paid or delivered: the requested one when it is one of these, otherwise 'pending' |
| OrderRules.SalesDelta | backend/api/orders.php:31-32 | the count goes up exactly when the new status is paid or delivered, down exactly when only the old one was, and otherwise stays |
| OrderRules.StoredProductId | backend/api/orders.php:207-215 | a line keeps a product reference exactly when its id is numeric and names an existing product, and then it is that id |
| OrderRules.StoredImage | backend/api/orders.php:220-224 | an image longer than 500 bytes is stored as null; any image stored is the one sent |
| OrderRules.ItemRowFor | backend/api/orders.php:207-235 | a stored line has the order's id, the sent name and quantity, the offer price when one is sent and the list price otherwise, a subtotal of price times quantity, and the checked product id and image |
| OrderRules.ItemRows | backend/api/orders.php:207-235 | one stored line per submitted line, in order |
| OrderRules.FirstUnset | database/api/orders.php:104-109 | the reported field is the first required one that is not set, and none is reported exactly when all are set |
| OrderRules.FirstUnsetIsFirst | backend/api/orders.php:161-166 | an unset field with every earlier one set is the one reported |
| OrderRules.CheckRequired | backend/api/orders.php:161-166 | the validation loop stops at the first required field that is not set |
| OrderRules.RequiredPresent | backend/api/orders.php:161-166 | when no required field is reported, all five are present |
| Orders.SalesRows | backend/api/orders.php:19-25 | the sales update reads exactly the order's lines that reference a product, and none for an order without lines |
| Orders.SalesRowsAppend | backend/api/orders.php:19-25 | the lines read for an order split over the rows before and after an insert |
| Orders.ApplySales | backend/api/orders.php:34-51 | the sales update changes no product's existence |
| Orders.ApplySalesEffect | backend/api/orders.php:40-51 | each product's count moves by the delta times the quantity the lines hold for it |
| Orders.RunSalesUpdates | backend/api/orders.php:40-51 | the update loop applies one `UPDATE` per line, in order |
| Orders.Processed | backend/api/orders.php:52-55 | an update that throws stops the loop and keeps the earlier updates; without one every line is processed |
| Orders.PaidThenDeliveredCountsTwice | backend/api/orders.php:239-241 | an order created as paid and then moved to delivered has its quantities counted twice |
| Orders.RefundRestoresCounts | backend/api/orders.php:280-284 | moving an order from a counted status to an uncounted one restores every product's count |
| Orders.OrderStore.constructor | backend/api/orders.php:58-59 | the tables start with no orders and no lines over the given products |
| Orders.OrderStore.UpdateSalesCount | backend/api/orders.php:16-56 | `updateProductSalesCount` moves each product's count by the status change's delta for the lines processed, and touches no order or line |
| Orders.OrderStore.InsertItems | backend/api/orders.php:207-235 | the lines are inserted in order; the loop succeeds exactly when no line's insert fails, and then every submitted line is stored |
| Orders.OrderStore.Create | backend/api/orders.php:173-254 | the order and its lines are stored under the next id with the normalised status and the shipping fields, or a failed insert rolls all of it back; an order created as paid or delivered counts its quantities as sold |
| Orders.OrderStore.InsertOrder | backend/api/orders.php:173-236 | the inserts succeed exactly when neither the order's nor any line's insert fails; a failure leaves both tables as they were |
| Orders.OrderStore.Post | backend/api/orders.php:157-254 | the first unset required field is reported and nothing changes; otherwise the order is created as above |
| Orders.OrderStore.Put | backend/api/orders.php:257-289 | a missing id or status is refused, then an invalid status; an unknown order or an unchanged status is reported as not found and nothing changes; otherwise only that order's status changes and the sales counts move by the change's delta |
| Products.LeadingDigits | backend/api/products.php:58 | the leading run of decimal digits that an integer cast reads: a prefix of the text, all digits, followed by no further digit |
| Products.TextOr | backend/api/products.php:59-61 | a null column gives the default and a text column its own text |
| Products.OptionalInt | backend/api/products.php:63-71 | an optional number is absent exactly when the column is null |
| Products.Transform | backend/api/products.php:49-73 | the id becomes its decimal string; a falsy offer price becomes null; a null average rating stays null; null review and sales counts become 0; `isNew` is the column's truthiness |
| Products.RankingsArePreorders | backend/api/products.php:37-43 | newest-first and bestseller ordering are total and transitive, so sorting by them is well defined |
| Products.Take | backend/api/products.php:36-37 | a LIMIT keeps the first n rows, or all of them when there are fewer |
| Products.BestsellerLimit | backend/api/products.php:36 | the bestseller limit is the given one, or 10 when it is missing or 0 |
| Products.BestsellerSelection | backend/api/products.php:34-38 | the bestseller query lists as many products with sales as its limit allows, all with sales, best-selling first and newest first among equals, each from the table |
| Products.BestsellersAreTheTop | backend/api/products.php:34-38 | a product with sales that the bestseller query leaves out ranks after every product it lists |
| Products.CategorySelection | backend/api/products.php:39-41 | with a category and no bestseller flag, the products listed are exactly the table's products of that category, each as often as stored, newest first |
| Products.PlainSelection | backend/api/products.php:42-43 | without the bestseller flag or a category (or with a falsy one), the listing is a permutation of the whole table, newest first |
| Products.SelectionFromTable | backend/api/products.php:34-44 | every product a GET lists is a row of the table |
| Products.InsertedColumns | backend/api/products.php:95-111 | a new row has exactly the ten allowed columns, each the sent value or null, with `is_new` defaulting to 0 |
| Products.SetList | backend/api/products.php:135-141 | the columns a PUT sets are exactly the allowed fields present in the body |
| Products.BuildSetList | backend/api/products.php:132-141 | the loop lists the allowed fields present in the body in allowed-list order, each with its sent value as parameter |
| Products.Updated | backend/api/products.php:148-151 | the update writes the listed columns and leaves the id, the creation time and every other column alone |
| Products.TransformAll | backend/api/products.php:49-74 | every fetched row is replaced by its transform, in order |
| Products.ProductStore.constructor | backend/api/products.php:24 | the table starts empty |
| Products.ProductStore.Get | backend/api/products.php:27-81 | the response lists the transform of every selected row, in order, or fails exactly when the query does (a negative bestseller limit) |
| Products.ProductStore.Post | backend/api/products.php:83-119 | the first unset required field is reported and nothing is stored; otherwise one row is appended under the next id |
| Products.ProductStore.ApplyUpdate | backend/api/products.php:147-157 | only an existing row whose columns actually change counts as updated, and only that row changes |
| Products.ProductStore.Put | backend/api/products.php:121-162 | a missing id, taken from the body before the query, is refused, then a body with no allowed field; an unknown or unchanged row is reported as not found; otherwise exactly that row's listed columns change |
| Products.ProductStore.Delete | backend/api/products.php:164-185 | a missing id is refused; an id naming no product is reported as not found and nothing changes; otherwise that product is gone and the others keep their order |
| LocalStore.WithoutPassword | services/api.ts:90-92 | the session copy of a user differs from it only in having no password |
| LocalStore.GuestUser | services/api.ts:120-128 | the account created for a new phone has that phone, the stamp as id and no password, and is an administrator exactly for the demo admin number |
| LocalStore.OtpSignIn | services/api.ts:117-137 | a known phone signs in its first account, without the password, and adds none; an unknown one appends a guest account and signs it in |
| LocalStore.OtpSignInIdempotent | services/api.ts:117-137 | a second sign-in with the same phone adds no account and signs in the same user as the first |
| LocalStore.FirstMatchAfterReplace | services/api.ts:228-230 | replacing the first match by an element with the same key keeps it the first match |
| LocalStore.FindFirst | services/api.ts:87 | `find` and `findIndex` return the first element that matches, and none when none does |
| LocalStore.Store.constructor | services/api.ts:11-15 | the store holds the users, products, orders and signed-in user read from storage |
| LocalStore.Store.InitializeUsers | services/api.ts:22-80 | the five default accounts are seeded only when no user is stored; stored users are never overwritten |
| LocalStore.Store.Login | services/api.ts:83-100 | sign-in succeeds exactly when some user has both the username and the password, signs in the first such user without the password, and otherwise leaves the session alone |
| LocalStore.Store.VerifyOtp | services/api.ts:112-143 | a code other than '1234' is rejected and changes nothing; the right code signs in by phone as stated for the sign-in function |
| LocalStore.Store.Logout | services/api.ts:149-151 | logging out clears the signed-in user and nothing else |
| LocalStore.Store.UpdateProfile | services/api.ts:153-162 | the first user with the same id is replaced and signed in; an unknown id changes nothing; the user given is returned either way |
| LocalStore.Store.GetAllProducts | services/api.ts:167-180 | an empty product list is seeded with the shipped catalogue; a stored one is returned as it is |
| LocalStore.Store.AddProduct | services/api.ts:182-188 | the product is appended under the stamp as its id |
| LocalStore.Store.UpdateProduct | services/api.ts:190-199 | the first product with the same id is replaced; with none, the update fails exactly then and nothing changes |
| LocalStore.Store.DeleteProduct | services/api.ts:201-205 | every product with the id goes and the others keep their order |
| LocalStore.Store.CreateOrder | services/api.ts:210-215 | the order is appended and returned |
| LocalStore.Store.UserOrders | services/api.ts:221-224 | a user's orders are exactly the stored orders with that user id, in stored order, each kept as many times as it is stored |
| LocalStore.Store.UpdateStatus | services/api.ts:226-232 | only the first order with the id gets the new status; an unknown id changes nothing |
| LocalStore.StatusUpdateTouchesOne | services/api.ts:226-232 | after a status change the first order with that id carries the new status and every other order is as it was |
| LocalStore.DeleteIsFinal | services/api.ts:201-205 | after a delete no product has the id, and deleting it again changes nothing |
| ReplySynthesis.HistoryRow | backend/api/ai_chat.php:186-198 | a history row carries exactly the selected snake_case columns, holding the message's sender id, role and text |
| ReplySynthesis.RoleFor | backend/api/ai_chat.php:63 | the role test reads the camelCase keys `senderRole` and `senderId`: a row is the model's turn exactly when its `senderId` is "0" and its `senderRole` is not customer, and a row without `senderId` is always a user turn |
| ReplySynthesis.HistoryTurns | backend/api/ai_chat.php:62-68 | one turn per history entry, each a user turn carrying that entry's text, since the rows have no camelCase keys |
| ReplySynthesis.FrameAt | backend/api/ai_chat.php:62-68 | each history turn of the request sits at its entry's position after the preamble |
| ReplySynthesis.ContextWindow | backend/api/ai_chat.php:48-74 | the request holds 3 to 8 turns, three more than the history entries kept (at most five), and ends with the current message as a user turn |
| ReplySynthesis.ContextWindowShape | backend/api/ai_chat.php:51-68 | the request opens with the system prompt and its acknowledgement, then the latest history entries in their order as user turns, so every turn after the first two is a user turn |
| ReplySynthesis.BuildContext | backend/api/ai_chat.php:48-74 | the request built turn by turn is the context window |
| ReplySynthesis.AppendTurns | backend/api/ai_chat.php:61-74 | the loop appends one turn per recent entry, in order, then the current message |
| ReplySynthesis.Candidates | backend/api/ai_chat.php:80-95 | a cached model name that is not empty after trimming is the only candidate; otherwise the two fixed models are tried in order |
| ReplySynthesis.FirstSuccess | backend/api/ai_chat.php:99-172 | the chosen model is the first candidate whose call answers 200 with a text, and its text is returned; none is chosen exactly when every call fails |
| ReplySynthesis.FirstSuccessSingle | backend/api/ai_chat.php:88 | with one candidate the outcome is that model's alone |
| ReplySynthesis.StripLabel | backend/api/ai_chat.php:146 | the cleaned reply is a suffix of the reply; an unlabelled reply is kept, and a labelled one loses its label and the white space after it |
| ReplySynthesis.StripLabelRoundTrip | backend/api/ai_chat.php:146 | a reply written as a label, a colon, white space and a body comes back as the body |
| ReplySynthesis.NotBothLabels | backend/api/ai_chat.php:146 | a reply opens with at most one of the two labels |
| ReplySynthesis.TrimStartAll | backend/api/ai_chat.php:146 | the white space after a label is removed up to the first other character |
| ReplySynthesis.ApologyWhenNothingWorks | backend/api/ai_chat.php:24-27 | without a key, or when every candidate fails, the reply is the fixed apology and the cache is kept |
| ReplySynthesis.CachedModelDecides | backend/api/ai_chat.php:86-88 | once a working model is cached, the reply and the cache depend only on that model's outcome |
| ReplySynthesis.ModelCache.constructor | backend/api/ai_chat.php:80-84 | the cache holds the file's content, if the file exists |
| ReplySynthesis.ModelCache.Reply | backend/api/ai_chat.php:20-177 | one call tries the candidates in order: the first success gives its trimmed, label-stripped text and is cached; otherwise the apology is returned and the cache is unchanged |
| ReplySynthesis.ConversationHistory | backend/api/ai_chat.php:186-199 | the history is the last ten (or fewer) messages of that conversation in the table, oldest first |
| Reviews.JoinCount | backend/api/reviews.php:57-63 | a line joins some order under the purchase conditions exactly when its count is positive |
| Reviews.PurchaseCountPositive | backend/api/reviews.php:57-65 | the purchase `COUNT(*)` is positive exactly when the user has the product on a paid or delivered order |
| Reviews.CanReview | backend/api/reviews.php:54-66 | a user may review exactly when a user id is given and that user bought the product in a paid or delivered order |
| Reviews.ProductReviews | backend/api/reviews.php:36-44 | a product's listed reviews are exactly its reviews, newest first |
| Reviews.ReviewBy | backend/api/reviews.php:117-122 | finds the review a user wrote for a product, and none exactly when there is none |
| Reviews.ReviewByUnique | backend/api/reviews.php:116-122 | with at most one review per user and product, the lookup finds that one |
| Reviews.RatingValue | backend/api/reviews.php:94-98 | a rating is read as a number exactly when it is a nonempty run of decimal digits |
| Reviews.ReviewStore.constructor | backend/api/reviews.php:21-22 | the table starts empty |
| Reviews.ReviewStore.Get | backend/api/reviews.php:26-77 | a missing product id is refused; otherwise the product's reviews are listed newest first, with whether the given user may review it |
| Reviews.ReviewStore.Upsert | backend/api/reviews.php:116-141 | the user's existing review of the product is revised in place, or a new one is appended under the next id; either way it is then the user's one review of that product |
| Reviews.ReviewStore.Revise | backend/api/reviews.php:124-132 | the existing review gets the new rating, comment and update time, and nothing else changes |
| Reviews.ReviewStore.Add | backend/api/reviews.php:133-141 | a new review is appended under the next id, created and updated now |
| Reviews.ReviewStore.Post | backend/api/reviews.php:79-163 | missing fields, then a rating outside 1 to 5, then a user without a paid or delivered purchase are refused in that order and nothing changes; otherwise the trimmed comment and rating are saved as the user's single review of the product |
| Shipping.Ceil | backend/api/shipping.php:293 | `ceil` gives the least integer not below its argument |
| Shipping.CeilMonotone | backend/api/shipping.php:293 | `ceil` never decreases |
| Shipping.DistanceTariff | backend/api/shipping.php:279-297 | up to 5 km costs 20000, up to 10 km 30000, up to 20 km 50000, up to 30 km 80000, and beyond that 100000 plus 5000 per started km over 30 |
| Shipping.TariffMonotone | backend/api/shipping.php:284-297 | the tariff never falls as the distance grows |
| Shipping.TariffBounds | backend/api/shipping.php:284-297 | every distance costs at least 20000, and beyond 30 km at least 105000 |
| Shipping.FallbackRange | backend/api/shipping.php:244-267 | an address naming a place in Đà Nẵng is quoted between 20000 and 50000, any other between 50000 and 150000 |
| Shipping.EmptyAddressOutside | backend/api/shipping.php:280-281 | an empty address names no place, so it is quoted as outside Đà Nẵng |
| Shipping.ShippingFallback | backend/api/shipping.php:244-267 | the fallback cost lies in the address's range |
| Shipping.ShippingCost | backend/api/shipping.php:279-297 | a known distance is charged by the tariff; an unknown one between 50000 and 150000 |
| Shipping.QuoteShipping | backend/api/shipping.php:35-90 | an address that is empty after trimming is refused; otherwise Google's distance is used when a key is set and it answers, else OpenStreetMap's, and the tariff applies; with neither, no distance or duration is reported and the fallback range applies |

## Left out

- Outbound HTTP: the calls to Gemini, Google Distance Matrix and Nominatim, and the client's `fetch` wrappers. Their outcomes are parameters: a status and text, a distance or none, a thrown error.
- Floating-point geometry: the Haversine distance, the OpenStreetMap duration estimate, coordinates and the map widget. A distance arrives as a rational number or as none.
- `Number()` and `floatval` coercion are modelled only for strings of decimal digits. Fractions, signs, exponents and surrounding spaces are not modelled.
- Products.LeadingDigits and Products.AsInt read only unsigned decimal digits. They do not handle a sign or a decimal part.
- OrderRules.NumericId reads only plain decimal digits. The orders endpoint keeps `(int)$item['id']` whenever `is_numeric` holds (backend/api/orders.php:209-210). So ids such as "1.0", " 5", "-3" or "1e1" name products 1, 5, -3 and 10 there. The model stores no product reference for them, and `StoredProductId`, `ItemRowFor` and `Orders.OrderStore.Create` inherit the gap.
- Reviews.RatingValue accepts only plain decimal digits. PHP's `is_numeric` also accepts signs, decimals and exponents, so fractional ratings such as "4.5" are not modelled.
- ClientServices models a JSON value as null, a boolean, a whole number, a string, a list or an object. Fractional numbers are not modelled, and an object holds only the keys the normaliser reads.
- ClientServices normalisation: an item line is encoded and read back only for complete lines.
- Dates: timestamps are integers and ISO dates are opaque strings. Timezone conversion, ISO 8601 formatting and MySQL's ordering of same-second ties are not modelled.
- The model cache file is an optional field. Races between processes on it are not modelled.
- Concurrency: double submissions beyond the two-second guard and concurrent conversation creation are not modelled.
- ShippingFallback draws its cost arbitrarily within the keyword-dependent bounds. It does not model the distribution of PHP's `rand`.
- The ten-second cURL timeout and the model's generation settings are not modelled.
- Orders.OrderStore.Put is modelled as written. The endpoint reports 404 whenever MySQL's row count is zero, so a PUT that repeats the current status answers 404 even though the order exists.
- Orders sales counts are modelled as written. A change from 'paid' to 'delivered' adds the quantities a second time (Orders.PaidThenDeliveredCountsTwice).
- EnvConfig: `getenv` treats an empty value and "0" as unset, so such a value is overwritten by the file, and a key of "0" disables the assistant.
- The order listings (GET) of both order endpoints are not modelled: the SQL join, GROUP_CONCAT and the parsing of item JSON. Creation and status changes are modelled.
- The review GET's timezone conversion and the POST's read-back via SELECT are not modelled. The stored rows are.
- Rendering: JSX, styling, alerts, navigation, loading spinners, polling timers, BroadcastChannel and storage events, and the admin inbox's scrolling are not modelled.
- Checkout.LegacyCheckout leaves out the `wa.me` redirect. The message text it would open is modelled.
- Checkout.LegacyCheckout runs over the cart provider of the current storefront, which saves the cart to storage. The older storefront's own cart context keeps the cart in memory only.
- LocalStore receives the seed catalogue (`INITIAL_PRODUCTS`) as a constructor parameter instead of the constant's contents.
- `Date.now()` and `new Date()` are parameters (`stamp`, `now`) of the operations that read them.
- Sorting.SortBy models the JavaScript in-place `sort` as an insertion sort that returns a new sequence. Its contract states a permutation; Sorting.SortBySorted states the order.
- ChatWidget.Optimistic uses the user's role as the sender role. The source's `|| 'customer'` default cannot apply, because every user has a role.
- ClientServices: a non-numeric stock or price yields NaN in JavaScript. The model reports that as an outcome; it does not carry NaN arithmetic further.
- AdminChat: a storage entry that is not valid JSON is a Garbled entry. It makes the first pass of `loadConversations` throw, and the main pass skips it. The parsing itself is not modelled, and an uncaught throw is modelled as a reload that changes nothing.
- ReplySynthesis.RoleFor: PHP's loose `!=` between numeric strings (where "0.0" equals "0") is not modelled; the comparison is string equality. It does not matter here, since the rows never hold the key.
- EnvConfig.Environment.LoadEnv: a fatal line is modelled as a failed load that keeps the lines before it. The request that dies with it, and `$_ENV`, are not modelled.
- AdminChat.AdminChatPage.Send: one `stamp` parameter stands for both clock reads, an abstraction of the model. The source reads the clock twice: `Date.now()` for the id (pages/AdminChat.tsx:261) and `new Date()` for the timestamp (:267). The two can differ by the time between the reads; `AdminChat.AdminMessage` shares the same single stamp.
- ChatWidget.Optimistic: the temporary id and the timestamp likewise come from one `stamp`, while the source reads `Date.now()` and `new Date()` separately.
- AuthForm.SignedInAfter: a registration answered without a user marks the application authenticated with no user, as `login(undefined)` does.
- ChatRouting.RecentCustomerMessages does not state the newest-first order of its result. It states the bound of 20, that every result is a scanned row, and that all scanned rows are returned when there are at most 20.
- LocalStore: `sendOtp` always resolves and `orderService.getAll` returns the stored list. Both are plain reads with no rule of their own.
- Lower-casing (`mb_strtolower`, `toLowerCase`) is ASCII-only. Vietnamese keywords are matched exactly as written, with no diacritic folding.
- ChatStore.ChatStore.StoreCustomer: a failing SQL statement is not modelled. The endpoint's outer `catch` answers such a failure with 500 (backend/api/chat.php:258-261). The insert of the customer's message (chat.php:172-184) can fail after `ensureConversation` (chat.php:30-40) has already inserted a new conversation. No transaction is open, so that conversation survives the 500. `Accept` and `Post` therefore do not describe this partial state. Only the reply path's failures are modelled, through `Faults`.
- Products.ProductStore, Reviews.ReviewStore and Favorites.FavoriteStore: a failing SQL statement is not modelled either. Each of their `catch` blocks answers 500 and changes nothing the model tracks (backend/api/products.php:77-80, 115-118, 158-161, 181-184 and 191-197; backend/api/reviews.php:73, 159 and 168; backend/api/favorites.php:53, 92, 126 and 135). Statement failures are modelled only for the order endpoints (`Orders.OrderStore`, `LegacyOrders.LegacyOrderStore`) and the chat reply path.
- Infrastructure: the database connection, CORS, JSON helpers, upload handling, seed and diagnostic scripts, and the thin SQL pass-through endpoints are not modelled.
