/**
 * The admin's chat page over browser storage: the conversation list built
 * from the `chat_<userId>` entries, the open conversation with admin
 * messages marked read, the admin's replies and the conversation search.
 */
module AdminChat {
  import opened Wrappers
  import opened Text
  import opened Seqs
  import opened Sorting
  import opened Domain

  const ChatPrefix := "chat_"

  predicate IsChatKey(key: string) {
    |key| >= |ChatPrefix| && key[..|ChatPrefix|] == ChatPrefix
  }

  /** The storage key of a user's conversation. */
  function KeyOf(userId: string): (key: string)
    ensures IsChatKey(key) && key[|ChatPrefix|..] == userId
  {
    ChatPrefix + userId
  }

  /** The user a chat key belongs to (`key.replace('chat_', '')` on a key that starts with it). */
  function UserOf(key: string): (userId: string)
    requires IsChatKey(key)
    ensures KeyOf(userId) == key
  {
    key[|ChatPrefix|..]
  }

  /** A stored entry: a message list, or non-empty text that is not valid JSON. */
  datatype Entry = Chat(msgs: seq<Message>) | Garbled

  function Lookup(storage: map<string, Entry>, key: string): Option<Entry> {
    if key in storage then Some(storage[key]) else None
  }

  datatype Conversation = Conversation(userId: string, userName: string, lastMessage: Message)

  /** The test for a message from the customer's side: a customer role or another sender than the admin. */
  function FromCustomer(adminId: string): Message -> bool {
    (m: Message) => m.senderRole == Customer || m.senderId != adminId
  }

  /**
   * The conversation a chat key contributes: none for the admin's own key,
   * a missing, unreadable or empty list, or a list with no customer
   * message; otherwise the customer's name from the first such message
   * and the list's final message.
   */
  function ConversationOf(key: string, entry: Option<Entry>, adminId: string): (r: Option<Conversation>)
    requires IsChatKey(key)
    ensures r.Some? <==> (UserOf(key) != adminId && entry.Some? && entry.value.Chat? &&
      entry.value.msgs != [] && FirstMatch(entry.value.msgs, FromCustomer(adminId)).Some?)
    ensures r.Some? ==> (
      var msgs := entry.value.msgs;
      r.value.userId == UserOf(key) &&
      r.value.userName == msgs[FirstMatch(msgs, FromCustomer(adminId)).value].senderName &&
      r.value.lastMessage == msgs[|msgs| - 1])
  {
    if UserOf(key) == adminId || entry.None? || entry.value.Garbled? || entry.value.msgs == [] then None
    else
      var msgs := entry.value.msgs;
      match FirstMatch(msgs, FromCustomer(adminId))
      case None => None
      case Some(k) => Some(Conversation(UserOf(key), msgs[k].senderName, msgs[|msgs| - 1]))
  }

  /** The conversations of the given chat keys, in key order. */
  function Collect(keys: seq<string>, storage: map<string, Entry>, adminId: string): (r: seq<Conversation>)
    requires forall k :: 0 <= k < |keys| ==> IsChatKey(keys[k])
  {
    if keys == [] then []
    else
      var last := keys[|keys| - 1];
      var c := ConversationOf(last, Lookup(storage, last), adminId);
      Collect(keys[..|keys| - 1], storage, adminId) + (if c.Some? then [c.value] else [])
  }

  /** A conversation is collected iff some key contributes it. */
  lemma {:induction false} CollectMembers(keys: seq<string>, storage: map<string, Entry>, adminId: string, c: Conversation)
    requires forall k :: 0 <= k < |keys| ==> IsChatKey(keys[k])
    ensures c in Collect(keys, storage, adminId) <==>
      exists k :: 0 <= k < |keys| && ConversationOf(keys[k], Lookup(storage, keys[k]), adminId) == Some(c)
  {
    if keys != [] {
      var init := keys[..|keys| - 1];
      CollectMembers(init, storage, adminId, c);
      if exists k :: 0 <= k < |keys| && ConversationOf(keys[k], Lookup(storage, keys[k]), adminId) == Some(c) {
        var k :| 0 <= k < |keys| && ConversationOf(keys[k], Lookup(storage, keys[k]), adminId) == Some(c);
        if k < |init| {
          assert init[k] == keys[k];
        }
      }
    }
  }

  /** `a` may be listed above `b`: its last message is no older. */
  predicate NewerFirst(a: Conversation, b: Conversation) {
    a.lastMessage.timestamp >= b.lastMessage.timestamp
  }

  lemma {:induction false} NewerFirstIsPreorder()
    ensures Total(NewerFirst) && Transitive(NewerFirst)
  {
  }

  /**
   * Some chat key holds text that does not parse. The page's first pass
   * over the chat keys parses every non-empty entry, the admin's own
   * included, outside any `try`, so such an entry makes the load throw.
   */
  predicate HasGarbled(chatKeys: seq<string>, storage: map<string, Entry>) {
    exists k :: 0 <= k < |chatKeys| && Lookup(storage, chatKeys[k]) == Some(Garbled)
  }

  /** The conversation list the page shows for the given storage. */
  function Listing(keys: seq<string>, storage: map<string, Entry>, adminId: string): seq<Conversation> {
    SortBy(Collect(Filter(keys, IsChatKey), storage, adminId), NewerFirst)
  }

  /**
   * The list holds exactly the conversations some chat key contributes,
   * each once per key, newest last message first.
   */
  lemma {:induction false} ListingMeets(keys: seq<string>, storage: map<string, Entry>, adminId: string)
    ensures var chatKeys := Filter(keys, IsChatKey);
      Sorted(Listing(keys, storage, adminId), NewerFirst) &&
      multiset(Listing(keys, storage, adminId)) == multiset(Collect(chatKeys, storage, adminId)) &&
      forall c :: c in Listing(keys, storage, adminId) <==> exists k :: (0 <= k < |chatKeys| &&
        ConversationOf(chatKeys[k], Lookup(storage, chatKeys[k]), adminId) == Some(c))
  {
    var chatKeys := Filter(keys, IsChatKey);
    var collected := Collect(chatKeys, storage, adminId);
    NewerFirstIsPreorder();
    SortBySorted(collected, NewerFirst);
    forall c
      ensures c in Listing(keys, storage, adminId) <==> exists k :: (0 <= k < |chatKeys| &&
        ConversationOf(chatKeys[k], Lookup(storage, chatKeys[k]), adminId) == Some(c))
    {
      CollectMembers(chatKeys, storage, adminId, c);
      assert c in Listing(keys, storage, adminId) <==> c in multiset(Listing(keys, storage, adminId));
      assert c in collected <==> c in multiset(collected);
    }
  }

  /** Admin messages become read; customer messages keep their flag. */
  function MarkAdminRead(msgs: seq<Message>): (r: seq<Message>)
    ensures |r| == |msgs|
    ensures forall k :: 0 <= k < |msgs| ==> r[k].(read := msgs[k].read) == msgs[k]
    ensures forall k :: 0 <= k < |msgs| && msgs[k].senderRole == Admin ==> r[k].read
    ensures forall k :: 0 <= k < |msgs| && msgs[k].senderRole == Customer ==> r[k].read == msgs[k].read
  {
    seq(|msgs|, k requires 0 <= k < |msgs| => msgs[k].(read := msgs[k].senderRole == Admin || msgs[k].read))
  }

  lemma {:induction false} MarkAdminReadIdempotent(msgs: seq<Message>)
    ensures MarkAdminRead(MarkAdminRead(msgs)) == MarkAdminRead(msgs)
  {
    var once := MarkAdminRead(msgs);
    var twice := MarkAdminRead(once);
    forall k | 0 <= k < |msgs|
      ensures twice[k] == once[k]
    {
      assert once[k].senderRole == msgs[k].senderRole;
    }
  }

  function LastId(msgs: seq<Message>): Option<string> {
    if msgs == [] then None else Some(msgs[|msgs| - 1].id)
  }

  /** The shown list is replaced only when the length or the last id differs. */
  predicate Changed(shown: seq<Message>, stored: seq<Message>) {
    |shown| != |stored| || LastId(shown) != LastId(stored)
  }

  /** An unchanged list is never treated as changed, and a new message at the end always is. */
  lemma {:induction false} ChangeDetection(shown: seq<Message>, m: Message)
    ensures !Changed(shown, shown)
    ensures Changed(shown, shown + [m])
  {
  }

  /** Conversations whose customer name mentions the term, ignoring case, in list order. */
  function SearchConversations(convs: seq<Conversation>, term: string): (r: seq<Conversation>)
    ensures forall c :: c in r <==> c in convs && Mentions(c.userName, term)
    ensures IsSubsequence(r, convs)
  {
    FilterIsSubsequence(convs, (c: Conversation) => Mentions(c.userName, term));
    Filter(convs, (c: Conversation) => Mentions(c.userName, term))
  }

  lemma {:induction false} EmptySearchKeepsAll(convs: seq<Conversation>)
    ensures SearchConversations(convs, "") == convs
  {
    forall k | 0 <= k < |convs|
      ensures Mentions(convs[k].userName, "")
    {
      EmptyTermMentioned(convs[k].userName);
    }
    FilterAll(convs, (c: Conversation) => Mentions(c.userName, ""));
  }

  /** The admin's reply; `stamp` is `Date.now()`. */
  function AdminMessage(admin: User, conversationId: string, text: string, stamp: nat): (m: Message)
    ensures m.senderRole == Admin && !m.read && m.message == text
    ensures m.conversationId == conversationId && m.senderId == admin.id && m.id == NatToString(stamp)
  {
    Message(NatToString(stamp), conversationId, admin.id, admin.name, Admin, text, stamp, false)
  }

  class AdminChatPage {
    /** The browser storage entries and `Object.keys` order of its keys. */
    var storage: map<string, Entry>
    var keys: seq<string>
    var conversations: seq<Conversation>
    /** The selected customer id; '' when none is selected. */
    var selected: string
    var messages: seq<Message>
    var input: string

    /** `Object.keys` lists every stored key exactly once. */
    ghost predicate Valid()
      reads this
    {
      (forall k :: k in storage <==> k in keys) &&
      (forall i, j :: 0 <= i < j < |keys| ==> keys[i] != keys[j])
    }

    constructor(storage0: map<string, Entry>, keys0: seq<string>)
      requires forall k :: k in storage0 <==> k in keys0
      requires forall i, j :: 0 <= i < j < |keys0| ==> keys0[i] != keys0[j]
      ensures Valid() && storage == storage0 && keys == keys0
      ensures conversations == [] && selected == "" && messages == [] && input == ""
    {
      storage := storage0;
      keys := keys0;
      conversations := [];
      selected := "";
      messages := [];
      input := "";
    }

    /**
     * `loadConversations`: for an admin, every chat entry is first parsed,
     * and an unparsable one throws before anything changes; otherwise every
     * chat key but the admin's own is read in key order, its conversation
     * pushed, the list sorted newest first, and the first conversation
     * selected when none is.
     */
    method LoadConversations(admin: Option<User>)
      modifies this
      ensures storage == old(storage) && keys == old(keys) && messages == old(messages) && input == old(input)
      ensures admin.None? || admin.value.role != Admin || HasGarbled(Filter(keys, IsChatKey), storage) ==>
        conversations == old(conversations) && selected == old(selected)
      ensures admin.Some? && admin.value.role == Admin && !HasGarbled(Filter(keys, IsChatKey), storage) ==>
        conversations == Listing(keys, storage, admin.value.id) &&
        selected == if old(selected) == "" && conversations != [] then conversations[0].userId else old(selected)
    {
      if admin.None? || admin.value.role != Admin {
        return;
      }
      var adminId := admin.value.id;
      var chatKeys := Filter(keys, IsChatKey);
      var parsed := ParseAll(chatKeys);
      if !parsed {
        return;
      }
      var convs := CollectConversations(chatKeys, adminId);
      conversations := SortBy(convs, NewerFirst);
      if |conversations| > 0 && selected == "" {
        selected := conversations[0].userId;
      }
    }

    /** The first `forEach` over the chat keys: false at the first entry that does not parse. */
    method ParseAll(chatKeys: seq<string>) returns (ok: bool)
      ensures ok <==> !HasGarbled(chatKeys, storage)
    {
      var i := 0;
      while i < |chatKeys|
        invariant 0 <= i <= |chatKeys|
        invariant forall j :: 0 <= j < i ==> Lookup(storage, chatKeys[j]) != Some(Garbled)
      {
        if Lookup(storage, chatKeys[i]) == Some(Garbled) {
          return false;
        }
        i := i + 1;
      }
      return true;
    }

    /** The `forEach` over the chat keys, pushing each key's conversation in key order. */
    method CollectConversations(chatKeys: seq<string>, adminId: string) returns (convs: seq<Conversation>)
      requires forall k :: 0 <= k < |chatKeys| ==> IsChatKey(chatKeys[k])
      ensures convs == Collect(chatKeys, storage, adminId)
    {
      convs := [];
      var i := 0;
      while i < |chatKeys|
        invariant 0 <= i <= |chatKeys|
        invariant convs == Collect(chatKeys[..i], storage, adminId)
      {
        assert chatKeys[..i + 1][..i] == chatKeys[..i];
        var found := ReadConversation(chatKeys[i], adminId);
        if found.Some? {
          convs := convs + [found.value];
        }
        i := i + 1;
      }
      assert chatKeys[..|chatKeys|] == chatKeys;
    }

    /** The body of the `forEach` over chat keys: what one key contributes. */
    method ReadConversation(key: string, adminId: string) returns (found: Option<Conversation>)
      requires IsChatKey(key)
      ensures found == ConversationOf(key, Lookup(storage, key), adminId)
    {
      found := None;
      var userId := UserOf(key);
      if userId != adminId && key in storage && storage[key].Chat? && storage[key].msgs != [] {
        var msgs := storage[key].msgs;
        var first := FirstMatch(msgs, FromCustomer(adminId));
        if first.Some? {
          found := Some(Conversation(userId, msgs[first.value].senderName, msgs[|msgs| - 1]));
        }
      }
    }

    /**
     * `loadMessages`: a stored list replaces the shown one only when it
     * differs in length or last id, and is written back with its admin
     * messages read; a missing or unreadable entry empties the view.
     */
    method LoadMessages(userId: string)
      requires Valid()
      modifies this
      ensures Valid()
      ensures keys == old(keys) && conversations == old(conversations) && selected == old(selected)
      ensures input == old(input)
      ensures var entry := Lookup(old(storage), KeyOf(userId));
        (entry.None? || entry.value.Garbled? ==> messages == [] && storage == old(storage)) &&
        (entry.Some? && entry.value.Chat? ==>
          messages == (if Changed(old(messages), entry.value.msgs) then entry.value.msgs else old(messages)) &&
          storage == old(storage)[KeyOf(userId) := Chat(MarkAdminRead(entry.value.msgs))])
    {
      var key := KeyOf(userId);
      if key !in storage || storage[key].Garbled? {
        messages := [];
        return;
      }
      var msgs := storage[key].msgs;
      if Changed(messages, msgs) {
        messages := msgs;
      }
      storage := storage[key := Chat(MarkAdminRead(msgs))];
    }

    /**
     * `handleSend`: ignored for blank input, no selection or no user;
     * otherwise the trimmed text is appended as an unread admin message,
     * the list is stored under the selected conversation, the input is
     * cleared and the conversation list reloaded.
     */
    method Send(admin: Option<User>, stamp: nat)
      requires Valid()
      modifies this
      ensures Valid()
      ensures JsTrim(old(input)) == "" || old(selected) == "" || admin.None? ==>
        storage == old(storage) && keys == old(keys) && messages == old(messages) &&
        input == old(input) && conversations == old(conversations) && selected == old(selected)
      ensures JsTrim(old(input)) != "" && old(selected) != "" && admin.Some? ==> (
        messages == old(messages) + [AdminMessage(admin.value, old(selected), JsTrim(old(input)), stamp)] &&
        storage == old(storage)[KeyOf(old(selected)) := Chat(messages)] &&
        input == "" && selected == old(selected) &&
        (admin.value.role == Admin && !HasGarbled(Filter(keys, IsChatKey), storage) ==>
          conversations == Listing(keys, storage, admin.value.id)) &&
        (admin.value.role != Admin || HasGarbled(Filter(keys, IsChatKey), storage) ==>
          conversations == old(conversations)))
    {
      if JsTrim(input) == "" || selected == "" || admin.None? {
        return;
      }
      var m := AdminMessage(admin.value, selected, JsTrim(input), stamp);
      messages := messages + [m];
      var key := KeyOf(selected);
      if key !in storage {
        keys := keys + [key];
      }
      storage := storage[key := Chat(messages)];
      input := "";
      LoadConversations(admin);
    }
  }
}
