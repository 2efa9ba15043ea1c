/**
 * The chat back end's message store: conversations are created on demand,
 * a double submission within two seconds is answered with the stored row,
 * and a customer's message is stored before the optional assistant reply.
 */
module ChatStore {
  import opened Wrappers
  import opened Text
  import opened Seqs
  import opened ChatSchema
  import opened ChatRouting
  import opened ReplySynthesis

  /** The conversation id of `userId`, if one exists. */
  function ConversationOf(conversations: seq<Conversation>, userId: string): (r: Option<int>)
    ensures r.None? <==> forall i :: 0 <= i < |conversations| ==> conversations[i].userId != userId
    ensures r.Some? ==> Conversation(r.value, userId) in conversations
  {
    if conversations == [] then None
    else if conversations[0].userId == userId then Some(conversations[0].id)
    else
      var r := ConversationOf(conversations[1..], userId);
      assert forall i :: 1 <= i < |conversations| ==> conversations[i] == conversations[1..][i - 1];
      r
  }

  /** A stored row that the duplicate guard treats as the same submission. */
  predicate IsRecentCopy(m: ChatMessage, conversationId: int, senderId: string, text: string, now: int) {
    m.conversationId == conversationId && m.senderId == senderId && m.message == text && m.createdAt > now - 2
  }

  /** The duplicate query: a row of the same conversation, sender and text created in the last two seconds. */
  function FindRecentCopy(rows: seq<ChatMessage>, conversationId: int, senderId: string, text: string, now: int)
    : (r: Option<ChatMessage>)
    ensures r.None? <==> forall i :: 0 <= i < |rows| ==> !IsRecentCopy(rows[i], conversationId, senderId, text, now)
    ensures r.Some? ==> r.value in rows && IsRecentCopy(r.value, conversationId, senderId, text, now)
  {
    if rows == [] then None
    else if IsRecentCopy(rows[0], conversationId, senderId, text, now) then Some(rows[0])
    else
      var r := FindRecentCopy(rows[1..], conversationId, senderId, text, now);
      assert forall i :: 1 <= i < |rows| ==> rows[i] == rows[1..][i - 1];
      r
  }

  /** The messages of one conversation in ascending creation time. */
  function ConversationMessages(rows: seq<ChatMessage>, conversationId: int): (r: seq<ChatMessage>)
    ensures forall m :: m in r <==> m in rows && m.conversationId == conversationId
    ensures Chronological(rows) ==> Chronological(r)
  {
    var r := Filter(rows, ConversationRows(conversationId));
    assert Chronological(rows) ==> Chronological(r) by {
      if Chronological(rows) {
        FilterOrdered(rows, ConversationRows(conversationId), (a: ChatMessage, b: ChatMessage) => a.createdAt <= b.createdAt);
      }
    }
    r
  }

  /**
   * The history read for the reply is taken after the customer's message is
   * stored, so it ends with that message.
   */
  lemma {:induction false} HistoryEndsWithNewMessage(rows: seq<ChatMessage>, m: ChatMessage)
    ensures var h := ConversationHistory(rows + [m], m.conversationId);
      |h| > 0 && h[|h| - 1] == m
  {
    var f := (x: ChatMessage) => InConversation(m.conversationId, x);
    FilterAppend(rows, [m], f);
    assert Filter([m], f) == [m];
  }

  /** The fields of a POST; `None` stands for a missing field. */
  datatype PostRequest = PostRequest(
    userId: Option<string>,
    senderId: Option<string>,
    senderName: Option<string>,
    senderRole: Option<string>,
    message: Option<string>)

  /** A missing field or a falsy value ("" or "0"). */
  predicate Blank(field: Option<string>) { field.None? || PhpFalsy(field.value) }

  predicate WellFormed(req: PostRequest) {
    !Blank(req.userId) && !Blank(req.senderId) && !Blank(req.senderRole) && PhpTrim(req.message.GetOr("")) != ""
  }

  /** Where the reply path of a POST fails, if it does. */
  datatype ReplyFault = NoFault | HistoryFails | InsertFails

  /** Exceptions a POST may meet; each is caught by the handler. */
  datatype Faults = Faults(routingThrows: bool, historyQueryThrows: bool, reply: ReplyFault)

  datatype PostResponse =
    | BadRequest
    | Duplicate(existing: ChatMessage)
    | Posted(customer: ChatMessage, aiResponse: Option<ChatMessage>)

  /** A row written by the assistant. */
  predicate IsAssistantRow(m: ChatMessage) {
    m.senderId == "0" && m.senderRole == "admin" && m.senderName == "AI Assistant" &&
    m.isAiResponse && m.aiModel == Some("gemini-1.5-flash")
  }

  datatype GetResponse =
    | MissingKey
    | Messages(conversationId: int, rows: seq<ChatMessage>)

  class ChatStore {
    var conversations: seq<Conversation>
    var messages: seq<ChatMessage>
    /** Time of the latest insert, in seconds. */
    var clock: int
    var nextConversationId: int
    var nextMessageId: int

    ghost predicate Valid()
      reads this
    {
      (forall i :: 0 <= i < |conversations| ==> 1 <= conversations[i].id < nextConversationId) &&
      (forall i, j :: 0 <= i < j < |conversations| ==>
        conversations[i].userId != conversations[j].userId) &&
      (forall i :: 0 <= i < |messages| ==> 1 <= messages[i].id < nextMessageId && messages[i].createdAt <= clock) &&
      (forall i, j :: 0 <= i < j < |messages| ==> messages[i].id < messages[j].id) &&
      Chronological(messages) &&
      nextConversationId >= 1 && nextMessageId >= 1
    }

    constructor(now: int)
      ensures Valid()
      ensures conversations == [] && messages == [] && clock == now
    {
      conversations := [];
      messages := [];
      clock := now;
      nextConversationId := 1;
      nextMessageId := 1;
    }

    /** Get-or-create: the user's conversation, inserting one only when none exists. */
    method EnsureConversation(userId: string) returns (id: int)
      requires Valid()
      modifies this
      ensures Valid()
      ensures messages == old(messages) && clock == old(clock) && nextMessageId == old(nextMessageId)
      ensures ConversationOf(conversations, userId) == Some(id) && id >= 1
      ensures old(ConversationOf(conversations, userId)).Some? ==>
        id == old(ConversationOf(conversations, userId)).value &&
        conversations == old(conversations) && nextConversationId == old(nextConversationId)
      ensures old(ConversationOf(conversations, userId)).None? ==>
        id == old(nextConversationId) &&
        conversations == old(conversations) + [Conversation(id, userId)] &&
        nextConversationId == old(nextConversationId) + 1
    {
      var existing := ConversationOf(conversations, userId);
      if existing.Some? {
        assert Conversation(existing.value, userId) in conversations;
        return existing.value;
      }
      id := nextConversationId;
      conversations := conversations + [Conversation(id, userId)];
      nextConversationId := nextConversationId + 1;
      assert ConversationOf(conversations, userId) == Some(id) by {
        ConversationOfAppend(old(conversations), Conversation(id, userId));
      }
    }

    /** GET messages: the conversation named by id, or by the user (created if needed), oldest first. */
    method GetMessages(conversationId: Option<int>, userId: Option<string>) returns (r: GetResponse)
      requires Valid()
      modifies this
      ensures Valid()
      ensures messages == old(messages)
      ensures (conversationId.None? || conversationId.value == 0) && Blank(userId) <==> r == MissingKey
      ensures r.Messages? ==> r.rows == ConversationMessages(messages, r.conversationId) && Chronological(r.rows)
      ensures r.Messages? && conversationId.Some? && conversationId.value != 0 ==>
        r.conversationId == conversationId.value && conversations == old(conversations)
      ensures r.Messages? && (conversationId.None? || conversationId.value == 0) ==>
        ConversationOf(conversations, userId.value) == Some(r.conversationId)
    {
      var cid := conversationId.GetOr(0);
      if cid == 0 && Blank(userId) {
        return MissingKey;
      }
      if !Blank(userId) && cid == 0 {
        cid := EnsureConversation(userId.value);
      }
      r := Messages(cid, ConversationMessages(messages, cid));
    }

    /** Inserts one row with the next id at the current time. */
    method Insert(m: ChatMessage)
      requires Valid() && m.id == nextMessageId && m.createdAt >= clock
      modifies this
      ensures Valid()
      ensures messages == old(messages) + [m] && clock == m.createdAt && nextMessageId == old(nextMessageId) + 1
      ensures conversations == old(conversations) && nextConversationId == old(nextConversationId)
    {
      messages := messages + [m];
      nextMessageId := nextMessageId + 1;
      clock := m.createdAt;
    }

    /** The routing step: a throwing check counts as "no assistant"; a failed history query as no history. */
    method Route(customer: ChatMessage, apiKey: string, faults: Faults) returns (useAI: bool)
      ensures useAI <==>
        !faults.routingThrows &&
        RouteDecision(customer.message, customer.senderRole, apiKey,
                      if faults.historyQueryThrows then ReadFailed
                      else Rows(RecentCustomerMessages(messages, customer.conversationId)))
    {
      useAI := false;
      if !faults.routingThrows {
        var history := if faults.historyQueryThrows then ReadFailed
                       else Rows(RecentCustomerMessages(messages, customer.conversationId));
        useAI := ShouldUseAI(customer.message, customer.senderRole, apiKey, history);
      }
    }

    /**
     * The second half of a POST, after the customer's row is stored: decide
     * the route and, when the assistant answers, store its reply.
     */
    method AnswerIfRouted(customer: ChatMessage, apiKey: string, cache: ModelCache,
                          service: (string, seq<Turn>) -> Outcome, faults: Faults) returns (ai: Option<ChatMessage>)
      requires Valid() && |messages| > 0 && messages[|messages| - 1] == customer && customer.createdAt == clock
      modifies this, cache
      ensures Valid()
      ensures conversations == old(conversations)
      ensures ai.None? ==> messages == old(messages)
      ensures ai.Some? ==> messages == old(messages) + [ai.value]
      ensures ai.Some? <==>
        !faults.routingThrows && faults.reply == NoFault &&
        RouteDecision(customer.message, customer.senderRole, apiKey,
                      if faults.historyQueryThrows then ReadFailed
                      else Rows(RecentCustomerMessages(old(messages), customer.conversationId)))
      ensures ai.Some? ==>
        IsAssistantRow(ai.value) && ai.value.createdAt == customer.createdAt &&
        ai.value.conversationId == customer.conversationId &&
        ai.value.message == ReplyText(apiKey, old(cache.cacheFile),
                                      ConversationHistory(old(messages), customer.conversationId),
                                      customer.message, service)
    {
      var useAI := Route(customer, apiKey, faults);
      if !useAI || faults.reply == HistoryFails {
        return None;
      }
      var context := ConversationHistory(messages, customer.conversationId);
      var reply := cache.Reply(apiKey, customer.message, context, service);
      if faults.reply == InsertFails {
        return None;
      }
      var row := ChatMessage(nextMessageId, customer.conversationId, "0", "admin", "AI Assistant", reply,
                             true, Some("gemini-1.5-flash"), clock, false);
      Insert(row);
      return Some(row);
    }

    /**
     * The first half of a well-formed POST: find or create the conversation,
     * then store the customer's row unless a copy from the last two seconds
     * exists, in which case that copy is the answer.
     */
    method StoreCustomer(userId: string, senderId: string, senderRole: string, senderName: string, text: string,
                         now: int) returns (resp: PostResponse)
      requires Valid() && now >= clock
      modifies this
      ensures Valid()
      ensures ConversationOf(conversations, userId).Some?
      ensures resp.Duplicate? || (resp.Posted? && resp.aiResponse.None?)
      ensures resp.Duplicate? ==>
        messages == old(messages) && resp.existing in old(messages) &&
        IsRecentCopy(resp.existing, ConversationOf(conversations, userId).value, senderId, text, now)
      ensures resp.Posted? ==>
        var cid := ConversationOf(conversations, userId).value;
        FindRecentCopy(old(messages), cid, senderId, text, now).None? &&
        resp.customer == ChatMessage(old(nextMessageId), cid, senderId, senderRole, senderName, text, false, None, now, false) &&
        messages == old(messages) + [resp.customer] && clock == now
    {
      var conversationId := EnsureConversation(userId);
      var copy := FindRecentCopy(messages, conversationId, senderId, text, now);
      if copy.Some? {
        return Duplicate(copy.value);
      }
      var customer := ChatMessage(nextMessageId, conversationId, senderId, senderRole, senderName, text,
                                  false, None, now, false);
      Insert(customer);
      resp := Posted(customer, None);
    }

    /** A well-formed POST: store the customer's row as above, then maybe reply. */
    method Accept(userId: string, senderId: string, senderRole: string, senderName: string, text: string,
                  now: int, apiKey: string, cache: ModelCache,
                  service: (string, seq<Turn>) -> Outcome, faults: Faults) returns (resp: PostResponse)
      requires Valid() && now >= clock
      modifies this, cache
      ensures Valid()
      ensures resp != BadRequest
      ensures ConversationOf(conversations, userId).Some?
      ensures !resp.Posted? ==> cache.cacheFile == old(cache.cacheFile)
      ensures resp.Duplicate? ==>
        messages == old(messages) && resp.existing in old(messages) &&
        IsRecentCopy(resp.existing, ConversationOf(conversations, userId).value, senderId, text, now)
      ensures resp.Posted? ==>
        var cid := ConversationOf(conversations, userId).value;
        FindRecentCopy(old(messages), cid, senderId, text, now).None? &&
        resp.customer == ChatMessage(old(nextMessageId), cid, senderId, senderRole, senderName, text, false, None, now, false) &&
        messages == old(messages) + [resp.customer] +
                    (if resp.aiResponse.Some? then [resp.aiResponse.value] else [])
      ensures resp.Posted? ==>
        (resp.aiResponse.Some? <==>
           !faults.routingThrows && faults.reply == NoFault &&
           RouteDecision(text, senderRole, apiKey,
                         if faults.historyQueryThrows then ReadFailed
                         else Rows(RecentCustomerMessages(old(messages) + [resp.customer], resp.customer.conversationId))))
      ensures resp.Posted? && resp.aiResponse.Some? ==>
        var ai := resp.aiResponse.value;
        IsAssistantRow(ai) && ai.createdAt == now && ai.conversationId == resp.customer.conversationId &&
        ai.message == ReplyText(apiKey, old(cache.cacheFile),
                                ConversationHistory(old(messages) + [resp.customer], resp.customer.conversationId),
                                text, service)
    {
      resp := StoreCustomer(userId, senderId, senderRole, senderName, text, now);
      if resp.Posted? {
        var customer := resp.customer;
        var ai := AnswerIfRouted(customer, apiKey, cache, service, faults);
        resp := Posted(customer, ai);
      }
    }

    /** POST: a request missing its user, sender, role or text is refused and stores nothing. */
    method Post(req: PostRequest, now: int, apiKey: string, cache: ModelCache,
                service: (string, seq<Turn>) -> Outcome, faults: Faults) returns (resp: PostResponse)
      requires Valid() && now >= clock
      modifies this, cache
      ensures Valid()
      ensures resp == BadRequest <==> !WellFormed(req)
      ensures resp == BadRequest ==>
        messages == old(messages) && conversations == old(conversations) && cache.cacheFile == old(cache.cacheFile)
      ensures resp.Posted? ==>
        resp.customer.message == PhpTrim(req.message.value) && !resp.customer.isAiResponse &&
        |old(messages)| < |messages| <= |old(messages)| + 2 &&
        messages[..|old(messages)| + 1] == old(messages) + [resp.customer]
      ensures resp.Duplicate? ==> messages == old(messages)
    {
      if !WellFormed(req) {
        return BadRequest;
      }
      resp := Accept(req.userId.value, req.senderId.value, req.senderRole.value, req.senderName.GetOr(""),
                     PhpTrim(req.message.value), now, apiKey, cache, service, faults);
    }
  }

  lemma {:induction false} ConversationOfAppend(conversations: seq<Conversation>, c: Conversation)
    requires ConversationOf(conversations, c.userId).None?
    ensures ConversationOf(conversations + [c], c.userId) == Some(c.id)
  {
    if conversations != [] {
      assert (conversations + [c])[1..] == conversations[1..] + [c];
      ConversationOfAppend(conversations[1..], c);
    }
  }
}
