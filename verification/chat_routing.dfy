/**
 * The routing decision of the chat back end (`shouldUseAI`): for each
 * incoming chat message it decides whether the automated assistant answers
 * or the message is left for a human admin.
 */
module ChatRouting {
  import opened Wrappers
  import opened Text
  import opened Seqs
  import opened ChatSchema

  /** Phrases by which a customer asks for a human admin. */
  const EscalationKeywords: seq<string> := [
    "admin", "quản lý", "manager", "người thật", "human", "real person",
    "real admin", "admin thật", "nói chuyện với admin", "liên hệ admin",
    "gặp admin", "admin giúp", "cần admin", "muốn admin", "yêu cầu admin",
    "chuyển admin", "chuyển sang admin", "không hài lòng", "không thỏa mãn",
    "phàn nàn", "khiếu nại", "complaint", "dissatisfied", "unsatisfied"
  ]

  /** Phrases by which a customer asks to go back to the assistant. */
  const BotKeywords: seq<string> := [
    "ai", "bot", "tư vấn tự động", "tư vấn ai", "quay lại ai", "dùng ai",
    "ai giúp", "bot giúp", "tự động", "auto", "chatbot", "trợ lý ai",
    "ai tư vấn", "bot tư vấn", "tư vấn bot", "quay lại bot"
  ]

  /** Some keyword occurs in the lower-cased text. */
  predicate MatchesAny(lowered: string, keywords: seq<string>) {
    exists k :: 0 <= k < |keywords| && Contains(lowered, keywords[k])
  }

  predicate AsksForBot(text: string) { MatchesAny(Lower(text), BotKeywords) }

  predicate AsksForAdmin(text: string) { MatchesAny(Lower(text), EscalationKeywords) }

  /** Rows the history scan reads: customer messages not written by the assistant. */
  predicate Scanned(conversationId: int, m: ChatMessage) {
    m.conversationId == conversationId && m.senderRole == "customer" && !m.isAiResponse
  }

  /**
   * The history query: the conversation's 20 most recent scanned rows,
   * newest first, read from a table kept in creation order.
   */
  function ScannedRows(conversationId: int): ChatMessage -> bool {
    (m: ChatMessage) => Scanned(conversationId, m)
  }

  function RecentCustomerMessages(table: seq<ChatMessage>, conversationId: int): (r: seq<ChatMessage>)
    ensures |r| <= 20
    ensures forall m :: m in r ==> m in table && Scanned(conversationId, m)
    ensures |Filter(table, ScannedRows(conversationId))| <= 20 ==>
      forall m :: m in table && Scanned(conversationId, m) ==> m in r
  {
    var scanned := Filter(table, ScannedRows(conversationId));
    var recent := LastN(scanned, 20);
    assert forall m :: m in recent ==> m in scanned;
    ReverseSameElements(recent);
    assert |scanned| <= 20 ==> recent == scanned;
    Reverse(recent)
  }

  /** What the history query produced. */
  datatype HistoryRead =
    | NoStore               // no connection or no conversation id: the scan is skipped
    | ReadFailed            // the query threw; the exception is logged and ignored
    | Rows(rows: seq<ChatMessage>)

  /**
   * The running maximum of the scan: the latest creation time among rows
   * whose message matches `keywords`, or None when no row matches.
   */
  function LatestMatch(rows: seq<ChatMessage>, keywords: seq<string>): Option<int>
  {
    if rows == [] then None
    else
      var earlier := LatestMatch(rows[..|rows| - 1], keywords);
      var m := rows[|rows| - 1];
      if MatchesAny(Lower(m.message), keywords) && (earlier.None? || m.createdAt > earlier.value)
      then Some(m.createdAt)
      else earlier
  }

  predicate RowMatches(m: ChatMessage, keywords: seq<string>) {
    MatchesAny(Lower(m.message), keywords)
  }

  /** LatestMatch is the maximum creation time over the matching rows. */
  lemma {:induction false} LatestMatchIsMaximum(rows: seq<ChatMessage>, keywords: seq<string>)
    ensures LatestMatch(rows, keywords).None? <==>
      forall i :: 0 <= i < |rows| ==> !RowMatches(rows[i], keywords)
    ensures LatestMatch(rows, keywords).Some? ==>
      (exists i :: 0 <= i < |rows| && RowMatches(rows[i], keywords) &&
         rows[i].createdAt == LatestMatch(rows, keywords).value) &&
      (forall i :: 0 <= i < |rows| && RowMatches(rows[i], keywords) ==>
         rows[i].createdAt <= LatestMatch(rows, keywords).value)
  {
    if rows != [] {
      var init := rows[..|rows| - 1];
      LatestMatchIsMaximum(init, keywords);
      assert forall i :: 0 <= i < |init| ==> init[i] == rows[i];
      var r := LatestMatch(rows, keywords);
      if r.Some? && r != LatestMatch(init, keywords) {
        assert RowMatches(rows[|rows| - 1], keywords);
      }
    }
  }

  /** The verdict of the history scan from the two running maxima. */
  function HistoryVerdict(latestBot: Option<int>, latestAdmin: Option<int>): bool {
    if latestBot.Some? && latestAdmin.Some? && latestBot.value > latestAdmin.value then true
    else if latestAdmin.Some? then false
    else true
  }

  /**
   * Whether the assistant answers `message`, given the sender's role, the
   * configured API key and the result of the history query.
   */
  function RouteDecision(message: string, senderRole: string, apiKey: string, history: HistoryRead): (useAI: bool)
    ensures senderRole != "customer" || PhpFalsy(apiKey) ==> !useAI
    ensures senderRole == "customer" && !PhpFalsy(apiKey) && AsksForBot(message) ==> useAI
    ensures senderRole == "customer" && !PhpFalsy(apiKey) && !AsksForBot(message) && AsksForAdmin(message) ==> !useAI
    ensures senderRole == "customer" && !PhpFalsy(apiKey) && !history.Rows? ==>
      (useAI <==> !AsksForAdmin(message) || AsksForBot(message))
  {
    if senderRole != "customer" then false
    else if PhpFalsy(apiKey) then false
    else if AsksForBot(message) then true
    else if AsksForAdmin(message) then false
    else match history
      case Rows(rows) => HistoryVerdict(LatestMatch(rows, BotKeywords), LatestMatch(rows, EscalationKeywords))
      case _ => true
  }

  /** The routing decision, with the history scan as a loop keeping two running maxima. */
  method ShouldUseAI(message: string, senderRole: string, apiKey: string, history: HistoryRead)
    returns (useAI: bool)
    ensures useAI == RouteDecision(message, senderRole, apiKey, history)
  {
    if senderRole != "customer" {
      return false;
    }
    if PhpFalsy(apiKey) {
      return false;
    }
    var lowered := Lower(message);
    if MatchesAny(lowered, BotKeywords) {
      return true;
    }
    if MatchesAny(lowered, EscalationKeywords) {
      return false;
    }
    if !history.Rows? {
      return true;
    }
    var rows := history.rows;
    var mostRecentBot: Option<int> := None;
    var mostRecentAdmin: Option<int> := None;
    var i := 0;
    while i < |rows|
      invariant 0 <= i <= |rows|
      invariant mostRecentBot == LatestMatch(rows[..i], BotKeywords)
      invariant mostRecentAdmin == LatestMatch(rows[..i], EscalationKeywords)
    {
      assert rows[..i + 1][..i] == rows[..i];
      var prevLower := Lower(rows[i].message);
      if MatchesAny(prevLower, BotKeywords) {
        if mostRecentBot.None? || rows[i].createdAt > mostRecentBot.value {
          mostRecentBot := Some(rows[i].createdAt);
        }
      }
      if MatchesAny(prevLower, EscalationKeywords) {
        if mostRecentAdmin.None? || rows[i].createdAt > mostRecentAdmin.value {
          mostRecentAdmin := Some(rows[i].createdAt);
        }
      }
      i := i + 1;
    }
    assert rows[..|rows|] == rows;
    if mostRecentBot.Some? && mostRecentAdmin.Some? {
      if mostRecentBot.value > mostRecentAdmin.value {
        return true;
      }
    }
    if mostRecentAdmin.Some? {
      return false;
    }
    return true;
  }

  lemma {:induction false} RowSignals(m: ChatMessage)
    ensures RowMatches(m, BotKeywords) == AsksForBot(m.message)
    ensures RowMatches(m, EscalationKeywords) == AsksForAdmin(m.message)
  {
  }

  /**
   * "Latest signal wins": for a neutral current message, the assistant
   * answers iff no scanned row asks for an admin, or some row asking for the
   * bot is strictly later than every row asking for an admin.
   */
  lemma {:induction false} HistoryRule(message: string, apiKey: string, rows: seq<ChatMessage>)
    requires !PhpFalsy(apiKey) && !AsksForBot(message) && !AsksForAdmin(message)
    ensures RouteDecision(message, "customer", apiKey, Rows(rows)) <==>
      (forall i :: 0 <= i < |rows| ==> !AsksForAdmin(rows[i].message)) ||
      (exists b :: 0 <= b < |rows| && AsksForBot(rows[b].message) &&
         forall i :: 0 <= i < |rows| && AsksForAdmin(rows[i].message) ==> rows[i].createdAt < rows[b].createdAt)
  {
    VerdictRule(rows, BotKeywords, EscalationKeywords);
    forall i | 0 <= i < |rows|
      ensures RowMatches(rows[i], BotKeywords) == AsksForBot(rows[i].message)
      ensures RowMatches(rows[i], EscalationKeywords) == AsksForAdmin(rows[i].message)
    {
      RowSignals(rows[i]);
    }
  }

  /** The verdict of the two running maxima, stated over the rows for any two keyword lists. */
  lemma {:induction false} VerdictRule(rows: seq<ChatMessage>, botKeywords: seq<string>, adminKeywords: seq<string>)
    ensures HistoryVerdict(LatestMatch(rows, botKeywords), LatestMatch(rows, adminKeywords)) <==>
      (forall i :: 0 <= i < |rows| ==> !RowMatches(rows[i], adminKeywords)) ||
      (exists b :: 0 <= b < |rows| && RowMatches(rows[b], botKeywords) &&
         forall i :: 0 <= i < |rows| && RowMatches(rows[i], adminKeywords) ==> rows[i].createdAt < rows[b].createdAt)
  {
    LatestMatchIsMaximum(rows, botKeywords);
    LatestMatchIsMaximum(rows, adminKeywords);
    var bot := LatestMatch(rows, botKeywords);
    var admin := LatestMatch(rows, adminKeywords);
    if admin.Some? {
      var a :| 0 <= a < |rows| && RowMatches(rows[a], adminKeywords) && rows[a].createdAt == admin.value;
      if bot.Some? {
        var b :| 0 <= b < |rows| && RowMatches(rows[b], botKeywords) && rows[b].createdAt == bot.value;
        if bot.value > admin.value {
          assert RowMatches(rows[b], botKeywords);
        }
      }
    }
  }

  /**
   * A single row asking for both the bot and an admin, at least as late as
   * every row asking for the bot, sends the conversation to a human: equal
   * timestamps do not favour the bot.
   */
  lemma {:induction false} BothSignalsInOneRowEscalates(message: string, apiKey: string, rows: seq<ChatMessage>, k: int)
    requires !PhpFalsy(apiKey) && !AsksForBot(message) && !AsksForAdmin(message)
    requires 0 <= k < |rows| && AsksForBot(rows[k].message) && AsksForAdmin(rows[k].message)
    requires forall i :: 0 <= i < |rows| && AsksForBot(rows[i].message) ==> rows[i].createdAt <= rows[k].createdAt
    ensures !RouteDecision(message, "customer", apiKey, Rows(rows))
  {
    HistoryRule(message, apiKey, rows);
  }

  /**
   * The escalation keyword "complaint" contains the bot keyword "ai", so a
   * customer message mentioning a complaint is always answered by the
   * assistant once a key is configured, whatever the history.
   */
  lemma {:induction false} ComplaintRoutesToBot(message: string, apiKey: string, history: HistoryRead)
    requires !PhpFalsy(apiKey)
    requires Contains(Lower(message), "complaint")
    ensures RouteDecision(message, "customer", apiKey, history)
  {
    assert OccursAt("complaint", "ai", 5);
    assert Contains("complaint", BotKeywords[0]);
    ContainsTransitive(Lower(message), "complaint", BotKeywords[0]);
  }
}
