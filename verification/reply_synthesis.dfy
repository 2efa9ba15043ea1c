/**
 * The deterministic parts of the assistant's reply (`callAIChatbot` and
 * `getConversationHistory`): the context window sent to the language-model
 * service, the role of each history entry, the choice of candidate models,
 * the cached working model, the label stripped from a reply and the fixed
 * apology. The service itself is an input: the outcome it gives for a
 * model name and a context.
 */
module ReplySynthesis {
  import opened Wrappers
  import opened Text
  import opened Seqs
  import opened ChatSchema

  const Apology := "Xin lỗi, dịch vụ AI tạm thời không khả dụng. Vui lòng liên hệ admin để được hỗ trợ."

  const SystemPrompt :=
    "Bạn là trợ lý AI chuyên nghiệp và thân thiện của cửa hàng cá cảnh Charan Aquarium. \n"
    + "Bạn giúp khách hàng tư vấn chi tiết về:\n"
    + "- Các loại cá cảnh (Freshwater, Marine, Exotic)\n"
    + "- Phụ kiện hồ cá (Tanks, Accessories)\n"
    + "- Thức ăn cho cá (Food)\n"
    + "- Cách chăm sóc cá cảnh\n\n"
    + "Hãy trả lời NGẮN GỌN, SÚC TÍCH, và HỮU ÍCH bằng tiếng Việt. Trả lời từ 50-100 từ, tập trung vào thông tin quan trọng nhất. Tránh lặp lại, không dài dòng.\n"
    + "- Nếu khách hỏi về loại cá: Mô tả ngắn gọn đặc điểm nổi bật, cách nuôi cơ bản, thức ăn, lưu ý quan trọng.\n"
    + "- Nếu khách hỏi về phụ kiện: Giải thích ngắn gọn công dụng chính, cách sử dụng, lợi ích.\n"
    + "- Nếu khách hỏi về chăm sóc: Hướng dẫn ngắn gọn các bước cơ bản, lưu ý quan trọng.\n"
    + "- Luôn trả lời trực tiếp câu hỏi, không lan man. Nếu cần thông tin chi tiết hơn, đề xuất khách xem Shop hoặc liên hệ admin.\n\n"
    + "Nếu khách hàng hỏi về sản phẩm cụ thể, hãy đề xuất họ xem trong Shop hoặc liên hệ admin để được tư vấn chi tiết hơn về giá và đặt hàng.\n\n"
    + "QUAN TRỌNG: Nếu khách hàng không hài lòng, có vấn đề phức tạp, hoặc yêu cầu được nói chuyện với admin thực sự, hãy đề xuất họ gõ 'admin' hoặc 'người thật' để được chuyển sang admin thực sự. Luôn lịch sự và hữu ích."

  const Acknowledgement := "Tôi hiểu. Tôi sẽ giúp khách hàng với thông tin về cá cảnh và sản phẩm của Charan Aquarium."

  const PrimaryModel := "v1beta/models/gemini-2.5-flash"
  const FallbackModel := "v1beta/models/gemini-flash-latest"

  /** The number of history entries sent with a request. */
  const HistoryWindow := 5

  /** One turn of the request's `contents`: role "user" or "model" and its text. */
  datatype Turn = Turn(role: string, text: string)

  /** The two fixed turns that open every request. */
  const Preamble: seq<Turn> := [Turn("user", SystemPrompt), Turn("model", Acknowledgement)]

  /**
   * A history entry as the history query hands it over: an associative row
   * keyed by the selected columns' own snake_case names.
   */
  function HistoryRow(m: ChatMessage): (row: map<string, string>)
    ensures row.Keys == {"sender_id", "sender_role", "sender_name", "message"}
    ensures row["sender_id"] == m.senderId && row["sender_role"] == m.senderRole && row["message"] == m.message
  {
    map["sender_id" := m.senderId, "sender_role" := m.senderRole, "sender_name" := m.senderName, "message" := m.message]
  }

  /** `$row[$key]`: the value under the key, or None (PHP's null) when the row has no such key. */
  function Field(row: map<string, string>, key: string): Option<string> {
    if key in row then Some(row[key]) else None
  }

  /**
   * The role a history entry is sent with: the model's own turn only when
   * the row's `senderRole` is not 'customer' and its `senderId` is '0'.
   * Both are read under their camelCase names; a row without them reads
   * null, which is not '0', so such a row is always the user's turn.
   */
  function RoleFor(row: map<string, string>): (role: string)
    ensures role == "user" || role == "model"
    ensures role == "model" <==>
      "senderId" in row && row["senderId"] == "0" && !("senderRole" in row && row["senderRole"] == "customer")
    ensures "senderId" !in row ==> role == "user"
  {
    if Field(row, "senderRole") == Some("customer") || Field(row, "senderId") != Some("0") then "user" else "model"
  }

  function HistoryTurn(m: ChatMessage): Turn {
    var row := HistoryRow(m);
    Turn(RoleFor(row), row["message"])
  }

  /**
   * The turns of the history entries. The rows carry no camelCase keys, so
   * every entry, the assistant's and the admin's replies included, is sent
   * as the user's turn with its text.
   */
  function HistoryTurns(history: seq<ChatMessage>): (turns: seq<Turn>)
    ensures |turns| == |history|
    ensures forall k :: 0 <= k < |history| ==> turns[k] == Turn("user", history[k].message)
  {
    seq(|history|, k requires 0 <= k < |history| => HistoryTurn(history[k]))
  }

  /** `pre`, then the turns of `recent` in order, then the current message as a user turn. */
  function Frame(pre: seq<Turn>, recent: seq<ChatMessage>, userMessage: string): seq<Turn> {
    pre + HistoryTurns(recent) + [Turn("user", userMessage)]
  }

  lemma {:induction false} FrameAt(pre: seq<Turn>, recent: seq<ChatMessage>, userMessage: string, k: int)
    requires |pre| <= k < |pre| + |recent|
    ensures Frame(pre, recent, userMessage)[k] == HistoryTurn(recent[k - |pre|])
  {
    var turns := HistoryTurns(recent);
    assert Frame(pre, recent, userMessage)[k] == (pre + turns)[k];
  }

  /**
   * The request's contents: the preamble, the turns of the last five
   * history entries in order, then the current message as a user turn.
   */
  function ContextWindow(history: seq<ChatMessage>, userMessage: string): (ctx: seq<Turn>)
    ensures 3 <= |ctx| <= 8
    ensures |ctx| - 3 == |LastN(history, HistoryWindow)|
    ensures ctx[|ctx| - 1] == Turn("user", userMessage)
  {
    Frame(Preamble, LastN(history, HistoryWindow), userMessage)
  }

  /**
   * The window opens with the preamble and holds the latest entries' texts
   * in their order, each as a user turn: after the preamble's
   * acknowledgement no turn is the model's.
   */
  lemma {:induction false} ContextWindowShape(history: seq<ChatMessage>, userMessage: string)
    ensures ContextWindow(history, userMessage)[..2] == Preamble
    ensures forall k :: 2 <= k < |ContextWindow(history, userMessage)| - 1 ==>
      ContextWindow(history, userMessage)[k] ==
        Turn("user", history[|history| - |ContextWindow(history, userMessage)| + 1 + k].message)
    ensures forall k :: 2 <= k < |ContextWindow(history, userMessage)| ==> ContextWindow(history, userMessage)[k].role == "user"
  {
    var recent := LastN(history, HistoryWindow);
    var ctx := ContextWindow(history, userMessage);
    assert ctx[..2] == Preamble;
    forall k | 2 <= k < |ctx| - 1
      ensures ctx[k] == Turn("user", history[|history| - |ctx| + 1 + k].message)
    {
      FrameAt(Preamble, recent, userMessage, k);
      assert recent[k - 2] == history[|history| - |recent| + k - 2];
    }
  }

  /** Builds the request's contents by appending turn after turn. */
  method BuildContext(history: seq<ChatMessage>, userMessage: string) returns (messages: seq<Turn>)
    ensures messages == ContextWindow(history, userMessage)
  {
    messages := AppendTurns(Preamble, LastN(history, HistoryWindow), userMessage);
  }

  /** Starting from `pre`, appends one turn per entry of `recent`, then the current message. */
  method AppendTurns(pre: seq<Turn>, recent: seq<ChatMessage>, userMessage: string) returns (messages: seq<Turn>)
    ensures messages == Frame(pre, recent, userMessage)
  {
    messages := pre;
    var i := 0;
    while i < |recent|
      invariant 0 <= i <= |recent|
      invariant messages == pre + HistoryTurns(recent[..i])
    {
      assert HistoryTurns(recent[..i + 1]) == HistoryTurns(recent[..i]) + [HistoryTurn(recent[i])];
      messages := messages + [HistoryTurn(recent[i])];
      i := i + 1;
    }
    assert recent[..i] == recent;
    messages := messages + [Turn("user", userMessage)];
  }

  /**
   * The models to try: only the cached working model when the cache file
   * holds a non-empty name (after trimming), otherwise the two fixed models
   * in order.
   */
  function Candidates(cacheFile: Option<string>): (models: seq<string>)
    ensures cacheFile.Some? && !PhpFalsy(PhpTrim(cacheFile.value)) ==> models == [PhpTrim(cacheFile.value)]
    ensures cacheFile.None? || PhpFalsy(PhpTrim(cacheFile.value)) ==> models == [PrimaryModel, FallbackModel]
  {
    match cacheFile
    case Some(content) =>
      var cached := PhpTrim(content);
      if PhpFalsy(cached) then [PrimaryModel, FallbackModel] else [cached]
    case None => [PrimaryModel, FallbackModel]
  }

  /** What the service answered for one model. */
  datatype Outcome =
    | TransportError
    | Response(status: int, text: Option<string>)   // text: the first candidate's first part, when present

  predicate Succeeded(o: Outcome) { o.Response? && o.status == 200 && o.text.Some? }

  datatype Success = Success(model: string, text: string)

  /** The first candidate whose outcome is a success, with the text it returned. */
  function FirstSuccess(models: seq<string>, ctx: seq<Turn>, service: (string, seq<Turn>) -> Outcome): (r: Option<Success>)
    ensures r.None? <==> forall k :: 0 <= k < |models| ==> !Succeeded(service(models[k], ctx))
    ensures r.Some? ==>
      exists k :: 0 <= k < |models| && models[k] == r.value.model &&
        Succeeded(service(models[k], ctx)) && service(models[k], ctx).text.value == r.value.text &&
        forall j :: 0 <= j < k ==> !Succeeded(service(models[j], ctx))
  {
    if models == [] then None
    else
      var o := service(models[0], ctx);
      if Succeeded(o) then Some(Success(models[0], o.text.value))
      else
        var rest := FirstSuccess(models[1..], ctx, service);
        assert forall k :: 1 <= k < |models| ==> models[k] == models[1..][k - 1];
        rest
  }

  /** White space matched by `\s` in the label pattern. */
  const PcreSpace: set<char> := {' ', '\t', '\n', '\r', 11 as char, 12 as char}

  const Labels: seq<string> := ["AI Assistant", "Trợ lý AI"]

  /** `s` opens with `tag` (ASCII letters compared without case) followed by ':'. */
  predicate HasLabel(s: string, tag: string) {
    |s| > |tag| && (forall k :: 0 <= k < |tag| ==> LowerChar(s[k]) == LowerChar(tag[k])) && s[|tag|] == ':'
  }

  /** Removes a leading "AI Assistant:" or "Trợ lý AI:" label and the white space after it. */
  function StripLabel(s: string): (r: string)
    ensures |r| <= |s| && r == s[|s| - |r|..]
    ensures !HasLabel(s, Labels[0]) && !HasLabel(s, Labels[1]) ==> r == s
    ensures HasLabel(s, Labels[0]) || HasLabel(s, Labels[1]) ==> |r| < |s| && (r == [] || r[0] !in PcreSpace)
  {
    if HasLabel(s, Labels[0]) then TrimStartShape(s[|Labels[0]| + 1..], PcreSpace); TrimStart(s[|Labels[0]| + 1..], PcreSpace)
    else if HasLabel(s, Labels[1]) then TrimStartShape(s[|Labels[1]| + 1..], PcreSpace); TrimStart(s[|Labels[1]| + 1..], PcreSpace)
    else s
  }

  /** A labelled reply loses exactly its label and the spaces after it. */
  lemma {:induction false} StripLabelRoundTrip(tag: string, spaces: string, body: string)
    requires tag in Labels
    requires forall k :: 0 <= k < |spaces| ==> spaces[k] in PcreSpace
    requires body == [] || body[0] !in PcreSpace
    ensures StripLabel(tag + ":" + spaces + body) == body
  {
    var s := tag + ":" + spaces + body;
    assert forall k :: 0 <= k < |tag| ==> s[k] == tag[k];
    assert s[|tag| + 1..] == spaces + body;
    assert HasLabel(s, tag);
    if tag == Labels[1] {
      NotBothLabels(s);
    }
    TrimStartAll(spaces, body);
  }

  /** The two labels differ in their first letter, so a reply opens with at most one of them. */
  lemma {:induction false} NotBothLabels(s: string)
    requires HasLabel(s, Labels[1])
    ensures !HasLabel(s, Labels[0])
  {
    assert LowerChar(s[0]) == 't';
  }

  lemma {:induction false} TrimStartAll(spaces: string, body: string)
    requires forall k :: 0 <= k < |spaces| ==> spaces[k] in PcreSpace
    requires body == [] || body[0] !in PcreSpace
    ensures TrimStart(spaces + body, PcreSpace) == body
  {
    if spaces == [] {
      assert spaces + body == body;
    } else {
      assert (spaces + body)[1..] == spaces[1..] + body;
      TrimStartAll(spaces[1..], body);
    }
  }

  /** The text the function returns for one call. */
  function ReplyText(apiKey: string, cacheFile: Option<string>, history: seq<ChatMessage>,
                     userMessage: string, service: (string, seq<Turn>) -> Outcome): string
  {
    if PhpFalsy(apiKey) then Apology
    else match FirstSuccess(Candidates(cacheFile), ContextWindow(history, userMessage), service)
      case Some(success) => StripLabel(PhpTrim(success.text))
      case None => Apology
  }

  /** The cache file after one call: the model that succeeded, or unchanged. */
  function CacheAfter(apiKey: string, cacheFile: Option<string>, history: seq<ChatMessage>,
                      userMessage: string, service: (string, seq<Turn>) -> Outcome): Option<string>
  {
    if PhpFalsy(apiKey) then cacheFile
    else match FirstSuccess(Candidates(cacheFile), ContextWindow(history, userMessage), service)
      case Some(success) => Some(success.model)
      case None => cacheFile
  }

  lemma {:induction false} FirstSuccessSingle(model: string, ctx: seq<Turn>, service: (string, seq<Turn>) -> Outcome)
    ensures FirstSuccess([model], ctx, service) ==
      if Succeeded(service(model, ctx)) then Some(Success(model, service(model, ctx).text.value)) else None
  {
    assert [model][1..] == [];
  }

  /** With no key, or when every candidate fails, the reply is the fixed apology and the cache is kept. */
  lemma {:induction false} ApologyWhenNothingWorks(apiKey: string, cacheFile: Option<string>, history: seq<ChatMessage>,
                                userMessage: string, service: (string, seq<Turn>) -> Outcome)
    requires PhpFalsy(apiKey) ||
      forall k :: 0 <= k < |Candidates(cacheFile)| ==>
        !Succeeded(service(Candidates(cacheFile)[k], ContextWindow(history, userMessage)))
    ensures ReplyText(apiKey, cacheFile, history, userMessage, service) == Apology
    ensures CacheAfter(apiKey, cacheFile, history, userMessage, service) == cacheFile
  {
  }

  /** Once a working model is cached, the reply depends only on that model's outcome. */
  lemma {:induction false} CachedModelDecides(apiKey: string, cached: string, history: seq<ChatMessage>, userMessage: string,
                           s1: (string, seq<Turn>) -> Outcome, s2: (string, seq<Turn>) -> Outcome)
    requires !PhpFalsy(PhpTrim(cached))
    requires s1(PhpTrim(cached), ContextWindow(history, userMessage)) == s2(PhpTrim(cached), ContextWindow(history, userMessage))
    ensures ReplyText(apiKey, Some(cached), history, userMessage, s1) == ReplyText(apiKey, Some(cached), history, userMessage, s2)
    ensures CacheAfter(apiKey, Some(cached), history, userMessage, s1) == CacheAfter(apiKey, Some(cached), history, userMessage, s2)
  {
    var ctx := ContextWindow(history, userMessage);
    var models := Candidates(Some(cached));
    FirstSuccessSingle(PhpTrim(cached), ctx, s1);
    FirstSuccessSingle(PhpTrim(cached), ctx, s2);
  }

  /** The temporary file that remembers the last model that worked. */
  class ModelCache {
    var cacheFile: Option<string>

    constructor(content: Option<string>)
      ensures cacheFile == content
    {
      cacheFile := content;
    }

    /** One call of the assistant: tries the candidates in order and returns the first usable reply. */
    method Reply(apiKey: string, userMessage: string, history: seq<ChatMessage>,
                 service: (string, seq<Turn>) -> Outcome) returns (reply: string)
      modifies this
      ensures reply == ReplyText(apiKey, old(cacheFile), history, userMessage, service)
      ensures cacheFile == CacheAfter(apiKey, old(cacheFile), history, userMessage, service)
    {
      if PhpFalsy(apiKey) {
        return Apology;
      }
      var messages := BuildContext(history, userMessage);
      var modelsToTry := Candidates(cacheFile);
      var i := 0;
      while i < |modelsToTry|
        invariant 0 <= i <= |modelsToTry|
        invariant cacheFile == old(cacheFile)
        invariant FirstSuccess(modelsToTry, messages, service) == FirstSuccess(modelsToTry[i..], messages, service)
      {
        var outcome := service(modelsToTry[i], messages);
        if Succeeded(outcome) {
          cacheFile := Some(modelsToTry[i]);
          return StripLabel(PhpTrim(outcome.text.value));
        }
        assert modelsToTry[i..][1..] == modelsToTry[i + 1..];
        i := i + 1;
      }
      return Apology;
    }
  }

  /**
   * The history query for the reply: the conversation's ten most recent
   * messages, oldest first. The query reads the newest ten newest-first and
   * reverses them; on a table kept in creation order that is its last ten rows.
   */
  function ConversationHistory(table: seq<ChatMessage>, conversationId: int): (r: seq<ChatMessage>)
    ensures var rows := Filter(table, ConversationRows(conversationId));
      |r| == (if |rows| < 10 then |rows| else 10) && r == rows[|rows| - |r|..]
    ensures forall m :: m in r ==> m in table && m.conversationId == conversationId
    ensures Chronological(table) ==> Chronological(r)
  {
    var inConversation := Filter(table, ConversationRows(conversationId));
    var r := LastN(inConversation, 10);
    assert Chronological(table) ==> Chronological(r) by {
      if Chronological(table) {
        FilterOrdered(table, ConversationRows(conversationId), (a: ChatMessage, b: ChatMessage) => a.createdAt <= b.createdAt);
      }
    }
    r
  }
}
