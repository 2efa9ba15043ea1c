/**
 * The older, minimal chat endpoint: messages keyed by a free-form
 * conversation id, listed per conversation or all at once, and created
 * after a field-by-field presence check.
 */
module LegacyChat {
  import opened Wrappers
  import opened Text
  import opened Seqs

  /** A row of the older `chat_messages` table; `createdAt` is in seconds. */
  datatype LegacyMessage = LegacyMessage(
    id: int,
    conversationId: string,
    senderId: string,
    senderName: string,
    senderRole: string,
    message: string,
    createdAt: int,
    read: bool)

  const RequiredFields: seq<string> := ["conversationId", "senderId", "senderName", "senderRole", "message"]

  /** The field is in the request and not blank after trimming. */
  predicate Present(data: map<string, string>, field: string) {
    field in data && PhpTrim(data[field]) != ""
  }

  /** The first field of `fields` that is absent or blank. */
  function FirstMissing(data: map<string, string>, fields: seq<string>): (r: Option<string>)
    ensures r.None? <==> forall k :: 0 <= k < |fields| ==> Present(data, fields[k])
    ensures r.Some? ==>
      exists k :: 0 <= k < |fields| && fields[k] == r.value && !Present(data, fields[k]) &&
        forall j :: 0 <= j < k ==> Present(data, fields[j])
  {
    if fields == [] then None
    else if !Present(data, fields[0]) then Some(fields[0])
    else
      var r := FirstMissing(data, fields[1..]);
      assert forall k :: 1 <= k < |fields| ==> fields[k] == fields[1..][k - 1];
      r
  }

  /** Exactly "admin" is kept; every other role is stored as "customer". */
  function NormaliseRole(role: string): (r: string)
    ensures r == "admin" <==> role == "admin"
    ensures r == "admin" || r == "customer"
  {
    if role == "admin" then "admin" else "customer"
  }

  function RowById(rows: seq<LegacyMessage>, id: int): (r: Option<LegacyMessage>)
    ensures r.Some? ==> r.value in rows && r.value.id == id
    ensures r.None? ==> forall k :: 0 <= k < |rows| ==> rows[k].id != id
  {
    if rows == [] then None
    else if rows[0].id == id then Some(rows[0])
    else
      var r := RowById(rows[1..], id);
      assert forall k :: 1 <= k < |rows| ==> rows[k] == rows[1..][k - 1];
      r
  }

  predicate InThread(conversationId: string, m: LegacyMessage) { m.conversationId == conversationId }

  predicate Ascending(rows: seq<LegacyMessage>) {
    forall i, j :: 0 <= i < j < |rows| ==> rows[i].createdAt <= rows[j].createdAt
  }

  /** The query string of a GET: `conversationId` when set, `all` when set. */
  datatype Query = Query(conversationId: Option<string>, all: bool)

  datatype GetResponse = MissingConversation | Listed(rows: seq<LegacyMessage>)

  datatype PostResponse = MissingField(field: string) | Created(row: LegacyMessage)

  class LegacyChatStore {
    var messages: seq<LegacyMessage>
    var nextId: int
    /** Time of the latest insert, in seconds. */
    var clock: int

    ghost predicate Valid()
      reads this
    {
      nextId >= 1 &&
      (forall i :: 0 <= i < |messages| ==> 1 <= messages[i].id < nextId && messages[i].createdAt <= clock) &&
      Ascending(messages)
    }

    constructor(now: int)
      ensures Valid() && messages == [] && clock == now
    {
      messages := [];
      nextId := 1;
      clock := now;
    }

    /** GET: one conversation, or every message, oldest first; neither parameter is a 400. */
    method Get(q: Query) returns (r: GetResponse)
      requires Valid()
      ensures q.conversationId.None? && !q.all <==> r == MissingConversation
      ensures q.conversationId.Some? ==>
        r.Listed? && r.rows == Filter(messages, m => InThread(q.conversationId.value, m))
      ensures q.conversationId.None? && q.all ==> r == Listed(messages)
      ensures r.Listed? ==> Ascending(r.rows)
    {
      if q.conversationId.Some? {
        var cid := q.conversationId.value;
        var rows := Filter(messages, m => InThread(cid, m));
        FilterOrdered(messages, m => InThread(cid, m), (a: LegacyMessage, b: LegacyMessage) => a.createdAt <= b.createdAt);
        return Listed(rows);
      } else if q.all {
        return Listed(messages);
      }
      return MissingConversation;
    }

    /** Inserts one row with the next id at the current time. */
    method Insert(row: LegacyMessage)
      requires Valid() && row.id == nextId && row.createdAt >= clock
      modifies this
      ensures Valid()
      ensures messages == old(messages) + [row] && nextId == old(nextId) + 1 && clock == row.createdAt
      ensures RowById(messages, row.id) == Some(row)
    {
      RowByIdAppend(messages, row);
      messages := messages + [row];
      nextId := nextId + 1;
      clock := row.createdAt;
    }

    /** POST: every field must be present and non-blank; the stored row is read back by its new id. */
    method Post(data: map<string, string>, now: int) returns (r: PostResponse)
      requires Valid() && now >= clock
      modifies this
      ensures Valid()
      ensures r.MissingField? <==> FirstMissing(data, RequiredFields).Some?
      ensures r.MissingField? ==> r.field == FirstMissing(data, RequiredFields).value && messages == old(messages)
      ensures r.Created? ==>
        "conversationId" in data && "senderId" in data && "senderName" in data &&
        "senderRole" in data && "message" in data &&
        messages == old(messages) + [r.row] &&
        RowById(messages, old(nextId)) == Some(r.row) &&
        r.row.conversationId == data["conversationId"] && r.row.senderId == data["senderId"] &&
        r.row.senderName == data["senderName"] && r.row.message == data["message"] &&
        r.row.senderRole == NormaliseRole(data["senderRole"]) &&
        (r.row.read <==> r.row.senderRole == "admin") &&
        r.row.createdAt == now
    {
      var missing := CheckFields(data, RequiredFields);
      if missing.Some? {
        return MissingField(missing.value);
      }
      assert Present(data, RequiredFields[0]) && Present(data, RequiredFields[1]) && Present(data, RequiredFields[2]) &&
             Present(data, RequiredFields[3]) && Present(data, RequiredFields[4]);
      var senderRole := NormaliseRole(data["senderRole"]);
      var read := senderRole == "admin";
      var id := nextId;
      var row := LegacyMessage(id, data["conversationId"], data["senderId"], data["senderName"],
                               senderRole, data["message"], now, read);
      Insert(row);
      var readBack := RowById(messages, id);
      return Created(readBack.value);
    }
  }

  /** The validation loop: stops at the first absent or blank field. */
  method CheckFields(data: map<string, string>, fields: seq<string>) returns (missing: Option<string>)
    ensures missing == FirstMissing(data, fields)
  {
    var k := 0;
    while k < |fields|
      invariant 0 <= k <= |fields|
      invariant forall j :: 0 <= j < k ==> Present(data, fields[j])
    {
      if !Present(data, fields[k]) {
        FirstMissingIsFirst(data, fields, k);
        return Some(fields[k]);
      }
      k := k + 1;
    }
    return None;
  }

  lemma {:induction false} FirstMissingIsFirst(data: map<string, string>, fields: seq<string>, k: int)
    requires 0 <= k < |fields| && !Present(data, fields[k])
    requires forall j :: 0 <= j < k ==> Present(data, fields[j])
    ensures FirstMissing(data, fields) == Some(fields[k])
  {
    if k > 0 {
      FirstMissingIsFirst(data, fields[1..], k - 1);
    }
  }

  lemma {:induction false} RowByIdAppend(rows: seq<LegacyMessage>, row: LegacyMessage)
    requires forall k :: 0 <= k < |rows| ==> rows[k].id != row.id
    ensures RowById(rows + [row], row.id) == Some(row)
  {
    if rows != [] {
      assert (rows + [row])[1..] == rows[1..] + [row];
      RowByIdAppend(rows[1..], row);
    }
  }
}
