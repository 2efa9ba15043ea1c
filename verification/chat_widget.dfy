/**
 * The customer's chat widget: the fetched history without repeated ids,
 * the optimistic message shown while a send is in flight, its
 * replacement by the stored message or its removal on failure, the
 * assistant's reply, and when the widget is shown at all.
 */
module ChatWidget {
  import opened Wrappers
  import opened Text
  import opened Seqs
  import opened Domain

  /** No two messages of the list share an id. */
  predicate DistinctIds(s: seq<Message>) {
    forall a, b :: 0 <= a < b < |s| ==> s[a].id != s[b].id
  }

  predicate HasMessage(s: seq<Message>, id: string) {
    exists k :: 0 <= k < |s| && s[k].id == id
  }

  function IdIs(id: string): Message -> bool {
    (m: Message) => m.id == id
  }

  function IdIsNot(id: string): Message -> bool {
    (m: Message) => m.id != id
  }

  // ---------------------------------------------------------------------
  // De-duplication of fetched messages
  // ---------------------------------------------------------------------

  /** Index `i` is where the id of `s[i]` first occurs (`index === self.findIndex(…)`). */
  predicate IsFirst(s: seq<Message>, i: nat)
    requires i < |s|
  {
    FirstMatch(s, IdIs(s[i].id)) == Some(i)
  }

  lemma {:induction false} IsFirstIff(s: seq<Message>, i: nat)
    requires i < |s|
    ensures IsFirst(s, i) <==> forall j :: 0 <= j < i ==> s[j].id != s[i].id
  {
    if forall j :: 0 <= j < i ==> s[j].id != s[i].id {
      FirstMatchAt(s, IdIs(s[i].id), i);
    }
  }

  /** The messages from index `i` on that are first occurrences of their id, in order. */
  function FirstsFrom(s: seq<Message>, i: nat): (r: seq<Message>)
    requires i <= |s|
    ensures forall x :: x in r ==> exists j :: i <= j < |s| && x == s[j] && IsFirst(s, j)
    decreases |s| - i
  {
    if i == |s| then []
    else (if IsFirst(s, i) then [s[i]] else []) + FirstsFrom(s, i + 1)
  }

  /** The fetched list filtered to the first message of each id. */
  function Dedupe(s: seq<Message>): seq<Message> {
    FirstsFrom(s, 0)
  }

  lemma {:induction false} FirstsFromDistinct(s: seq<Message>, i: nat)
    requires i <= |s|
    ensures DistinctIds(FirstsFrom(s, i))
    decreases |s| - i
  {
    if i < |s| {
      FirstsFromDistinct(s, i + 1);
      var rest := FirstsFrom(s, i + 1);
      if IsFirst(s, i) {
        forall k | 0 <= k < |rest|
          ensures rest[k].id != s[i].id
        {
          assert rest[k] in rest;
          var j :| i + 1 <= j < |s| && rest[k] == s[j] && IsFirst(s, j);
          IsFirstIff(s, j);
        }
        var r := [s[i]] + rest;
        forall a, b | 0 <= a < b < |r|
          ensures r[a].id != r[b].id
        {
          if a > 0 {
            assert r[a] == rest[a - 1] && r[b] == rest[b - 1];
          }
        }
      }
    }
  }

  /** A message that repeats an earlier id is not the first of what follows it. */
  lemma {:induction false} RepeatNotKept(s: seq<Message>, i: nat)
    requires i < |s| && !IsFirst(s, i)
    ensures s[i] !in FirstsFrom(s, i + 1)
  {
    if s[i] in FirstsFrom(s, i + 1) {
      var j :| i + 1 <= j < |s| && s[i] == s[j] && IsFirst(s, j);
      IsFirstIff(s, j);
      assert false;
    }
  }

  lemma {:induction false} FirstsFromSubsequence(s: seq<Message>, i: nat)
    requires i <= |s|
    ensures IsSubsequence(FirstsFrom(s, i), s[i..])
    decreases |s| - i
  {
    if i < |s| {
      FirstsFromSubsequence(s, i + 1);
      var rest := FirstsFrom(s, i + 1);
      assert s[i..][1..] == s[i + 1..];
      if IsFirst(s, i) {
        assert FirstsFrom(s, i)[1..] == rest;
      } else {
        assert FirstsFrom(s, i) == rest;
        if rest != [] {
          RepeatNotKept(s, i);
          assert rest[0] in rest;
          assert rest[0] != s[i..][0];
        }
      }
    }
  }

  lemma {:induction false} FirstsFromHas(s: seq<Message>, i: nat, f: nat)
    requires i <= f < |s| && IsFirst(s, f)
    ensures s[f] in FirstsFrom(s, i)
    decreases f - i
  {
    var head := if IsFirst(s, i) then [s[i]] else [];
    var rest := FirstsFrom(s, i + 1);
    assert FirstsFrom(s, i) == head + rest;
    if i < f {
      FirstsFromHas(s, i + 1, f);
      assert s[f] in rest;
    } else {
      assert s[f] in head;
    }
  }

  lemma {:induction false} FirstsFromOfDistinct(s: seq<Message>, i: nat)
    requires i <= |s| && DistinctIds(s)
    ensures FirstsFrom(s, i) == s[i..]
    decreases |s| - i
  {
    if i < |s| {
      FirstsFromOfDistinct(s, i + 1);
      IsFirstIff(s, i);
      assert s[i..] == [s[i]] + s[i + 1..];
    }
  }

  /**
   * The de-duplicated list repeats no id, keeps the order of the fetched
   * list, still holds some message of every fetched id, and is the
   * fetched list itself when that repeated no id.
   */
  lemma {:induction false} DedupeMeets(s: seq<Message>)
    ensures DistinctIds(Dedupe(s))
    ensures IsSubsequence(Dedupe(s), s)
    ensures forall j :: 0 <= j < |s| ==> HasMessage(Dedupe(s), s[j].id)
    ensures DistinctIds(s) ==> Dedupe(s) == s
  {
    FirstsFromDistinct(s, 0);
    FirstsFromSubsequence(s, 0);
    assert s[0..] == s;
    forall j | 0 <= j < |s|
      ensures HasMessage(Dedupe(s), s[j].id)
    {
      var f := FirstMatch(s, IdIs(s[j].id));
      assert f.Some?;
      assert IsFirst(s, f.value) by {
        IsFirstIff(s, f.value);
      }
      FirstsFromHas(s, 0, f.value);
      var k :| 0 <= k < |Dedupe(s)| && Dedupe(s)[k] == s[f.value];
    }
    if DistinctIds(s) {
      FirstsFromOfDistinct(s, 0);
    }
  }

  /** A fetch replaces the list with the de-duplicated reply; a failed or malformed reply keeps it. */
  function Fetched(messages: seq<Message>, reply: Option<seq<Message>>): (r: seq<Message>)
    ensures reply.None? ==> r == messages
    ensures reply.Some? ==> DistinctIds(r) && IsSubsequence(r, reply.value)
  {
    if reply.Some? then DedupeMeets(reply.value); Dedupe(reply.value) else messages
  }

  // ---------------------------------------------------------------------
  // Sending
  // ---------------------------------------------------------------------

  /** The list shown and the text in the input box. */
  datatype Widget = Widget(messages: seq<Message>, input: string)

  const TempPrefix := "temp-"

  /** The message shown at once, before the server answers; `stamp` is `Date.now()`. */
  function Optimistic(user: User, text: string, stamp: nat): (m: Message)
    ensures |m.id| > |TempPrefix| && m.id[..|TempPrefix|] == TempPrefix
    ensures m.conversationId == user.id && m.senderId == user.id && m.senderName == user.name
    ensures m.senderRole == user.role && m.message == text && !m.read
  {
    Message(TempPrefix + NatToString(stamp), user.id, user.id, user.name, user.role, text, stamp, false)
  }

  /**
   * `handleSend` up to the request: ignored for blank input or without a
   * user; otherwise the input is cleared and the trimmed text appended
   * as an optimistic message.
   */
  function Send(w: Widget, user: Option<User>, stamp: nat): (r: Widget)
    ensures JsTrim(w.input) == "" || user.None? ==> r == w
    ensures JsTrim(w.input) != "" && user.Some? ==>
      r.input == "" && r.messages == w.messages + [Optimistic(user.value, JsTrim(w.input), stamp)]
  {
    if JsTrim(w.input) == "" || user.None? then w
    else Widget(w.messages + [Optimistic(user.value, JsTrim(w.input), stamp)], "")
  }

  /** Success: the optimistic message goes and the stored one is appended unless a fetch already brought it. */
  function Delivered(messages: seq<Message>, tempId: string, stored: Message): (r: seq<Message>)
    ensures HasMessage(r, stored.id)
    ensures stored.id != tempId ==> !HasMessage(r, tempId)
    ensures forall m :: m in r <==>
      (m in messages && m.id != tempId) || (m == stored && (stored.id == tempId || !HasMessage(messages, stored.id)))
  {
    var kept := Filter(messages, IdIsNot(tempId));
    assert stored.id != tempId ==> (HasMessage(kept, stored.id) <==> HasMessage(messages, stored.id)) by {
      if stored.id != tempId && HasMessage(messages, stored.id) {
        var k :| 0 <= k < |messages| && messages[k].id == stored.id;
        assert messages[k] in kept;
      }
    }
    if HasMessage(kept, stored.id) then kept
    else
      assert (kept + [stored])[|kept|] == stored;
      kept + [stored]
  }

  /** The assistant's reply is appended unless the list already has its id. */
  function AiReplied(messages: seq<Message>, reply: Message): (r: seq<Message>)
    ensures HasMessage(r, reply.id)
    ensures HasMessage(messages, reply.id) ==> r == messages
    ensures !HasMessage(messages, reply.id) ==> r == messages + [reply]
  {
    if HasMessage(messages, reply.id) then messages
    else
      assert (messages + [reply])[|messages|].id == reply.id;
      messages + [reply]
  }

  /** Failure: the optimistic message goes and the text returns to the input box. */
  function Failed(w: Widget, tempId: string, text: string): (r: Widget)
    ensures r.input == text && !HasMessage(r.messages, tempId)
    ensures IsSubsequence(r.messages, w.messages)
  {
    FilterIsSubsequence(w.messages, IdIsNot(tempId));
    Widget(Filter(w.messages, IdIsNot(tempId)), text)
  }

  lemma {:induction false} DistinctSubsequence(r: seq<Message>, s: seq<Message>)
    requires IsSubsequence(r, s) && DistinctIds(s)
    ensures DistinctIds(r)
    decreases |s|
  {
    if r != [] && s != [] {
      if r[0] == s[0] {
        DistinctSubsequence(r[1..], s[1..]);
        SubsequenceMembers(r[1..], s[1..]);
        forall b | 0 < b < |r|
          ensures r[0].id != r[b].id
        {
          assert r[b] == r[1..][b - 1];
          assert r[b] in s[1..];
          var j :| 0 <= j < |s[1..]| && s[1..][j] == r[b];
          assert s[0].id != s[j + 1].id;
        }
      } else {
        assert DistinctIds(s[1..]) by {
          forall a, b | 0 <= a < b < |s[1..]| ensures s[1..][a].id != s[1..][b].id {
            assert s[a + 1].id != s[b + 1].id;
          }
        }
        DistinctSubsequence(r, s[1..]);
      }
    }
  }

  lemma {:induction false} SubsequenceMembers(r: seq<Message>, s: seq<Message>)
    requires IsSubsequence(r, s)
    ensures forall x :: x in r ==> x in s
    decreases |s|
  {
    if r != [] && s != [] {
      if r[0] == s[0] {
        SubsequenceMembers(r[1..], s[1..]);
        assert r == [r[0]] + r[1..];
      } else {
        SubsequenceMembers(r, s[1..]);
      }
    }
  }

  /** Every step keeps the shown list free of repeated ids, provided the optimistic id is new. */
  lemma {:induction false} StepsKeepIdsDistinct(w: Widget, user: Option<User>, stamp: nat, stored: Message, reply: Message, text: string)
    requires DistinctIds(w.messages)
    requires user.Some? ==> !HasMessage(w.messages, Optimistic(user.value, JsTrim(w.input), stamp).id)
    ensures DistinctIds(Send(w, user, stamp).messages)
    ensures forall tempId :: DistinctIds(Delivered(w.messages, tempId, stored))
    ensures DistinctIds(AiReplied(w.messages, reply))
    ensures forall tempId :: DistinctIds(Failed(w, tempId, text).messages)
  {
    forall tempId
      ensures DistinctIds(Delivered(w.messages, tempId, stored))
      ensures DistinctIds(Failed(w, tempId, text).messages)
    {
      var kept := Filter(w.messages, IdIsNot(tempId));
      FilterIsSubsequence(w.messages, IdIsNot(tempId));
      DistinctSubsequence(kept, w.messages);
      if !HasMessage(kept, stored.id) {
        AppendFresh(kept, stored);
      }
    }
    if !HasMessage(w.messages, reply.id) {
      AppendFresh(w.messages, reply);
    }
    if JsTrim(w.input) != "" && user.Some? {
      AppendFresh(w.messages, Optimistic(user.value, JsTrim(w.input), stamp));
    }
  }

  lemma {:induction false} AppendFresh(s: seq<Message>, m: Message)
    requires DistinctIds(s) && !HasMessage(s, m.id)
    ensures DistinctIds(s + [m])
  {
    var r := s + [m];
    forall a, b | 0 <= a < b < |r|
      ensures r[a].id != r[b].id
    {
      if b == |s| {
        assert r[a] == s[a];
      }
    }
  }

  /** A send that fails leaves the list as it was and the trimmed text back in the input box. */
  lemma {:induction false} SendThenFailRestores(w: Widget, user: User, stamp: nat)
    requires JsTrim(w.input) != ""
    requires !HasMessage(w.messages, Optimistic(user, JsTrim(w.input), stamp).id)
    ensures var tempId := Optimistic(user, JsTrim(w.input), stamp).id;
      Failed(Send(w, Some(user), stamp), tempId, JsTrim(w.input)) == Widget(w.messages, JsTrim(w.input))
  {
    var m := Optimistic(user, JsTrim(w.input), stamp);
    FilterAppend(w.messages, [m], IdIsNot(m.id));
    FilterAll(w.messages, IdIsNot(m.id));
    assert Filter([m], IdIsNot(m.id)) == [];
  }

  /** A successful send shows the stored message in place of the optimistic one. */
  lemma {:induction false} SendThenDeliverReplaces(w: Widget, user: User, stamp: nat, stored: Message)
    requires JsTrim(w.input) != ""
    requires !HasMessage(w.messages, Optimistic(user, JsTrim(w.input), stamp).id)
    requires !HasMessage(w.messages, stored.id)
    ensures var tempId := Optimistic(user, JsTrim(w.input), stamp).id;
      Delivered(Send(w, Some(user), stamp).messages, tempId, stored) == w.messages + [stored]
  {
    var m := Optimistic(user, JsTrim(w.input), stamp);
    FilterAppend(w.messages, [m], IdIsNot(m.id));
    FilterAll(w.messages, IdIsNot(m.id));
    assert Filter([m], IdIsNot(m.id)) == [];
  }

  /** The widget is hidden from visitors who are not signed in and from admins. */
  predicate Visible(auth: AuthState) {
    auth.isAuthenticated && !(auth.user.Some? && auth.user.value.role == Admin)
  }

  /** Whenever the widget is shown to a signed-in user, what it sends is sent as a customer. */
  lemma {:induction false} ShownWidgetSendsAsCustomer(auth: AuthState, w: Widget, stamp: nat)
    requires Visible(auth) && auth.user.Some? && JsTrim(w.input) != ""
    ensures Send(w, auth.user, stamp).messages[|w.messages|].senderRole == Customer
  {
  }
}
