/**
 * String helpers used by the PHP back end and the TypeScript front end:
 * ASCII lower-casing, substring containment, trimming, joining and digit
 * extraction. Characters outside ASCII are never case-folded.
 */
module Text {

  /** Lower-cases one ASCII capital; any other character is left as it is. */
  function LowerChar(c: char): char {
    if 'A' <= c <= 'Z' then (c as int + 32) as char else c
  }

  /** The string with every ASCII capital replaced by its lower-case letter. */
  function Lower(s: string): (r: string)
    ensures |r| == |s|
    ensures forall i :: 0 <= i < |r| ==> !('A' <= r[i] <= 'Z')
  {
    if s == [] then [] else [LowerChar(s[0])] + Lower(s[1..])
  }

  lemma {:induction false} LowerAt(s: string, i: int)
    requires 0 <= i < |s|
    ensures Lower(s)[i] == LowerChar(s[i])
  {
    if i > 0 {
      LowerAt(s[1..], i - 1);
    }
  }

  lemma {:induction false} LowerAppend(s: string, t: string)
    ensures Lower(s + t) == Lower(s) + Lower(t)
  {
    if s == [] {
      assert s + t == t;
    } else {
      assert (s + t)[1..] == s[1..] + t;
      LowerAppend(s[1..], t);
    }
  }

  /** Lower-casing twice is lower-casing once. */
  lemma {:induction false} LowerIdempotent(s: string)
    ensures Lower(Lower(s)) == Lower(s)
  {
    if s != [] {
      LowerIdempotent(s[1..]);
    }
  }

  /** Lower-casing commutes with taking a slice. */
  lemma {:induction false} LowerSlice(s: string, i: int, j: int)
    requires 0 <= i <= j <= |s|
    ensures Lower(s[i..j]) == Lower(s)[i..j]
  {
    var p, m, q := s[..i], s[i..j], s[j..];
    assert s == p + m + q;
    LowerAppend(p + m, q);
    LowerAppend(p, m);
    var lp, lm, lq := Lower(p), Lower(m), Lower(q);
    assert Lower(s) == lp + lm + lq;
    assert |lp| == i && |lm| == j - i;
    assert (lp + lm + lq)[i..j] == lm;
  }

  /** `sub` occurs in `s` starting at index `i`. */
  predicate OccursAt(s: string, sub: string, i: int) {
    0 <= i && i + |sub| <= |s| && s[i..i + |sub|] == sub
  }

  /** `sub` occurs somewhere in `s` (JavaScript `includes`, PHP `strpos !== false`). */
  predicate Contains(s: string, sub: string) {
    exists i :: 0 <= i <= |s| - |sub| && OccursAt(s, sub, i)
  }

  /** Containment is transitive: a substring of a substring is a substring. */
  lemma {:induction false} ContainsTransitive(s: string, t: string, u: string)
    requires Contains(s, t) && Contains(t, u)
    ensures Contains(s, u)
  {
    var i :| 0 <= i <= |s| - |t| && OccursAt(s, t, i);
    var j :| 0 <= j <= |t| - |u| && OccursAt(t, u, j);
    forall k | 0 <= k < |u|
      ensures s[i + j + k] == u[k]
    {
      assert s[i..i + |t|][j + k] == t[j + k];
      assert t[j..j + |u|][k] == u[k];
    }
    assert OccursAt(s, u, i + j);
  }

  /** A lower-case substring of `s` is still a substring after lower-casing `s`. */
  lemma {:induction false} ContainsLower(s: string, sub: string)
    requires Contains(s, sub) && Lower(sub) == sub
    ensures Contains(Lower(s), sub)
  {
    var i :| 0 <= i <= |s| - |sub| && OccursAt(s, sub, i);
    LowerSlice(s, i, i + |sub|);
    assert OccursAt(Lower(s), sub, i);
  }

  /** Every string contains itself and the empty string. */
  lemma {:induction false} ContainsSelf(s: string)
    ensures Contains(s, s) && Contains(s, "")
  {
    assert OccursAt(s, s, 0);
    assert OccursAt(s, "", 0);
  }

  /** A string occurs in any concatenation it is the middle of. */
  lemma {:induction false} ContainsInfix(a: string, b: string, c: string)
    ensures Contains(a + b + c, b)
  {
    assert (a + b + c)[|a|..|a| + |b|] == b;
    assert OccursAt(a + b + c, b, |a|);
  }

  /** Both halves of a concatenation occur in it. */
  lemma {:induction false} ContainsHalves(a: string, b: string)
    ensures Contains(a + b, a) && Contains(a + b, b)
  {
    assert (a + b)[..|a|] == a;
    assert OccursAt(a + b, a, 0);
    assert (a + b)[|a|..] == b;
    assert OccursAt(a + b, b, |a|);
  }

  /** `term` occurs in `text`, ignoring the case of ASCII letters. */
  predicate Mentions(text: string, term: string) {
    Contains(Lower(text), Lower(term))
  }

  /** The empty search term occurs in every text. */
  lemma {:induction false} EmptyTermMentioned(text: string)
    ensures Mentions(text, "")
  {
    assert Lower("") == "";
    ContainsSelf(Lower(text));
  }

  /** PHP's `trim` character set: space, tab, newline, return, NUL and vertical tab. */
  const PhpSpace: set<char> := {' ', '\t', '\n', '\r', '\0', 11 as char}

  /**
   * JavaScript's `trim` character set: the white space (tab, vertical tab,
   * form feed, space, no-break space, byte order mark and the other space
   * separators) and the line terminators (newline, return, line and
   * paragraph separators).
   */
  const JsSpace: set<char> := {
    '\t', 11 as char, 12 as char, ' ', 0xA0 as char, 0xFEFF as char,
    0x1680 as char, 0x2000 as char, 0x2001 as char, 0x2002 as char, 0x2003 as char, 0x2004 as char,
    0x2005 as char, 0x2006 as char, 0x2007 as char, 0x2008 as char, 0x2009 as char, 0x200A as char,
    0x202F as char, 0x205F as char, 0x3000 as char,
    '\n', '\r', 0x2028 as char, 0x2029 as char
  }

  function TrimStart(s: string, ws: set<char>): (r: string)
    ensures |r| <= |s|
  {
    if s != [] && s[0] in ws then TrimStart(s[1..], ws) else s
  }

  /** Trimming the start removes a prefix made of `ws` and stops at a character outside it. */
  lemma {:induction false} TrimStartShape(s: string, ws: set<char>)
    ensures var r := TrimStart(s, ws);
      r == s[|s| - |r|..] && (r == [] || r[0] !in ws) && forall k :: 0 <= k < |s| - |r| ==> s[k] in ws
  {
    if s != [] && s[0] in ws {
      TrimStartShape(s[1..], ws);
      var r := TrimStart(s, ws);
      assert r == s[1..][|s| - 1 - |r|..];
      forall k | 0 <= k < |s| - |r|
        ensures s[k] in ws
      {
        if k > 0 {
          assert s[k] == s[1..][k - 1];
        }
      }
    }
  }

  function TrimEnd(s: string, ws: set<char>): (r: string)
    ensures |r| <= |s|
  {
    if s != [] && s[|s| - 1] in ws then TrimEnd(s[..|s| - 1], ws) else s
  }

  /** Trimming the end removes a suffix made of `ws` and stops at a character outside it. */
  lemma {:induction false} TrimEndShape(s: string, ws: set<char>)
    ensures var r := TrimEnd(s, ws);
      r == s[..|r|] && (r == [] || r[|r| - 1] !in ws) && forall k :: |r| <= k < |s| ==> s[k] in ws
  {
    if s != [] && s[|s| - 1] in ws {
      var init := s[..|s| - 1];
      TrimEndShape(init, ws);
      var r := TrimEnd(s, ws);
      assert r == init[..|r|];
      forall k | |r| <= k < |s|
        ensures s[k] in ws
      {
        if k < |s| - 1 {
          assert s[k] == init[k];
        }
      }
    }
  }

  /** Removes characters of `ws` from both ends. */
  function TrimWith(s: string, ws: set<char>): (r: string)
  {
    TrimEnd(TrimStart(s, ws), ws)
  }

  /** The trimmed string is empty exactly when every character is white space. */
  lemma {:induction false} TrimEmptyIff(s: string, ws: set<char>)
    ensures TrimWith(s, ws) == [] <==> forall k :: 0 <= k < |s| ==> s[k] in ws
  {
    var a := TrimStart(s, ws);
    TrimStartShape(s, ws);
    TrimEndShape(a, ws);
    if a != [] {
      assert a[0] == s[|s| - |a|];
    }
  }

  /** A trimmed string neither starts nor ends with a character of `ws`. */
  lemma {:induction false} TrimEnds(s: string, ws: set<char>)
    ensures var r := TrimWith(s, ws); r == [] || (r[0] !in ws && r[|r| - 1] !in ws)
  {
    var a := TrimStart(s, ws);
    var r := TrimEnd(a, ws);
    TrimStartShape(s, ws);
    TrimEndShape(a, ws);
    if r != [] {
      assert r[0] == a[0];
    }
  }

  /** The trimmed string is a slice of the input with no white space at either end. */
  lemma {:induction false} TrimShape(s: string, ws: set<char>)
    ensures var r := TrimWith(s, ws);
      (r == [] || (r[0] !in ws && r[|r| - 1] !in ws)) &&
      exists i :: 0 <= i <= |s| - |r| && OccursAt(s, r, i)
  {
    var a := TrimStart(s, ws);
    var r := TrimEnd(a, ws);
    TrimStartShape(s, ws);
    TrimEndShape(a, ws);
    var i := |s| - |a|;
    assert s[i..i + |r|] == a[..|r|];
    assert OccursAt(s, r, i);
    if r != [] {
      assert r[0] == a[0];
    }
  }

  function PhpTrim(s: string): string { TrimWith(s, PhpSpace) }

  function JsTrim(s: string): string { TrimWith(s, JsSpace) }

  /** PHP's `empty`/falsy test on a string: the empty string and "0". */
  predicate PhpFalsy(s: string) { s == "" || s == "0" }

  /** Joins `parts` with `sep` between consecutive parts (JavaScript `join`). */
  function Join(parts: seq<string>, sep: string): (r: string)
    ensures parts == [] ==> r == ""
    ensures |parts| == 1 ==> r == parts[0]
  {
    if parts == [] then ""
    else if |parts| == 1 then parts[0]
    else parts[0] + sep + Join(parts[1..], sep)
  }

  /** Each joined part occurs in the joined string. */
  lemma {:induction false} JoinContainsParts(parts: seq<string>, sep: string, k: nat)
    requires k < |parts|
    ensures Contains(Join(parts, sep), parts[k])
  {
    if |parts| == 1 {
      ContainsSelf(parts[0]);
    } else if k == 0 {
      var j := Join(parts, sep);
      assert j[..|parts[0]|] == parts[0];
      assert OccursAt(j, parts[0], 0);
    } else {
      JoinContainsParts(parts[1..], sep, k - 1);
      var rest := Join(parts[1..], sep);
      var i :| 0 <= i <= |rest| - |parts[k]| && OccursAt(rest, parts[k], i);
      var offset := |parts[0] + sep|;
      assert Join(parts, sep) == parts[0] + sep + rest;
      assert Join(parts, sep)[offset + i..offset + i + |parts[k]|] == rest[i..i + |parts[k]|];
      assert OccursAt(Join(parts, sep), parts[k], offset + i);
    }
  }

  predicate IsDigit(c: char) { '0' <= c <= '9' }

  /** The ASCII digits of `s`, in order (JavaScript `s.replace(/\D/g, '')`). */
  function Digits(s: string): (r: string)
    ensures |r| <= |s|
    ensures forall k :: 0 <= k < |r| ==> IsDigit(r[k])
  {
    if s == [] then []
    else (if IsDigit(s[0]) then [s[0]] else []) + Digits(s[1..])
  }

  lemma {:induction false} DigitsOfDigits(s: string)
    requires forall k :: 0 <= k < |s| ==> IsDigit(s[k])
    ensures Digits(s) == s
  {
    if s != [] {
      DigitsOfDigits(s[1..]);
    }
  }

  /** Decimal notation of a natural number (JavaScript `String(n)`, PHP `(string)$n`). */
  function NatToString(n: nat): (r: string)
    ensures |r| >= 1
    ensures forall k :: 0 <= k < |r| ==> IsDigit(r[k])
    decreases n
  {
    if n < 10 then [('0' as int + n) as char]
    else NatToString(n / 10) + [('0' as int + n % 10) as char]
  }

  /** Decimal notation of an integer, with a leading '-' when negative. */
  function IntToString(n: int): string {
    if n < 0 then "-" + NatToString(-n) else NatToString(n)
  }

  /** Numeric value of a string of ASCII digits. */
  function DigitsValue(s: string): nat
    requires forall k :: 0 <= k < |s| ==> IsDigit(s[k])
  {
    if s == [] then 0
    else
      assert IsDigit(s[|s| - 1]);
      DigitsValue(s[..|s| - 1]) * 10 + (s[|s| - 1] as int - '0' as int)
  }

  /** Reading back the decimal notation of `n` gives `n`. */
  lemma {:induction false} NatToStringRoundTrip(n: nat)
    ensures DigitsValue(NatToString(n)) == n
    decreases n
  {
    if n >= 10 {
      NatToStringRoundTrip(n / 10);
      var s := NatToString(n);
      assert s[..|s| - 1] == NatToString(n / 10);
    }
  }

  /** Distinct naturals have distinct decimal notations. */
  lemma {:induction false} NatToStringInjective(m: nat, n: nat)
    requires NatToString(m) == NatToString(n)
    ensures m == n
  {
    NatToStringRoundTrip(m);
    NatToStringRoundTrip(n);
  }

  /** Number of UTF-16 code units of `s` (JavaScript `.length`): two for a character beyond U+FFFF. */
  function Utf16Length(s: string): (r: nat)
    ensures |s| <= r <= 2 * |s|
    ensures r == 0 <==> s == []
  {
    if s == [] then 0
    else (if s[0] as int < 0x10000 then 1 else 2) + Utf16Length(s[1..])
  }

  /** Number of bytes of the UTF-8 encoding of `s` (PHP `strlen`). */
  function Utf8Length(s: string): (r: nat)
    ensures |s| <= r <= 4 * |s|
  {
    if s == [] then 0
    else
      var c := s[0] as int;
      (if c < 0x80 then 1 else if c < 0x800 then 2 else if c < 0x10000 then 3 else 4)
      + Utf8Length(s[1..])
  }
}
