/**
 * The `.env` loader: each `KEY=VALUE` line sets a variable unless the
 * environment already holds a non-empty value for it.
 */
module EnvConfig {
  import opened Wrappers
  import opened Text
  import opened ChatRouting

  /** Index of the first `c` in `s`. */
  function FirstIndexOf(s: string, c: char): (r: Option<nat>)
    ensures r.None? <==> c !in s
    ensures r.Some? ==> r.value < |s| && s[r.value] == c && c !in s[..r.value]
  {
    if s == [] then None
    else if s[0] == c then Some(0)
    else
      var r := FirstIndexOf(s[1..], c);
      if r.None? then None
      else
        assert s[..r.value + 1] == [s[0]] + s[1..][..r.value];
        Some(r.value + 1)
  }

  predicate IsComment(line: string) {
    var t := PhpTrim(line);
    |t| > 0 && t[0] == '#'
  }

  /** A value wrapped in matching double or single quotes loses them. */
  function Unquote(value: string): (r: string)
    ensures |value| >= 2 && value[0] == value[|value| - 1] && (value[0] == '"' || value[0] == '\'') ==>
      r == value[1..|value| - 1]
    ensures !(|value| >= 2 && value[0] == value[|value| - 1] && (value[0] == '"' || value[0] == '\'')) ==>
      r == value
  {
    if |value| >= 2 && value[0] == '"' && value[|value| - 1] == '"' then value[1..|value| - 1]
    else if |value| >= 2 && value[0] == '\'' && value[|value| - 1] == '\'' then value[1..|value| - 1]
    else value
  }

  /**
   * The assignment a line makes: none for a comment or a line without `=`;
   * otherwise the trimmed text before the first `=` and the trimmed,
   * unquoted text after it.
   */
  function ParseLine(line: string): (r: Option<(string, string)>)
    ensures IsComment(line) || '=' !in line ==> r.None?
    ensures r.Some? ==>
      var i := FirstIndexOf(line, '=').value;
      r.value == (PhpTrim(line[..i]), Unquote(PhpTrim(line[i + 1..])))
  {
    if IsComment(line) then None
    else match FirstIndexOf(line, '=')
      case None => None
      case Some(i) => Some((PhpTrim(line[..i]), Unquote(PhpTrim(line[i + 1..]))))
  }

  /** `getenv` is falsy: unset, empty or "0". */
  predicate Unset(env: map<string, string>, key: string) { key !in env || PhpFalsy(env[key]) }

  /**
   * The environment after one line, or None when the line is fatal: a line
   * whose key is empty passes the `getenv` test and `putenv` then rejects
   * the assignment with a ValueError, which nothing catches.
   */
  function ApplyLine(env: map<string, string>, line: string): Option<map<string, string>> {
    match ParseLine(line)
    case None => Some(env)
    case Some(kv) =>
      if !Unset(env, kv.0) then Some(env)
      else if kv.0 == "" then None
      else Some(env[kv.0 := kv.1])
  }

  /** The environment after the lines in order, or None once a line is fatal. */
  function ApplyLines(env: map<string, string>, lines: seq<string>): Option<map<string, string>> {
    if lines == [] then Some(env)
    else match ApplyLines(env, lines[..|lines| - 1])
      case None => None
      case Some(prev) => ApplyLine(prev, lines[|lines| - 1])
  }

  /** A variable that already holds a non-empty value keeps it, whatever the file says. */
  lemma {:induction false} NeverOverwrites(env: map<string, string>, lines: seq<string>, key: string)
    requires key in env && !PhpFalsy(env[key])
    ensures ApplyLines(env, lines).Some? ==>
      key in ApplyLines(env, lines).value && ApplyLines(env, lines).value[key] == env[key]
  {
    if lines != [] {
      NeverOverwrites(env, lines[..|lines| - 1], key);
    }
  }

  /** Every variable the file sets comes from one of its lines. */
  lemma {:induction false} SetFromSomeLine(env: map<string, string>, lines: seq<string>, key: string)
    requires ApplyLines(env, lines).Some?
    requires key in ApplyLines(env, lines).value && (key !in env || ApplyLines(env, lines).value[key] != env[key])
    ensures exists k :: (0 <= k < |lines| && ParseLine(lines[k]).Some? &&
                         ParseLine(lines[k]).value == (key, ApplyLines(env, lines).value[key]))
  {
    var prev := ApplyLines(env, lines[..|lines| - 1]).value;
    var last := lines[|lines| - 1];
    var now := ApplyLines(env, lines).value;
    if key in prev && now[key] == prev[key] {
      SetFromSomeLine(env, lines[..|lines| - 1], key);
      var k :| 0 <= k < |lines| - 1 && ParseLine(lines[..|lines| - 1][k]).Some? &&
        ParseLine(lines[..|lines| - 1][k]).value == (key, prev[key]);
      assert lines[..|lines| - 1][k] == lines[k];
    } else {
      assert ParseLine(last).Some? && ParseLine(last).value == (key, now[key]);
    }
  }

  /** A file in which every assignment names a key always loads. */
  lemma {:induction false} NamedKeysNeverFail(env: map<string, string>, lines: seq<string>)
    requires forall k :: 0 <= k < |lines| && ParseLine(lines[k]).Some? ==> ParseLine(lines[k]).value.0 != ""
    ensures ApplyLines(env, lines).Some?
  {
    if lines != [] {
      var init := lines[..|lines| - 1];
      forall k | 0 <= k < |init| && ParseLine(init[k]).Some?
        ensures ParseLine(init[k]).value.0 != ""
      {
        assert init[k] == lines[k];
      }
      NamedKeysNeverFail(env, init);
    }
  }

  /** The loader never creates a variable with an empty name. */
  lemma {:induction false} NeverSetsEmptyKey(env: map<string, string>, lines: seq<string>)
    requires "" !in env
    ensures ApplyLines(env, lines).Some? ==> "" !in ApplyLines(env, lines).value
  {
    if lines != [] {
      NeverSetsEmptyKey(env, lines[..|lines| - 1]);
    }
  }

  /** Once a prefix of the file is fatal, so is the whole file. */
  lemma {:induction false} FatalPersists(env: map<string, string>, lines: seq<string>, k: nat)
    requires k <= |lines| && ApplyLines(env, lines[..k]).None?
    ensures ApplyLines(env, lines).None?
  {
    if k < |lines| {
      var init := lines[..|lines| - 1];
      assert init[..k] == lines[..k];
      FatalPersists(env, init, k);
    } else {
      assert lines[..k] == lines;
    }
  }

  /** In an environment without an empty-named variable, a line with an empty key is fatal. */
  lemma {:induction false} EmptyKeyIsFatal(env: map<string, string>, lines: seq<string>, k: nat)
    requires "" !in env && k < |lines|
    requires ParseLine(lines[k]).Some? && ParseLine(lines[k]).value.0 == ""
    ensures ApplyLines(env, lines).None?
  {
    var upto := lines[..k + 1];
    assert upto[..k] == lines[..k];
    assert upto[k] == lines[k];
    NeverSetsEmptyKey(env, lines[..k]);
    assert ApplyLines(env, upto).None?;
    FatalPersists(env, lines, k + 1);
  }

  /** A plain `KEY=VALUE` line reads back as the pair it was written from. */
  lemma {:induction false} ParseLineRoundTrip(key: string, value: string)
    requires key != [] && key[0] != '#' && '=' !in key && PhpTrim(key) == key
    requires PhpTrim(value) == value && Unquote(value) == value
    ensures ParseLine(key + "=" + value) == Some((key, value))
  {
    var line := key + "=" + value;
    assert line[..|key|] == key;
    assert line[|key| + 1..] == value;
    assert FirstIndexOf(line, '=') == Some(|key|) by {
      FirstIndexAfterPrefix(key, "=" + value, '=');
      assert line == key + ("=" + value);
    }
    TrimShape(line, PhpSpace);
    TrimShape(key, PhpSpace);
    assert key[0] !in PhpSpace by {
      assert PhpTrim(key)[0] == key[0];
    }
    assert PhpTrim(line)[0] == '#' ==> false by {
      TrimStartKeepsFirst(line, key[0], PhpSpace);
    }
  }

  lemma {:induction false} FirstIndexAfterPrefix(p: string, s: string, c: char)
    requires c !in p && s != [] && s[0] == c
    ensures FirstIndexOf(p + s, c) == Some(|p|)
  {
    if p != [] {
      assert (p + s)[1..] == p[1..] + s;
      FirstIndexAfterPrefix(p[1..], s, c);
    } else {
      assert p + s == s;
    }
  }

  /** Trimming a string whose first character is not a space keeps that character first. */
  lemma {:induction false} TrimStartKeepsFirst(s: string, c: char, ws: set<char>)
    requires s != [] && s[0] == c && c !in ws
    ensures TrimWith(s, ws) != [] && TrimWith(s, ws)[0] == c
  {
    assert TrimStart(s, ws) == s;
    TrimEndShape(s, ws);
    TrimEmptyIff(s, ws);
  }

  /** The environment the application runs with. */
  class Environment {
    var vars: map<string, string>

    constructor(initial: map<string, string>)
      ensures vars == initial
    {
      vars := initial;
    }

    /**
     * One line of the file: parse it and set the variable when it is unset;
     * false when `putenv` rejects the line, which leaves the variables as
     * they were.
     */
    method ApplyOneLine(line: string) returns (ok: bool)
      modifies this
      ensures ok <==> ApplyLine(old(vars), line).Some?
      ensures ok ==> vars == ApplyLine(old(vars), line).value
      ensures !ok ==> vars == old(vars)
    {
      var parsed := ParseLine(line);
      if parsed.Some? && Unset(vars, parsed.value.0) {
        if parsed.value.0 == "" {
          return false;
        }
        vars := vars[parsed.value.0 := parsed.value.1];
      }
      return true;
    }

    /**
     * `loadEnv`: a missing file changes nothing; otherwise each line is
     * applied in turn. False when a line is fatal: the lines before it have
     * taken effect and the request ends there.
     */
    method LoadEnv(file: Option<seq<string>>) returns (ok: bool)
      modifies this
      ensures file.None? ==> ok && vars == old(vars)
      ensures file.Some? ==> (ok <==> ApplyLines(old(vars), file.value).Some?)
      ensures file.Some? && ok ==> vars == ApplyLines(old(vars), file.value).value
      ensures file.Some? && !ok ==> exists k :: (0 <= k < |file.value| &&
        ApplyLines(old(vars), file.value[..k]) == Some(vars) && ApplyLine(vars, file.value[k]).None?)
    {
      if file.None? {
        return true;
      }
      var lines := file.value;
      var k := 0;
      while k < |lines|
        invariant 0 <= k <= |lines|
        invariant ApplyLines(old(vars), lines[..k]) == Some(vars)
      {
        assert lines[..k + 1][..k] == lines[..k];
        ok := ApplyOneLine(lines[k]);
        if !ok {
          assert ApplyLines(old(vars), lines[..k + 1]).None?;
          FatalPersists(old(vars), lines, k + 1);
          return false;
        }
        k := k + 1;
      }
      assert lines[..k] == lines;
      return true;
    }

    /** `GEMINI_API_KEY`: the variable's value, or "" when it is unset or falsy. */
    function GeminiKey(): (key: string)
      reads this
      ensures key != "" <==> !Unset(vars, "GEMINI_API_KEY")
      ensures key != "" ==> key == vars["GEMINI_API_KEY"]
    {
      if Unset(vars, "GEMINI_API_KEY") then "" else vars["GEMINI_API_KEY"]
    }
  }

  /** Without a configured key the assistant never answers. */
  lemma {:induction false} NoKeyNoAssistant(env: Environment, message: string, senderRole: string, history: HistoryRead)
    requires Unset(env.vars, "GEMINI_API_KEY")
    ensures !RouteDecision(message, senderRole, env.GeminiKey(), history)
  {
  }
}
