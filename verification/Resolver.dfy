/** Single-pass substitution of ${NAME} references, against a grammar of tokens. */
module Resolver {
  import opened Wrappers

  /** Where variable values come from; None is an undefined variable. */
  type Source = string -> Option<string>

  datatype ResolveError = Undefined(name: string) | Invalid(raw: string)

  predicate NameStart(c: char) { 'A' <= c <= 'Z' || 'a' <= c <= 'z' || c == '_' }

  predicate NamePart(c: char) { NameStart(c) || '0' <= c <= '9' }

  predicate IsName(s: string) { s != "" && NameStart(s[0]) && forall i :: 0 <= i < |s| ==> NamePart(s[i]) }

  method IsValidVarName(name: string) returns (ok: bool)
    ensures ok <==> IsName(name)
  {
    if name == "" { return false; }
    for i := 0 to |name|
      invariant forall j :: 0 <= j < i ==> NamePart(name[j])
      invariant i > 0 ==> NameStart(name[0])
    {
      var c := name[i];
      if i == 0 {
        if !NameStart(c) { return false; }
      } else {
        if !NamePart(c) { return false; }
      }
    }
    return true;
  }

  /* ---- the grammar ---- */

  /** A text is a sequence of plain characters, escaped dollars, dollars that start nothing, and references. */
  datatype Token = Plain(c: char) | Escaped | Lone | Ref(name: string)

  function PrintToken(t: Token): (s: string)
    ensures s != ""
  {
    match t
    case Plain(c) => [c]
    case Escaped => "$$"
    case Lone => "$"
    case Ref(name) => "${" + name + "}"
  }

  function Print(ts: seq<Token>): string {
    if ts == [] then "" else PrintToken(ts[0]) + Print(ts[1..])
  }

  predicate ProperToken(t: Token) {
    (t.Plain? ==> t.c != '$') && (t.Ref? ==> IsName(t.name))
  }

  /** The rest of the text does not turn a lone dollar into an escape or a reference. */
  predicate Follows(t: Token, rest: string) {
    t.Lone? ==> rest == "" || (rest[0] != '$' && rest[0] != '{')
  }

  /** The tokens are a reading of Print(ts) + rest that stops before rest. */
  predicate Reading(ts: seq<Token>, rest: string) {
    ts != [] ==> ProperToken(ts[0]) && Follows(ts[0], Print(ts[1..]) + rest) && Reading(ts[1..], rest)
  }

  /** The value of a reading: every reference replaced by its value, every escape by a dollar. */
  function TokenValue(t: Token, source: Source): Option<string> {
    match t
    case Plain(c) => Some([c])
    case Escaped => Some("$")
    case Lone => Some("$")
    case Ref(name) => source(name)
  }

  function Value(ts: seq<Token>, source: Source): Option<string> {
    if ts == [] then Some("")
    else if TokenValue(ts[0], source).None? || Value(ts[1..], source).None? then None
    else Some(TokenValue(ts[0], source).value + Value(ts[1..], source).value)
  }

  /** A reference that cannot be read: it is not closed, or what it encloses is not a name. */
  predicate Malformed(s: string) {
    && |s| >= 2 && s[0] == '$' && s[1] == '{'
    && forall n :: 2 <= n < |s| && s[n] == '}' ==> !IsName(s[2..n])
  }

  /* ---- the resolver ---- */

  function IndexOf(s: string, c: char): (k: int)
    ensures -1 <= k < |s|
    ensures k >= 0 ==> s[k] == c && forall j :: 0 <= j < k ==> s[j] != c
    ensures k < 0 ==> c !in s
  {
    if s == "" then -1
    else if s[0] == c then 0
    else
      var k := IndexOf(s[1..], c);
      assert forall j :: 1 <= j < |s| ==> s[j] == s[1..][j - 1];
      if k < 0 then -1 else k + 1
  }

  function Prefixed(p: string, r: Result<string, ResolveError>): Result<string, ResolveError> {
    if r.Ok? then Ok(p + r.value) else r
  }

  /** What resolving the rest of a text yields. */
  function Resolved(s: string, source: Source): Result<string, ResolveError> {
    if s == "" then Ok("")
    else if s[0] != '$' || |s| == 1 then Prefixed([s[0]], Resolved(s[1..], source))
    else if s[1] == '$' then Prefixed("$", Resolved(s[2..], source))
    else if s[1] != '{' then Prefixed("$", Resolved(s[1..], source))
    else
      var close := IndexOf(s[2..], '}');
      if close < 0 then Err(Invalid(s))
      else if !IsName(s[2..2 + close]) then Err(Invalid(s[..2 + close + 1]))
      else if source(s[2..2 + close]).None? then Err(Undefined(s[2..2 + close]))
      else Prefixed(source(s[2..2 + close]).value, Resolved(s[2 + close + 1..], source))
  }

  lemma {:induction false} PlainTextIsItself(s: string, source: Source)
    requires '$' !in s
    ensures Resolved(s, source) == Ok(s)
  {
    if s != "" {
      PlainTextIsItself(s[1..], source);
      assert s == [s[0]] + s[1..];
    }
  }

  lemma PrefixedTwice(p: string, q: string, r: Result<string, ResolveError>)
    ensures Prefixed(p, Prefixed(q, r)) == Prefixed(p + q, r)
  {
    if r.Ok? { assert p + (q + r.value) == (p + q) + r.value; }
  }

  lemma AfterOne(result: string, rest: string, n: nat, piece: string, source: Source)
    requires n <= |rest| && Resolved(rest, source) == Prefixed(piece, Resolved(rest[n..], source))
    ensures Prefixed(result, Resolved(rest, source)) == Prefixed(result + piece, Resolved(rest[n..], source))
  {
    hide Resolved;
    PrefixedTwice(result, piece, Resolved(rest[n..], source));
  }

  /** What resolving the text from i on yields. */
  function Rest(raw: string, i: nat, source: Source): Result<string, ResolveError>
    requires i <= |raw|
  { Resolved(raw[i..], source) }

  /** A turn of the loop at a character that stands for itself. */
  lemma AtCharacter(result: string, raw: string, i: nat, source: Source)
    requires i < |raw| && (raw[i] != '$' || i + 1 == |raw| || (raw[i + 1] != '$' && raw[i + 1] != '{'))
    ensures Prefixed(result, Rest(raw, i, source)) == Prefixed(result + [raw[i]], Rest(raw, i + 1, source))
  {
    hide Prefixed, IndexOf, IsName;
    assert raw[i..][1..] == raw[i + 1..];
    AfterOne(result, raw[i..], 1, [raw[i]], source);
  }

  /** A turn at an escaped dollar. */
  lemma AtEscape(result: string, raw: string, i: nat, source: Source)
    requires i + 1 < |raw| && raw[i] == '$' && raw[i + 1] == '$'
    ensures Prefixed(result, Rest(raw, i, source)) == Prefixed(result + [raw[i]], Rest(raw, i + 2, source))
  {
    hide Prefixed, IndexOf, IsName;
    assert raw[i..][2..] == raw[i + 2..];
    AfterOne(result, raw[i..], 2, [raw[i]], source);
  }

  /** The offset of the brace that closes the reference at i, or -1. */
  function ClosingBrace(raw: string, i: nat): (k: int)
    requires i + 2 <= |raw|
    ensures -1 <= k < |raw| - i - 2
  { IndexOf(raw[i + 2..], '}') }

  /** A turn at a reference: its three failures, or its value. */
  lemma AtReference(result: string, raw: string, i: nat, close: int, source: Source)
    requires i + 1 < |raw| && raw[i] == '$' && raw[i + 1] == '{' && close == ClosingBrace(raw, i)
    ensures close < 0 ==> Prefixed(result, Rest(raw, i, source)) == Err(Invalid(raw[i..]))
    ensures close >= 0 && !IsName(raw[i + 2..i + 2 + close]) ==>
              Prefixed(result, Rest(raw, i, source)) == Err(Invalid(raw[i..i + 2 + close + 1]))
    ensures close >= 0 && IsName(raw[i + 2..i + 2 + close]) ==>
              match source(raw[i + 2..i + 2 + close])
              case None => Prefixed(result, Rest(raw, i, source)) == Err(Undefined(raw[i + 2..i + 2 + close]))
              case Some(value) =>
                Prefixed(result, Rest(raw, i, source)) == Prefixed(result + value, Rest(raw, i + 2 + close + 1, source))
  {
    hide IndexOf, IsName;
    var s := raw[i..];
    assert s[2..] == raw[i + 2..];
    if close >= 0 {
      assert s[2..2 + close] == raw[i + 2..i + 2 + close] && s[..2 + close + 1] == raw[i..i + 2 + close + 1];
      assert s[2 + close + 1..] == raw[i + 2 + close + 1..];
      if IsName(s[2..2 + close]) && source(s[2..2 + close]).Some? { AfterOne(result, s, 2 + close + 1, source(s[2..2 + close]).value, source); }
    }
  }

  lemma AtStart(raw: string, source: Source)
    ensures Resolved(raw, source) == Prefixed("", Rest(raw, 0, source))
  {
    hide Resolved;
    assert raw[0..] == raw;
    PrefixedNothing(Resolved(raw, source));
  }

  lemma AtEnd(result: string, raw: string, source: Source)
    ensures Prefixed(result, Rest(raw, |raw|, source)) == Ok(result)
  {
    assert raw[|raw|..] == "";
    PrefixedEnd(result);
  }

  method ResolveString(raw: string, source: Source) returns (r: Result<string, ResolveError>)
    ensures r == Resolved(raw, source)
  {
    if '$' !in raw {
      PlainTextIsItself(raw, source);
      return Ok(raw);
    }
    hide IsName, Prefixed, Resolved, ClosingBrace, Rest;
    var result := "";
    var i := 0;
    AtStart(raw, source);
    while i < |raw|
      invariant 0 <= i <= |raw|
      invariant Resolved(raw, source) == Prefixed(result, Rest(raw, i, source))
    {
      if raw[i] == '$' && i + 1 < |raw| {
        if raw[i + 1] == '$' {
          AtEscape(result, raw, i, source);
          result, i := result + [raw[i]], i + 2;
          continue;
        }
        if raw[i + 1] == '{' {
          var close := ClosingBrace(raw, i);
          AtReference(result, raw, i, close, source);
          if close == -1 { return Err(Invalid(raw[i..])); }
          var name := raw[i + 2..i + 2 + close];
          var valid := IsValidVarName(name);
          if !valid { return Err(Invalid(raw[i..i + 2 + close + 1])); }
          var value := source(name);
          if value.None? { return Err(Undefined(name)); }
          result, i := result + value.value, i + 2 + close + 1;
          continue;
        }
      }
      AtCharacter(result, raw, i, source);
      result, i := result + [raw[i]], i + 1;
    }
    AtEnd(result, raw, source);
    r := Ok(result);
  }

  lemma PrefixedEnd(p: string)
    ensures Prefixed(p, Ok("")) == Ok(p)
  {
    assert p + "" == p;
  }

  lemma PrefixedNothing(r: Result<string, ResolveError>)
    ensures Prefixed("", r) == r
  {
    if r.Ok? { assert "" + r.value == r.value; }
  }

  /* ---- the resolver reads the grammar ---- */

  /** The name of the first undefined reference of a reading. */
  function FirstUndefined(ts: seq<Token>, source: Source): (u: Option<string>)
    ensures u.None? <==> Value(ts, source).Some?
  {
    if ts == [] then None
    else if TokenValue(ts[0], source).None? then Some(ts[0].name)
    else FirstUndefined(ts[1..], source)
  }

  lemma NameHasNoBrace(name: string)
    requires IsName(name)
    ensures '}' !in name
  {
  }

  lemma ReferenceIsRead(name: string, rest: string, source: Source)
    requires IsName(name)
    ensures Resolved("${" + name + "}" + rest, source) ==
              if source(name).None? then Err(Undefined(name)) else Prefixed(source(name).value, Resolved(rest, source))
  {
    NameHasNoBrace(name);
    var s := "${" + name + "}" + rest;
    assert s[2..] == name + "}" + rest;
    var close := IndexOf(s[2..], '}');
    assert s[2..][|name|] == '}';
    assert forall j :: 0 <= j < |name| ==> s[2..][j] == name[j];
    assert close == |name|;
    assert s[2..2 + close] == name && s[2 + close + 1..] == rest;
  }

  lemma TokenIsRead(t: Token, rest: string, source: Source)
    requires ProperToken(t) && Follows(t, rest)
    ensures Resolved(PrintToken(t) + rest, source) ==
              if TokenValue(t, source).None? then Err(Undefined(t.name)) else Prefixed(TokenValue(t, source).value, Resolved(rest, source))
  {
    var s := PrintToken(t) + rest;
    match t {
      case Plain(c) => assert s[1..] == rest;
      case Escaped => assert s[2..] == rest;
      case Lone => assert s[1..] == rest;
      case Ref(name) => ReferenceIsRead(name, rest, source);
    }
  }

  /** Resolving a text that starts with a reading replaces the reading by its value, or stops at its first undefined reference. */
  lemma {:induction false} ReadingIsResolved(ts: seq<Token>, rest: string, source: Source)
    requires Reading(ts, rest)
    ensures Resolved(Print(ts) + rest, source) ==
              if FirstUndefined(ts, source).Some? then Err(Undefined(FirstUndefined(ts, source).value))
              else Prefixed(Value(ts, source).value, Resolved(rest, source))
  {
    hide Resolved;
    if ts == [] {
      assert Print(ts) + rest == rest;
      PrefixedNothing(Resolved(rest, source));
    } else {
      var tail := Print(ts[1..]) + rest;
      assert Print(ts) + rest == PrintToken(ts[0]) + tail;
      TokenIsRead(ts[0], tail, source);
      ReadingIsResolved(ts[1..], rest, source);
      if FirstUndefined(ts, source).None? {
        PrefixedTwice(TokenValue(ts[0], source).value, Value(ts[1..], source).value, Resolved(rest, source));
      }
    }
  }

  lemma MalformedIsInvalid(bad: string, source: Source)
    requires Malformed(bad)
    ensures Resolved(bad, source).Err? && Resolved(bad, source).error.Invalid?
  {
    var close := IndexOf(bad[2..], '}');
    if close >= 0 { assert bad[2..][close] == bad[2 + close]; }
  }

  /** Every text has a reading up to its end or up to the first malformed reference. */
  lemma {:induction false} Read(s: string) returns (ts: seq<Token>, rest: string)
    ensures s == Print(ts) + rest && Reading(ts, rest)
    ensures rest == "" || Malformed(rest)
    decreases |s|, 0
  {
    if s == "" {
      ts, rest := [], "";
    } else if s[0] != '$' {
      ts, rest := ReadOn(Plain(s[0]), s[1..], s);
    } else if |s| == 1 {
      ts, rest := ReadOn(Lone, s[1..], s);
    } else if s[1] == '$' {
      ts, rest := ReadOn(Escaped, s[2..], s);
    } else if s[1] != '{' {
      ts, rest := ReadOn(Lone, s[1..], s);
    } else {
      var close := IndexOf(s[2..], '}');
      if close < 0 || !IsName(s[2..2 + close]) {
        ts, rest := [], s;
        NotAReference(s, close);
      } else {
        var name := s[2..2 + close];
        assert s[2..][close] == '}';
        assert s == "${" + name + "}" + s[2 + close + 1..];
        ts, rest := ReadOn(Ref(name), s[2 + close + 1..], s);
      }
    }
  }

  lemma NotAReference(s: string, close: int)
    requires |s| >= 2 && s[0] == '$' && s[1] == '{' && close == IndexOf(s[2..], '}')
    requires close < 0 || !IsName(s[2..2 + close])
    ensures Malformed(s)
  {
    forall n | 2 <= n < |s| && s[n] == '}' ensures !IsName(s[2..n]) {
      assert s[2..][n - 2] == '}';
      if n != 2 + close {
        assert s[2..][close] == '}' && close < n - 2;
        assert s[2..n][close] == '}';
      }
    }
  }

  lemma {:induction false} ReadOn(t: Token, tail: string, s: string) returns (ts: seq<Token>, rest: string)
    requires s == PrintToken(t) + tail && ProperToken(t) && Follows(t, tail)
    ensures s == Print(ts) + rest && Reading(ts, rest)
    ensures rest == "" || Malformed(rest)
    decreases |tail|, 1
  {
    var more;
    more, rest := Read(tail);
    ts := [t] + more;
    assert ts[1..] == more;
    assert Print(ts) + rest == PrintToken(t) + (Print(more) + rest);
  }

  /* ---- what resolving a string means ---- */

  /** A string resolves to v exactly when it has a reading to its end whose value is v. */
  lemma ResolvesByTokens(s: string, source: Source, v: string)
    ensures Resolved(s, source) == Ok(v) <==> exists ts :: Print(ts) == s && Reading(ts, "") && Value(ts, source) == Some(v)
  {
    forall ts | Print(ts) == s && Reading(ts, "") ensures Value(ts, source) == Some(v) <==> Resolved(s, source) == Ok(v) {
      ReadingIsResolved(ts, "", source);
      assert Print(ts) + "" == s;
      if Value(ts, source).Some? { assert Value(ts, source).value + "" == Value(ts, source).value; }
    }
    if Resolved(s, source) == Ok(v) {
      var ts, rest := Read(s);
      ReadingIsResolved(ts, rest, source);
      if rest != "" { MalformedIsInvalid(rest, source); }
      assert Print(ts) + "" == Print(ts);
    }
  }

  ghost predicate RejectedAsMalformed(s: string, source: Source) {
    Resolved(s, source).Err? && Resolved(s, source).error.Invalid?
  }

  /** A string is rejected as malformed exactly when a malformed reference follows a reading whose references are all defined. */
  lemma MalformedByTokens(s: string, source: Source)
    ensures RejectedAsMalformed(s, source) <==>
              exists ts, bad :: Print(ts) + bad == s && Reading(ts, bad) && Malformed(bad) && Value(ts, source).Some?
  {
    forall ts, bad | Print(ts) + bad == s && Reading(ts, bad) && Malformed(bad) && Value(ts, source).Some? ensures RejectedAsMalformed(s, source) {
      ReadingIsResolved(ts, bad, source);
      MalformedIsInvalid(bad, source);
    }
    if RejectedAsMalformed(s, source) {
      var ts, rest := Read(s);
      ReadingIsResolved(ts, rest, source);
    }
  }

  /* ---- escaping ---- */

  /** The text with every dollar doubled. */
  function Doubled(s: string): string {
    if s == "" then "" else (if s[0] == '$' then "$$" else [s[0]]) + Doubled(s[1..])
  }

  lemma {:induction false} DoublingIsUndone(s: string, source: Source)
    ensures Resolved(Doubled(s), source) == Ok(s)
  {
    if s != "" {
      var d := Doubled(s);
      DoublingIsUndone(s[1..], source);
      assert d[if s[0] == '$' then 2 else 1..] == Doubled(s[1..]);
      assert s == [s[0]] + s[1..];
    }
  }

  /* ---- the syntax check of an import ---- */

  /** Every name is defined, as the empty string. */
  const SYNTAX_ONLY: Source := (name: string) => Some("")

  method ValidateVariableSyntax(s: string) returns (ok: bool)
    ensures ok <==> !RejectedAsMalformed(s, SYNTAX_ONLY)
  {
    var r := ResolveString(s, SYNTAX_ONLY);
    ok := r.Ok? || !r.error.Invalid?;
  }

  lemma {:induction false} SyntaxOnlyDefinesAll(ts: seq<Token>)
    ensures Value(ts, SYNTAX_ONLY).Some?
  {
    if ts != [] { SyntaxOnlyDefinesAll(ts[1..]); }
  }

  lemma BadIsAnError(s: string, ts: seq<Token>, bad: string, source: Source)
    requires Print(ts) + bad == s && Reading(ts, bad) && Malformed(bad)
    ensures Resolved(s, source).Err?
  {
    ReadingIsResolved(ts, bad, source);
    MalformedIsInvalid(bad, source);
  }

  /** The check accepts exactly the strings that no source can make the resolver reject as malformed, and every string it
  rejects is an error for every source. */
  lemma SyntaxCheckIsExact(s: string)
    ensures RejectedAsMalformed(s, SYNTAX_ONLY) <==> exists source :: RejectedAsMalformed(s, source)
    ensures RejectedAsMalformed(s, SYNTAX_ONLY) ==> forall source :: Resolved(s, source).Err?
  {
    hide *;
    forall source | RejectedAsMalformed(s, source) ensures RejectedAsMalformed(s, SYNTAX_ONLY) {
      MalformedByTokens(s, source);
      var ts, bad :| Print(ts) + bad == s && Reading(ts, bad) && Malformed(bad);
      SyntaxOnlyDefinesAll(ts);
      MalformedByTokens(s, SYNTAX_ONLY);
    }
    if RejectedAsMalformed(s, SYNTAX_ONLY) {
      MalformedByTokens(s, SYNTAX_ONLY);
      var ts, bad :| Print(ts) + bad == s && Reading(ts, bad) && Malformed(bad);
      forall source ensures Resolved(s, source).Err? { BadIsAnError(s, ts, bad, source); }
    }
  }

  /* ---- argument lists ---- */

  datatype ArgsError = ArgsError(index: nat, error: ResolveError)

  /** The first argument that does not resolve. */
  predicate FirstFailure(args: seq<string>, source: Source, i: nat) {
    i < |args| && Resolved(args[i], source).Err? && forall j :: 0 <= j < i ==> Resolved(args[j], source).Ok?
  }

  method ResolveArgs(args: seq<string>, source: Source) returns (r: Result<seq<string>, ArgsError>)
    ensures r.Ok? <==> forall i :: 0 <= i < |args| ==> Resolved(args[i], source).Ok?
    ensures r.Ok? ==> |r.value| == |args| && forall i :: 0 <= i < |args| ==> Resolved(args[i], source) == Ok(r.value[i])
    ensures r.Err? ==> FirstFailure(args, source, r.error.index) && Resolved(args[r.error.index], source) == Err(r.error.error)
  {
    hide Resolved;
    var hasVar := false;
    for i := 0 to |args|
      invariant !hasVar && forall j :: 0 <= j < i ==> '$' !in args[j]
    {
      if '$' in args[i] {
        hasVar := true;
        break;
      }
    }
    if !hasVar {
      forall i | 0 <= i < |args| ensures Resolved(args[i], source) == Ok(args[i]) { PlainTextIsItself(args[i], source); }
      return Ok(args);
    }
    var out := args;
    for i := 0 to |args|
      invariant |out| == |args| && out[i..] == args[i..]
      invariant forall j :: 0 <= j < i ==> Resolved(args[j], source) == Ok(out[j])
    {
      assert out[i] == out[i..][0] && out[i..][1..] == out[i + 1..];
      if '$' !in out[i] {
        PlainTextIsItself(args[i], source);
        continue;
      }
      var resolved := ResolveString(out[i], source);
      if resolved.Err? { return Err(ArgsError(i, resolved.error)); }
      out := out[i := resolved.value];
    }
    r := Ok(out);
  }
}
