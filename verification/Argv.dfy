/** The command-line text of an argument list: the parser, the printer and when they are inverse. */
module Argv {

  /** White space as the \s class of a JavaScript regular expression. */
  predicate Space(c: char) {
    || c == ' ' || '\t' <= c <= '\r' || c == '\U{00A0}' || c == '\U{1680}' || '\U{2000}' <= c <= '\U{200A}'
    || c == '\U{2028}' || c == '\U{2029}' || c == '\U{202F}' || c == '\U{205F}' || c == '\U{3000}' || c == '\U{FEFF}'
  }

  /** The characters for which the printer quotes a token. */
  predicate Quoting(c: char) { c == ' ' || c == '"' || c == '\t' || c == '\n' }

  predicate Quoted(token: string) { token == "" || exists i :: 0 <= i < |token| && Quoting(token[i]) }

  /* ---- the parser ---- */

  /** The tokens of the rest of a text: cur is the token being read, inQuotes and open its state. */
  function Scan(s: string, cur: string, inQuotes: bool, open: bool): seq<string>
    decreases |s|
  {
    if s == "" then (if open then [cur] else [])
    else if inQuotes then
      if s[0] == '\\' && |s| > 1 && (s[1] == '"' || s[1] == '\\') then Scan(s[2..], cur + [s[1]], true, true)
      else if s[0] == '"' then Scan(s[1..], cur, false, true)
      else Scan(s[1..], cur + [s[0]], true, true)
    else if s[0] == '"' then Scan(s[1..], cur, true, true)
    else if Space(s[0]) then (if open then [cur] + Scan(s[1..], "", false, false) else Scan(s[1..], cur, false, false))
    else Scan(s[1..], cur + [s[0]], false, true)
  }

  function Parsed(s: string): seq<string> { Scan(s, "", false, false) }

  method ParseArgs(s: string) returns (out: seq<string>)
    ensures out == Parsed(s)
  {
    if s == "" { return []; }
    out := [];
    var cur, inQuotes, open := "", false, false;
    var i := 0;
    assert s[0..] == s;
    while i < |s|
      invariant 0 <= i <= |s|
      invariant Parsed(s) == out + Scan(s[i..], cur, inQuotes, open)
    {
      ghost var rest := s[i..];
      assert rest[1..] == s[i + 1..] && (|rest| > 1 ==> rest[1] == s[i + 1] && rest[2..] == s[i + 2..]);
      var c := s[i];
      if inQuotes {
        if c == '\\' && i + 1 < |s| {
          var n := s[i + 1];
          if n == '"' || n == '\\' {
            cur := cur + [n];
            i := i + 1;
          } else {
            cur := cur + [c];
          }
        } else if c == '"' {
          inQuotes := false;
        } else {
          cur := cur + [c];
        }
        open := true;
      } else if c == '"' {
        inQuotes := true;
        open := true;
      } else if Space(c) {
        if open {
          out := out + [cur];
          cur := "";
          open := false;
        }
      } else {
        cur := cur + [c];
        open := true;
      }
      i := i + 1;
    }
    if open { out := out + [cur]; }
  }

  /* ---- the printer ---- */

  function ReplaceAll(s: string, c: char, with: string): string {
    if s == "" then "" else (if s[0] == c then with else [s[0]]) + ReplaceAll(s[1..], c, with)
  }

  /** Backslashes first, then quotes. */
  function Escaped(s: string): string { ReplaceAll(ReplaceAll(s, '\\', "\\\\"), '"', "\\\"") }

  function RenderToken(token: string): string {
    if token == "" then "\"\""
    else if Quoted(token) then "\"" + Escaped(token) + "\""
    else token
  }

  function Joined(parts: seq<string>): string {
    if parts == [] then "" else if |parts| == 1 then parts[0] else parts[0] + " " + Joined(parts[1..])
  }

  function RenderArgs(args: seq<string>): string {
    if args == [] then "" else Joined(seq(|args|, i requires 0 <= i < |args| => RenderToken(args[i])))
  }

  /** The printer, token by token. */
  lemma RenderMore(args: seq<string>)
    requires args != []
    ensures RenderArgs(args) == if |args| == 1 then RenderToken(args[0]) else RenderToken(args[0]) + " " + RenderArgs(args[1..])
  {
    var parts := seq(|args|, i requires 0 <= i < |args| => RenderToken(args[i]));
    assert parts[1..] == seq(|args[1..]|, i requires 0 <= i < |args[1..]| => RenderToken(args[1..][i]));
  }

  /* ---- reading a printed token ---- */

  lemma ReplacedNothing(c: char, with: string)
    ensures ReplaceAll("", c, with) == ""
  {
  }

  lemma ReplacedFirst(s: string, c: char, with: string)
    requires s != ""
    ensures ReplaceAll(s, c, with) == (if s[0] == c then with else [s[0]]) + ReplaceAll(s[1..], c, with)
  {
  }

  lemma Joins(a: string, b: string, c: string)
    ensures a + (b + c) == (a + b) + c
  {
  }

  lemma {:induction false} ReplaceConcat(a: string, b: string, c: char, with: string)
    ensures ReplaceAll(a + b, c, with) == ReplaceAll(a, c, with) + ReplaceAll(b, c, with)
  {
    hide ReplaceAll;
    if a == "" {
      assert a + b == b;
      ReplacedNothing(c, with);
    } else {
      ReplaceConcat(a[1..], b, c, with);
      assert (a + b)[1..] == a[1..] + b;
      ReplacedFirst(a, c, with);
      ReplacedFirst(a + b, c, with);
      Joins(if a[0] == c then with else [a[0]], ReplaceAll(a[1..], c, with), ReplaceAll(b, c, with));
    }
  }

  /** Escaping goes character by character. */
  lemma EscapedFirst(s: string)
    requires s != ""
    ensures Escaped(s) == (if s[0] == '\\' then "\\\\" else if s[0] == '"' then "\\\"" else [s[0]]) + Escaped(s[1..])
  {
    var head := if s[0] == '\\' then "\\\\" else [s[0]];
    ReplaceConcat(head, ReplaceAll(s[1..], '\\', "\\\\"), '"', "\\\"");
    if s[0] == '\\' {
      assert ReplaceAll(head, '"', "\\\"") == "\\\\" by { assert head[1..] == "\\" && head[1..][1..] == ""; }
    } else {
      assert head[1..] == "";
    }
  }

  /** Inside quotes an escaped text is read back as itself. */
  lemma {:induction false} QuotedIsRead(token: string, cur: string, rest: string)
    ensures Scan(Escaped(token) + "\"" + rest, cur, true, true) == Scan(rest, cur + token, false, true)
    decreases |token|
  {
    if token == "" {
      assert Escaped(token) + "\"" + rest == "\"" + rest;
      assert ("\"" + rest)[1..] == rest && cur + token == cur;
    } else {
      EscapedFirst(token);
      var tail := Escaped(token[1..]) + "\"" + rest;
      var s := Escaped(token) + "\"" + rest;
      QuotedIsRead(token[1..], cur + [token[0]], rest);
      assert (cur + [token[0]]) + token[1..] == cur + token;
      if token[0] == '\\' || token[0] == '"' {
        assert s == ['\\', token[0]] + tail && s[2..] == tail;
      } else {
        assert s == [token[0]] + tail && s[1..] == tail;
      }
    }
  }

  /** The rest of the text is over or starts with the separator. */
  predicate Separated(rest: string) { rest == "" || rest[0] == ' ' }

  lemma TokenEnds(cur: string, rest: string)
    requires Separated(rest)
    ensures Scan(rest, cur, false, true) == [cur] + Parsed(rest)
  {
  }

  /** Text without quotes is read up to the separator on its own. */
  lemma {:induction false} UnquotedIsRead(s: string, cur: string, open: bool, rest: string)
    requires '"' !in s && Separated(rest) && (!open ==> cur == "")
    ensures Scan(s + rest, cur, false, open) == Scan(s, cur, false, open) + Parsed(rest)
    decreases |s|
  {
    if s == "" {
      assert s + rest == rest;
      if open { TokenEnds(cur, rest); }
    } else {
      assert (s + rest)[1..] == s[1..] + rest;
      if Space(s[0]) {
        UnquotedIsRead(s[1..], "", false, rest);
      } else {
        UnquotedIsRead(s[1..], cur + [s[0]], true, rest);
      }
    }
  }

  /** What the parser makes of one printed token. */
  function Pieces(token: string): seq<string> { if Quoted(token) then [token] else Parsed(token) }

  lemma NoQuotes(token: string)
    requires !Quoted(token)
    ensures '"' !in token
  {
    forall i | 0 <= i < |token| ensures token[i] != '"' { assert !Quoting(token[i]); }
  }

  lemma TokenIsRead(token: string, rest: string)
    requires Separated(rest)
    ensures Parsed(RenderToken(token) + rest) == Pieces(token) + Parsed(rest)
  {
    if Quoted(token) {
      var s := RenderToken(token) + rest;
      assert Escaped("") == "";
      assert s == "\"" + (Escaped(token) + "\"" + rest);
      assert s[1..] == Escaped(token) + "\"" + rest;
      QuotedIsRead(token, "", rest);
      assert "" + token == token;
      TokenEnds(token, rest);
    } else {
      NoQuotes(token);
      UnquotedIsRead(token, "", false, rest);
    }
  }

  function AllPieces(args: seq<string>): seq<string> {
    if args == [] then [] else Pieces(args[0]) + AllPieces(args[1..])
  }

  lemma {:induction false} PrintedIsRead(args: seq<string>)
    ensures Parsed(RenderArgs(args)) == AllPieces(args)
  {
    if args != [] {
      RenderMore(args);
      PrintedIsRead(args[1..]);
      if |args| == 1 {
        assert RenderToken(args[0]) + "" == RenderToken(args[0]);
        TokenIsRead(args[0], "");
      } else {
        var rest := " " + RenderArgs(args[1..]);
        assert RenderToken(args[0]) + " " + RenderArgs(args[1..]) == RenderToken(args[0]) + rest;
        TokenIsRead(args[0], rest);
        assert rest[1..] == RenderArgs(args[1..]);
      }
    }
  }

  /* ---- when the pair is inverse ---- */

  /** The printer keeps the token in one piece. */
  predicate Kept(token: string) { Quoted(token) || forall i :: 0 <= i < |token| ==> !Space(token[i]) }

  lemma {:induction false} SolidIsOnePiece(s: string, cur: string)
    requires '"' !in s && forall i :: 0 <= i < |s| ==> !Space(s[i])
    ensures Scan(s, cur, false, true) == [cur + s]
    decreases |s|
  {
    if s == "" {
      assert cur + s == cur;
    } else {
      SolidIsOnePiece(s[1..], cur + [s[0]]);
      assert (cur + [s[0]]) + s[1..] == cur + s;
    }
  }

  lemma KeptIsOnePiece(token: string)
    requires Kept(token)
    ensures Pieces(token) == [token]
  {
    if !Quoted(token) {
      NoQuotes(token);
      assert token[0] in token && "" + [token[0]] == [token[0]];
      SolidIsOnePiece(token[1..], [token[0]]);
      assert [token[0]] + token[1..] == token;
    }
  }

  function Spaces(s: string): (n: nat)
    ensures n == 0 <==> forall i :: 0 <= i < |s| ==> !Space(s[i])
  {
    if s == "" then 0
    else
      assert forall i :: 1 <= i < |s| ==> s[i] == s[1..][i - 1];
      (if Space(s[0]) then 1 else 0) + Spaces(s[1..])
  }

  function AllSpaces(args: seq<string>): nat {
    if args == [] then 0 else Spaces(args[0]) + AllSpaces(args[1..])
  }

  lemma {:induction false} SpacesConcat(a: seq<string>, b: seq<string>)
    ensures AllSpaces(a + b) == AllSpaces(a) + AllSpaces(b)
  {
    if a == [] {
      assert a + b == b;
    } else {
      SpacesConcat(a[1..], b);
      assert (a + b)[1..] == a[1..] + b;
    }
  }

  lemma {:induction false} SolidGrows(cur: string, c: char)
    requires Spaces(cur) == 0 && !Space(c)
    ensures Spaces(cur + [c]) == 0
  {
  }

  /** Unquoted reading drops all white space. */
  lemma {:induction false} UnquotedLosesSpaces(s: string, cur: string, open: bool)
    requires '"' !in s && Spaces(cur) == 0
    ensures AllSpaces(Scan(s, cur, false, open)) == 0
    decreases |s|
  {
    if s == "" {
    } else if Space(s[0]) {
      UnquotedLosesSpaces(s[1..], if open then "" else cur, false);
    } else {
      SolidGrows(cur, s[0]);
      UnquotedLosesSpaces(s[1..], cur + [s[0]], true);
    }
  }

  lemma PiecesSpaces(token: string)
    ensures AllSpaces(Pieces(token)) == if Kept(token) then Spaces(token) else 0
  {
    if Kept(token) { KeptIsOnePiece(token); } else {
      NoQuotes(token);
      UnquotedLosesSpaces(token, "", false);
    }
  }

  /** The white space of the tokens that are kept. */
  function KeptSpaces(args: seq<string>): nat {
    if args == [] then 0 else (if Kept(args[0]) then Spaces(args[0]) else 0) + KeptSpaces(args[1..])
  }

  /** The round trip loses exactly the white space of the tokens that are not kept, so none at all exactly when every token is kept. */
  lemma {:induction false} SpacesLost(args: seq<string>)
    ensures AllSpaces(AllPieces(args)) == KeptSpaces(args) <= AllSpaces(args)
    ensures AllSpaces(AllPieces(args)) == AllSpaces(args) <==> forall i :: 0 <= i < |args| ==> Kept(args[i])
  {
    if args != [] {
      SpacesLost(args[1..]);
      SpacesConcat(Pieces(args[0]), AllPieces(args[1..]));
      PiecesSpaces(args[0]);
      assert (forall i :: 0 <= i < |args| ==> Kept(args[i])) <==> Kept(args[0]) && forall i :: 0 <= i < |args[1..]| ==> Kept(args[1..][i]) by {
        forall i | 1 <= i < |args| ensures args[i] == args[1..][i - 1] { }
      }
    }
  }

  lemma {:induction false} KeptTokensReturn(args: seq<string>)
    requires forall i :: 0 <= i < |args| ==> Kept(args[i])
    ensures AllPieces(args) == args
  {
    if args != [] {
      KeptTokensReturn(args[1..]);
      KeptIsOnePiece(args[0]);
    }
  }

  /** Parsing a printed argument list returns it exactly when every token is empty, has a character that makes the
  printer quote it, or has no white space. */
  lemma RoundTrip(args: seq<string>)
    ensures Parsed(RenderArgs(args)) == args <==>
              forall i :: 0 <= i < |args| ==>
                || args[i] == ""
                || (exists j :: 0 <= j < |args[i]| && Quoting(args[i][j]))
                || (forall j :: 0 <= j < |args[i]| ==> !Space(args[i][j]))
  {
    PrintedIsRead(args);
    assert forall i :: 0 <= i < |args| ==>
             (Kept(args[i]) <==> args[i] == "" || (exists j :: 0 <= j < |args[i]| && Quoting(args[i][j]))
                                 || (forall j :: 0 <= j < |args[i]| ==> !Space(args[i][j])));
    if forall i :: 0 <= i < |args| ==> Kept(args[i]) { KeptTokensReturn(args); } else { SpacesLost(args); }
  }

  /** A carriage return is such white space: the documented guarantee does not cover it. */
  lemma CarriageReturnIsLost()
    ensures Parsed(RenderArgs(["a\rb"])) != ["a\rb"]
  {
    RoundTrip(["a\rb"]);
    assert Space("a\rb"[1]);
  }
}
