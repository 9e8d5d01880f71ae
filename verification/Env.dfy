/** Values and lines of an env file (internal/accountmgr/account_store.go). */
module Env {

  import opened Wrappers
  import opened Unicode

  // ---- escaping ----

  predicate NeedsQuotes(v: string) {
    exists i :: 0 <= i < |v| && v[i] in {' ', '#', '"', '\'', '\t', '\n', '\r', '\\'}
  }

  function EscapeChar(c: char): string {
    if c == '\\' then "\\\\"
    else if c == '"' then "\\\""
    else if c == '\n' then "\\n"
    else if c == '\r' then "\\r"
    else if c == '\t' then "\\t"
    else [c]
  }

  function Escape(v: string): string {
    if v == "" then "" else Escape(v[..|v| - 1]) + EscapeChar(v[|v| - 1])
  }

  function Encode(v: string): string {
    if NeedsQuotes(v) then "\"" + Escape(v) + "\"" else v
  }

  /** encodeEnvValue */
  method EncodeEnvValue(v: string) returns (s: string)
    ensures s == Encode(v)
  {
    if !NeedsQuotes(v) {
      return v;
    }
    var b := "\"";
    assert "\"" + "" == b;
    for i := 0 to |v|
      invariant b == "\"" + Escape(v[..i])
    {
      assert v[..i + 1][..i] == v[..i];
      match v[i] {
        case '\\' => b := b + "\\\\";
        case '"' => b := b + "\\\"";
        case '\n' => b := b + "\\n";
        case '\r' => b := b + "\\r";
        case '\t' => b := b + "\\t";
        case r => b := b + [r];
      }
    }
    assert v[..|v|] == v;
    s := b + "\"";
  }

  // ---- unescaping ----

  /** strings.ReplaceAll for a two-character pattern and a one-character replacement. */
  function Replace(s: string, a: char, b: char, c: char): string {
    if s == "" then ""
    else if |s| >= 2 && s[0] == a && s[1] == b then [c] + Replace(s[2..], a, b, c)
    else [s[0]] + Replace(s[1..], a, b, c)
  }

  /** unescapeEnvValue: five global replacements, one after the other. */
  function Unescape(s: string): string {
    var s1 := Replace(s, '\\', 'n', '\n');
    var s2 := Replace(s1, '\\', 'r', '\r');
    var s3 := Replace(s2, '\\', 't', '\t');
    var s4 := Replace(s3, '\\', '"', '"');
    Replace(s4, '\\', '\\', '\\')
  }

  predicate Letter(c: char) { c == 'n' || c == 'r' || c == 't' }

  function Control(c: char): char
    requires Letter(c)
  {
    if c == 'n' then '\n' else if c == 'r' then '\r' else '\t'
  }

  predicate Spoils(v: string) { |v| >= 2 && v[0] == '\\' && Letter(v[1]) }

  /** What unescaping makes of an escaped value: a letter n, r or t right behind a backslash is lost. */
  function Spoiled(v: string): string {
    if v == "" then ""
    else if Spoils(v) then ['\\', Control(v[1])] + Spoiled(v[2..])
    else [v[0]] + Spoiled(v[1..])
  }

  /** How far unescaping has come: the letters whose pass is over, and whether quotes are done. */
  datatype Pass = Pass(n: bool, r: bool, t: bool, quote: bool)

  predicate Over(p: Pass, c: char) { (c == 'n' && p.n) || (c == 'r' && p.r) || (c == 't' && p.t) }

  function Piece(p: Pass, c: char): string {
    if c == '\\' then "\\\\"
    else if c == '"' then if p.quote then "\"" else "\\\""
    else if c == '\n' then if p.n then "\n" else "\\n"
    else if c == '\r' then if p.r then "\r" else "\\r"
    else if c == '\t' then if p.t then "\t" else "\\t"
    else [c]
  }

  predicate Caught(p: Pass, v: string) { |v| >= 2 && v[0] == '\\' && Letter(v[1]) && Over(p, v[1]) }

  /** The text between two passes. */
  function Stage(p: Pass, v: string): string {
    if v == "" then ""
    else if Caught(p, v) then ['\\', Control(v[1])] + Stage(p, v[2..])
    else Piece(p, v[0]) + Stage(p, v[1..])
  }

  lemma {:induction false} EscapeFront(c: char, v: string)
    ensures Escape([c] + v) == EscapeChar(c) + Escape(v)
  {
    hide EscapeChar;
    var all := [c] + v;
    if v == "" {
      assert all[..0] == "" && all[0] == c;
      assert Escape(all) == "" + EscapeChar(c) && Escape(v) == "";
    } else {
      EscapeFront(c, v[..|v| - 1]);
      assert all[..|all| - 1] == [c] + v[..|v| - 1];
    }
  }

  lemma {:induction false} StageStart(v: string)
    ensures Stage(Pass(false, false, false, false), v) == Escape(v)
  {
    if v != "" {
      StageStart(v[1..]);
      assert v == [v[0]] + v[1..];
      EscapeFront(v[0], v[1..]);
      hide Escape;
    }
  }

  /** One or two characters that the pattern does not start at are left alone. */
  lemma ReplaceSkip(c: char, s: string, a: char, b: char, x: char)
    requires c != a || s == "" || s[0] != b
    ensures Replace([c] + s, a, b, x) == [c] + Replace(s, a, b, x)
  {
    assert ([c] + s)[1..] == s;
  }

  lemma ReplaceHit(s: string, a: char, b: char, x: char)
    ensures Replace([a, b] + s, a, b, x) == [x] + Replace(s, a, b, x)
  {
    assert ([a, b] + s)[2..] == s;
  }

  /** What the text of a stage can start with. */
  lemma StageHead(p: Pass, v: string)
    requires Stage(p, v) != ""
    ensures v != ""
    ensures Stage(p, v)[0] == v[0] || Stage(p, v)[0] == '\\'
    ensures v[0] == '"' && !p.quote ==> Stage(p, v)[0] == '\\'
  {
    hide Stage;
    StageIs(p, v);
  }

  lemma StageIs(p: Pass, v: string)
    ensures v == "" ==> Stage(p, v) == ""
    ensures Caught(p, v) ==> Stage(p, v) == ['\\', Control(v[1])] + Stage(p, v[2..])
    ensures v != "" && !Caught(p, v) ==> Stage(p, v) == Piece(p, v[0]) + Stage(p, v[1..])
  {
  }

  function After(p: Pass, c: char): Pass
    requires Letter(c)
  {
    if c == 'n' then p.(n := true) else if c == 'r' then p.(r := true) else p.(t := true)
  }

  /** A pass for one letter. */
  lemma {:induction false} LetterPass(p: Pass, c: char, v: string)
    requires Letter(c) && !Over(p, c)
    ensures Replace(Stage(p, v), '\\', c, Control(c)) == Stage(After(p, c), v)
    decreases |v|
  {
    var q := After(p, c);
    CatchMore(p, c, v);
    hide *;
    StageIs(p, v);
    StageIs(q, v);
    if v == "" {
      ReplaceNothing('\\', c, Control(c));
    } else if Caught(p, v) {
      LetterPass(p, c, v[2..]);
      SkipPair(Control(v[1]), Stage(p, v[2..]), c, Control(c));
    } else if Caught(q, v) {
      LetterPass(p, c, v[2..]);
      LostPair(p, c, v);
      HitPair(Stage(p, v[2..]), c, Control(c));
    } else {
      LetterPass(p, c, v[1..]);
      PlainPass(p, c, v);
    }
  }

  /** The pass for `c` catches one more kind of pair. */
  lemma CatchMore(p: Pass, c: char, v: string)
    requires Letter(c) && !Over(p, c)
    ensures Caught(p, v) ==> Letter(v[1]) && Caught(After(p, c), v) && Control(v[1]) != '\\' && Control(v[1]) != c
    ensures !Caught(p, v) && Caught(After(p, c), v) ==>
              v[1] == c && Piece(p, v[0]) == "\\\\" && !Caught(p, v[1..]) && Piece(p, v[1]) == [c]
  {
  }

  lemma LostPair(p: Pass, c: char, v: string)
    requires Letter(c) && !Over(p, c) && !Caught(p, v) && Caught(After(p, c), v)
    ensures v[1] == c && Stage(p, v) == ['\\'] + (['\\', c] + Stage(p, v[2..]))
  {
    CatchMore(p, c, v);
    hide *;
    StageIs(p, v);
    StageIs(p, v[1..]);
    assert v[1..][1..] == v[2..];
    var rest := Stage(p, v[2..]);
    assert "\\\\" + ([c] + rest) == ['\\'] + (['\\', c] + rest);
  }

  lemma SkipPair(y: char, rest: string, c: char, x: char)
    requires y != c && (y != '\\' || rest == "" || rest[0] != c)
    ensures Replace(['\\', y] + rest, '\\', c, x) == ['\\', y] + Replace(rest, '\\', c, x)
  {
    hide Replace;
    ReplaceSkip(y, rest, '\\', c, x);
    ReplaceSkip('\\', [y] + rest, '\\', c, x);
    assert ['\\', y] + rest == ['\\'] + ([y] + rest);
  }

  lemma HitPair(rest: string, c: char, x: char)
    requires c != '\\'
    ensures Replace(['\\'] + (['\\', c] + rest), '\\', c, x) == ['\\', x] + Replace(rest, '\\', c, x)
  {
    hide Replace;
    ReplaceHit(rest, '\\', c, x);
    ReplaceSkip('\\', ['\\', c] + rest, '\\', c, x);
  }

  lemma ReplaceNothing(a: char, b: char, x: char)
    ensures Replace("", a, b, x) == ""
  {
  }

  /** A pass for one letter at a character that is not part of a lost pair. */
  lemma {:induction false} PlainPass(p: Pass, c: char, v: string)
    requires Letter(c) && !Over(p, c) && v != "" && !Caught(After(p, c), v)
    ensures Replace(Piece(p, v[0]) + Stage(p, v[1..]), '\\', c, Control(c))
         == Piece(After(p, c), v[0]) + Replace(Stage(p, v[1..]), '\\', c, Control(c))
  {
    var x := Control(c);
    var piece, rest := Piece(p, v[0]), Stage(p, v[1..]);
    PieceChanges(p, c, v);
    hide *;
    if |piece| == 1 {
      ReplaceSkip(piece[0], rest, '\\', c, x);
      assert piece == [piece[0]];
    } else if piece[1] == c {
      ReplaceHit(rest, '\\', c, x);
      assert piece == ['\\', c];
    } else {
      SkipPair(piece[1], rest, c, x);
      assert piece == ['\\', piece[1]];
    }
  }

  /** What a pass does to the piece of one character. */
  lemma PieceChanges(p: Pass, c: char, v: string)
    requires Letter(c) && !Over(p, c) && v != "" && !Caught(After(p, c), v)
    ensures var piece, rest, next := Piece(p, v[0]), Stage(p, v[1..]), Piece(After(p, c), v[0]);
            && (|piece| == 1 || |piece| == 2)
            && (|piece| == 1 ==> piece[0] != '\\' && next == piece)
            && (|piece| == 2 ==>
                  && piece[0] == '\\'
                  && (piece[1] == c ==> next == [Control(c)])
                  && (piece[1] != c ==> next == piece && (piece[1] != '\\' || rest == "" || rest[0] != c)))
  {
    var rest := Stage(p, v[1..]);
    if rest != "" { StageHead(p, v[1..]); }
    hide Stage;
  }

  /** The pass for quotes. */
  lemma {:induction false} QuotePass(p: Pass, v: string)
    requires !p.quote
    ensures Replace(Stage(p, v), '\\', '"', '"') == Stage(p.(quote := true), v)
    decreases |v|
  {
    var q := p.(quote := true);
    hide Replace, Stage;
    StageIs(p, v);
    StageIs(q, v);
    if v == "" {
      ReplaceNothing('\\', '"', '"');
    } else if Caught(p, v) {
      var rest := Stage(p, v[2..]);
      QuotePass(p, v[2..]);
      ReplaceSkip(Control(v[1]), rest, '\\', '"', '"');
      ReplaceSkip('\\', [Control(v[1])] + rest, '\\', '"', '"');
      assert ['\\', Control(v[1])] + rest == ['\\'] + ([Control(v[1])] + rest);
    } else {
      var piece, rest := Piece(p, v[0]), Stage(p, v[1..]);
      QuotePass(p, v[1..]);
      if rest != "" { StageHead(p, v[1..]); }
      if |piece| == 1 {
        ReplaceSkip(piece[0], rest, '\\', '"', '"');
        assert piece + rest == [piece[0]] + rest;
      } else if v[0] == '"' {
        ReplaceHit(rest, '\\', '"', '"');
      } else {
        ReplaceSkip(piece[1], rest, '\\', '"', '"');
        ReplaceSkip('\\', [piece[1]] + rest, '\\', '"', '"');
        assert piece + rest == ['\\'] + ([piece[1]] + rest);
      }
    }
  }

  /** The last pass, for backslashes. */
  lemma {:induction false} BackslashPass(v: string)
    ensures Replace(Stage(Pass(true, true, true, true), v), '\\', '\\', '\\') == Spoiled(v)
    decreases |v|
  {
    var p := Pass(true, true, true, true);
    hide Replace, Stage;
    StageIs(p, v);
    if v == "" {
      ReplaceNothing('\\', '\\', '\\');
    } else if Caught(p, v) {
      var rest := Stage(p, v[2..]);
      BackslashPass(v[2..]);
      ReplaceSkip(Control(v[1]), rest, '\\', '\\', '\\');
      ReplaceSkip('\\', [Control(v[1])] + rest, '\\', '\\', '\\');
      assert ['\\', Control(v[1])] + rest == ['\\'] + ([Control(v[1])] + rest);
    } else {
      var piece, rest := Piece(p, v[0]), Stage(p, v[1..]);
      BackslashPass(v[1..]);
      if v[0] == '\\' {
        ReplaceHit(rest, '\\', '\\', '\\');
      } else {
        ReplaceSkip(piece[0], rest, '\\', '\\', '\\');
        assert piece + rest == [piece[0]] + rest;
      }
    }
  }

  /** Unescaping what was escaped, for every value. */
  lemma {:induction false} EscapeRoundTrip(v: string)
    ensures Unescape(Escape(v)) == Spoiled(v)
  {
    var p0 := Pass(false, false, false, false);
    StageStart(v);
    LetterPass(p0, 'n', v);
    LetterPass(p0.(n := true), 'r', v);
    LetterPass(p0.(n := true, r := true), 't', v);
    QuotePass(p0.(n := true, r := true, t := true), v);
    BackslashPass(v);
    hide Replace, Stage, Spoiled, Escape;
  }

  /** Values in which no backslash is directly followed by n, r or t. */
  predicate Clear(v: string) { forall i | 0 < i < |v| :: !(v[i - 1] == '\\' && Letter(v[i])) }

  lemma {:induction false} SpoiledIs(v: string)
    ensures |Spoiled(v)| == |v|
    ensures Spoiled(v) == v <==> Clear(v)
    decreases |v|
  {
    if v == "" {
    } else if Spoils(v) {
      assert Spoiled(v)[1] == Control(v[1]) != v[1];
      SpoiledIs(v[2..]);
    } else {
      SpoiledIs(v[1..]);
      assert v == [v[0]] + v[1..];
      assert Clear(v) <==> Clear(v[1..]) by {
        if Clear(v[1..]) {
          forall i | 0 < i < |v| ensures !(v[i - 1] == '\\' && Letter(v[i])) {
            if i > 1 { assert v[i] == v[1..][i - 1] && v[i - 1] == v[1..][i - 2]; }
          }
        }
        if Clear(v) {
          forall i | 0 < i < |v[1..]| ensures !(v[1..][i - 1] == '\\' && Letter(v[1..][i])) {
            assert v[i + 1] == v[1..][i] && v[i] == v[1..][i - 1];
          }
        }
      }
      assert Spoiled(v)[0] == v[0] && Spoiled(v)[1..] == Spoiled(v[1..]);
    }
  }

  /** A value of a backslash and the letter n comes back with a line feed for the letter. */
  lemma BackslashBeforeLetter()
    ensures Unescape(Escape("\\n")) == "\\\n" && !Clear("\\n")
  {
    var v := "\\n";
    EscapeRoundTrip(v);
    assert v[2..] == "" && Spoiled(v[2..]) == "";
    assert v[0] == '\\' && v[1] == 'n';
    hide Unescape, Escape;
  }
}
