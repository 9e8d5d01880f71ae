/** The lines of an env file: reading one, replacing one, saving and loading all
    (internal/accountmgr/account_store.go). */
module EnvFile {

  import opened Wrappers
  import opened Unicode
  import opened Env

  datatype Entry = Entry(key: string, val: string)

  predicate HasPrefix(s: string, t: string) { |t| <= |s| && s[..|t|] == t }

  /** Position of the first occurrence, or the length. */
  function IndexOf(s: string, c: char): (i: nat)
    ensures i <= |s| && c !in s[..i] && (i < |s| ==> s[i] == c)
  {
    if s == "" || s[0] == c then 0
    else
      var i := IndexOf(s[1..], c);
      assert s[..i + 1] == [s[0]] + s[1..][..i];
      i + 1
  }

  /** Position of the first " #", or the length. */
  function CommentAt(s: string): (i: nat)
    ensures i <= |s| && (i < |s| ==> s[i] == ' ')
  {
    if s == "" || (|s| >= 2 && s[0] == ' ' && s[1] == '#') then 0 else 1 + CommentAt(s[1..])
  }

  predicate Quoted(val: string, quote: char) {
    |val| >= 2 && val[0] == quote && val[|val| - 1] == quote
  }

  function ReadValue(rest: string): string {
    var val := Trim(rest);
    if Quoted(val, '"') then Unescape(val[1..|val| - 1])
    else if Quoted(val, '\'') then val[1..|val| - 1]
    else if CommentAt(val) < |val| then Trim(val[..CommentAt(val)])
    else val
  }

  function WithoutExport(line: string): string {
    if HasPrefix(line, "export ") then Trim(line[7..]) else line
  }

  /** parseEnvLine */
  function ParseLine(raw: string): Option<Entry> {
    var line := Trim(raw);
    if line == "" || line[0] == '#' then None
    else
      var assignment := WithoutExport(line);
      var eq := IndexOf(assignment, '=');
      if eq == |assignment| then None
      else
        var key := Trim(assignment[..eq]);
        if key == "" then None else Some(Entry(key, ReadValue(assignment[eq + 1..])))
  }

  // ---- one line ----

  /** Keys that can be read back. */
  predicate GoodKey(key: string) {
    key != "" && Trimmed(key) && '=' !in key && key[0] != '#' && !HasPrefix(key, "export ")
  }

  /** Values that can be read back. */
  predicate Survives(v: string) { if NeedsQuotes(v) then Clear(v) else Trimmed(v) }

  lemma {:induction false} FirstEquals(key: string, rest: string)
    requires '=' !in key
    ensures IndexOf(key + "=" + rest, '=') == |key|
  {
    if key == "" {
      assert key + "=" + rest == "=" + rest;
    } else {
      assert (key + "=" + rest)[1..] == key[1..] + "=" + rest;
      FirstEquals(key[1..], rest);
    }
  }

  lemma NoExport(key: string, rest: string)
    requires GoodKey(key)
    ensures !HasPrefix(key + "=" + rest, "export ")
  {
    var s := key + "=" + rest;
    assert s[|key|] == '=';
    if |key| >= 7 { assert s[..7] == key[..7]; } else if |s| >= 7 { assert s[..7][|key|] == '='; }
  }

  /** A line that needs no trimming is read as what stands on both sides of its first equals sign. */
  lemma {:induction false} ReadsSides(key: string, rest: string, raw: string)
    requires GoodKey(key) && Trim(raw) == key + "=" + rest
    ensures ParseLine(raw) == Some(Entry(key, ReadValue(rest)))
  {
    hide *;
    var s := key + "=" + rest;
    GoodKeyMeans(key);
    FirstEquals(key, rest);
    NoExport(key, rest);
    TrimIs(key);
    assert s[0] == key[0] && s[..|key|] == key && s[|key| + 1..] == rest;
    ParseIs(raw, s);
  }

  lemma GoodKeyMeans(key: string)
    requires GoodKey(key)
    ensures key != "" && key[0] != '#' && '=' !in key && Trimmed(key)
  {
  }

  lemma ParseIs(raw: string, line: string)
    requires line == Trim(raw) != "" && line[0] != '#' && !HasPrefix(line, "export ")
    requires IndexOf(line, '=') < |line| && Trim(line[..IndexOf(line, '=')]) != ""
    ensures var eq := IndexOf(line, '='); ParseLine(raw) == Some(Entry(Trim(line[..eq]), ReadValue(line[eq + 1..])))
  {
    hide Trim, ReadValue, IndexOf, HasPrefix;
  }

  lemma {:induction false} QuotedReads(body: string)
    ensures ReadValue("\"" + body + "\"") == Unescape(body)
  {
    var val := "\"" + body + "\"";
    TrimIs(val);
    assert Trimmed(val) && val[1..|val| - 1] == body;
    hide Unescape, Trim;
  }

  lemma {:induction false} QuotedLine(key: string, body: string)
    requires GoodKey(key)
    ensures ParseLine(key + "=" + ("\"" + body + "\"")) == Some(Entry(key, Unescape(body)))
  {
    var raw := key + "=" + ("\"" + body + "\"");
    assert raw[0] == key[0] && raw[|raw| - 1] == '"';
    TrimIs(raw);
    assert Trimmed(raw);
    hide Trim, ReadValue, Unescape;
    ReadsSides(key, "\"" + body + "\"", raw);
    QuotedReads(body);
  }

  lemma NoPlainSpace(v: string)
    requires forall i | 0 <= i < |v| :: v[i] != ' '
    ensures CommentAt(v) == |v|
  {
  }

  /** Trimming drops characters at the ends only. */
  lemma TrimCuts(s: string) returns (n: nat)
    ensures n + |Trim(s)| <= |s| && Trim(s) == s[n..n + |Trim(s)|]
    ensures forall i | 0 <= i < |s| && !IsSpace(s[i]) :: n <= i < n + |Trim(s)|
  {
    n := Lead(s);
    var t := TrimLeft(s);
    var k := TrailStart(t);
    hide IsSpace;
    forall i | 0 <= i < n ensures IsSpace(s[i]) { assert s[..n][i] == s[i]; }
    forall i | n + k <= i < |s| ensures IsSpace(s[i]) { assert t[k..][i - n - k] == s[i]; }
  }

  /** Part of a value that needs no quotes is read without further ado. */
  lemma {:induction false} PlainReads(v: string, j: nat)
    requires !NeedsQuotes(v) && j <= |v|
    ensures ReadValue(v[..j]) == Trim(v[..j])
  {
    var s := v[..j];
    var n := TrimCuts(s);
    hide Trim, CommentAt, IsSpace;
    var val := Trim(s);
    assert forall i | 0 <= i < |val| :: val[i] == v[n + i];
    assert forall i | 0 <= i < |val| :: val[i] != ' ' && val[i] != '"' && val[i] != '\'';
    NoPlainSpace(val);
    hide NeedsQuotes;
  }

  /** White space behind a line is trimmed before the value is looked at. */
  lemma {:induction false} TrimmedLine(key: string, v: string) returns (j: nat)
    requires GoodKey(key)
    ensures j <= |v| && Trim(key + "=" + v) == key + "=" + v[..j]
    ensures Trim(v[..j]) == Trim(v)
  {
    var raw := key + "=" + v;
    assert !IsSpace('=');
    hide IsSpace;
    assert raw[0] == key[0] && raw[|key|] == '=';
    var k := TrailStart(raw);
    assert Lead(raw) == 0 && raw[0..] == raw;
    assert forall i | k <= i < |raw| :: raw[k..][i - k] == raw[i];
    assert forall i | k <= i < |raw| :: IsSpace(raw[i]);
    j := k - |key| - 1;
    assert raw[..k] == key + "=" + v[..j];
    forall i | j <= i < |v| ensures IsSpace(v[i]) { assert v[i] == raw[|key| + 1 + i]; }
    assert j > 0 ==> v[j - 1] == raw[k - 1];
    TrimFront(v, j);
  }

  lemma TrimFront(v: string, j: nat)
    requires j <= |v| && (forall i | j <= i < |v| :: IsSpace(v[i])) && (j > 0 ==> !IsSpace(v[j - 1]))
    ensures Trim(v[..j]) == Trim(v)
  {
    hide IsSpace;
    var n, front := Lead(v), v[..j];
    if n < j {
      assert front[..n] == v[..n] && front[j..] == "";
      TrimFinds(front, n, j);
      TrimFinds(v, n, j);
      assert front[n..j] == v[n..j];
    } else {
      assert Blank(v) by {
        forall i | 0 <= i < |v| ensures IsSpace(v[i]) { if i < j { assert v[i] == v[..n][i]; } }
      }
      assert Blank(front);
      TrimIs(v);
      TrimIs(front);
    }
  }

  /** What a written value reads back as. */
  function ReadBack(v: string): string { if NeedsQuotes(v) then Spoiled(v) else Trim(v) }

  /** Behind a good key every value is read back, quoted ones as `Spoiled` says and bare ones without the white space
      around them. */
  lemma {:induction false} LineReads(key: string, v: string)
    requires GoodKey(key)
    ensures ParseLine(key + "=" + Encode(v)) == Some(Entry(key, ReadBack(v)))
  {
    if NeedsQuotes(v) {
      QuotedLine(key, Escape(v));
      EscapeRoundTrip(v);
      assert Encode(v) == "\"" + Escape(v) + "\"";
      hide ParseLine, Escape, Unescape, GoodKey, NeedsQuotes;
    } else {
      var j := TrimmedLine(key, v);
      hide Trim, GoodKey, NeedsQuotes, ReadValue, ParseLine;
      ReadsSides(key, v[..j], key + "=" + v);
      PlainReads(v, j);
    }
  }

  lemma ReadBackIs(v: string)
    ensures ReadBack(v) == v <==> Survives(v)
  {
    SpoiledIs(v);
    TrimIs(v);
    hide Spoiled, Trim, Clear, Trimmed, NeedsQuotes;
  }

  lemma GoodLine(key: string, v: string)
    requires GoodKey(key)
    ensures ParseLine(key + "=" + Encode(v)) == Some(Entry(key, v)) <==> Survives(v)
  {
    LineReads(key, v);
    ReadBackIs(v);
    hide ParseLine, GoodKey, Survives, Encode, ReadBack;
  }

  lemma ParsedKeyIs(raw: string)
    ensures ParseLine(raw).Some? ==> var k := ParseLine(raw).value.key; k != "" && Trimmed(k) && '=' !in k
  {
    var line := Trim(raw);
    var assignment := WithoutExport(line);
    var front := assignment[..IndexOf(assignment, '=')];
    var n := TrimCuts(front);
    TrimIs(front);
    hide Trim, IsSpace, WithoutExport, ReadValue, Trimmed;
  }

  lemma HashIsComment(key: string, rest: string)
    requires key != "" && key[0] == '#'
    ensures ParseLine(key + "=" + rest) == None
  {
    var raw := key + "=" + rest;
    var n := TrimCuts(raw);
    assert raw[0] == '#' && !IsSpace('#');
    assert n == 0 && Trim(raw)[0] == raw[0];
    hide Trim, IsSpace, WithoutExport, ReadValue;
  }

  /** Where an equals sign stands, a key can be no longer. */
  lemma KeyBefore(s: string, p: nat)
    requires p < |s| && s[p] == '='
    ensures |Trim(Trim(s)[..IndexOf(Trim(s), '=')])| <= p
  {
    assert !IsSpace('=');
    var m := TrimCuts(s);
    hide IsSpace, Trim, IndexOf;
    var assignment := Trim(s);
    assert assignment[p - m] == '=';
    var eq := IndexOf(assignment, '=');
    assert forall i | 0 <= i < eq :: assignment[i] == assignment[..eq][i] != '=';
    var l := TrimCuts(assignment[..eq]);
  }

  lemma ExportedLine(key: string, rest: string)
    requires HasPrefix(key, "export ")
    ensures var line := Trim(key + "=" + rest); |key| < |line| && HasPrefix(line, "export ") && line[|key|] == '='
  {
    var raw := key + "=" + rest;
    var n := TrimCuts(raw);
    assert !IsSpace('e') && !IsSpace('=');
    hide IsSpace, Trim;
    assert raw[0] == key[0] == 'e' && raw[|key|] == '=';
    assert Trim(raw)[..7] == key[..7];
  }

  lemma ExportIsDropped(key: string, rest: string)
    requires HasPrefix(key, "export ")
    ensures ParseLine(key + "=" + rest).Some? ==> |ParseLine(key + "=" + rest).value.key| < |key|
  {
    ExportedLine(key, rest);
    var line := Trim(key + "=" + rest);
    KeyBefore(line[7..], |key| - 7);
    hide Trim, ReadValue, IndexOf;
  }

  /** A key that is not good is never read back as itself. */
  lemma BadKeyLost(key: string, rest: string)
    requires !GoodKey(key)
    ensures ParseLine(key + "=" + rest).Some? ==> ParseLine(key + "=" + rest).value.key != key
  {
    ParsedKeyIs(key + "=" + rest);
    if key != "" && key[0] == '#' {
      HashIsComment(key, rest);
    } else if HasPrefix(key, "export ") {
      ExportIsDropped(key, rest);
    }
    hide ParseLine, Trimmed;
  }

  /** Writing a value behind a key and reading the line gives both back exactly for good keys and values that
      survive. */
  lemma LineRoundTrip(key: string, v: string)
    ensures ParseLine(key + "=" + Encode(v)) == Some(Entry(key, v)) <==> GoodKey(key) && Survives(v)
  {
    hide *;
    if GoodKey(key) { GoodLine(key, v); } else { BadKeyLost(key, Encode(v)); }
  }

  /** An encoded value never breaks the line it is on. */
  lemma {:induction false} OneLine(v: string)
    ensures '\n' !in Encode(v) && '\r' !in Encode(v)
  {
    if NeedsQuotes(v) { EscapeOneLine(v); }
  }

  lemma PieceOneLine(c: char)
    ensures '\n' !in EscapeChar(c) && '\r' !in EscapeChar(c)
  {
  }

  lemma {:induction false} EscapeOneLine(v: string)
    ensures '\n' !in Escape(v) && '\r' !in Escape(v)
  {
    if v != "" {
      EscapeOneLine(v[..|v| - 1]);
      PieceOneLine(v[|v| - 1]);
      hide EscapeChar;
    }
  }

  // ---- the whole file ----

  datatype EnvLine = EnvLine(raw: string, key: string, val: string)

  function EntryLine(key: string, val: string): EnvLine { EnvLine(key + "=" + Encode(val), key, val) }

  function LoadedLine(raw: string): EnvLine {
    match ParseLine(raw)
    case None => EnvLine(raw, "", "")
    case Some(e) => EnvLine(raw, e.key, e.val)
  }

  /** `fold` is the folding strings.EqualFold compares by. */
  type Fold = string -> string

  /** The first line whose key folds to the same, or the length. */
  function FirstMatch(fold: Fold, lines: seq<EnvLine>, key: string): (i: nat)
    ensures i <= |lines| && (i < |lines| ==> fold(lines[i].key) == fold(key))
    ensures forall k | 0 <= k < i :: fold(lines[k].key) != fold(key)
  {
    if lines == [] || fold(lines[0].key) == fold(key) then 0
    else
      var i := FirstMatch(fold, lines[1..], key);
      assert forall k | 0 < k < |lines| :: lines[k] == lines[1..][k - 1];
      i + 1
  }

  function Updated(fold: Fold, lines: seq<EnvLine>, key: string, val: string): seq<EnvLine> {
    var i := FirstMatch(fold, lines, key);
    if i < |lines| then lines[i := EntryLine(key, val)] else lines + [EntryLine(key, val)]
  }

  /** The value the lines give a key: the last one wins. */
  function LastValue(lines: seq<EnvLine>, key: string): Option<string> {
    if lines == [] then None
    else
      match ParseLine(lines[|lines| - 1].raw)
      case Some(e) => if e.key == key then Some(e.val) else LastValue(lines[..|lines| - 1], key)
      case None => LastValue(lines[..|lines| - 1], key)
  }

  /** Every line that can be read carries the key it is read as. */
  ghost predicate Parsed(lines: seq<EnvLine>) {
    forall i | 0 <= i < |lines| :: match ParseLine(lines[i].raw) case None => true case Some(e) => e.key == lines[i].key
  }

  class Store {
    var envLines: seq<EnvLine>

    /** loadFromEnv: `vals` is what the providers read their accounts from. */
    method Load(raws: seq<string>) returns (vals: map<string, string>)
      modifies this
      ensures envLines == seq(|raws|, i requires 0 <= i < |raws| => LoadedLine(raws[i]))
      ensures forall k :: LastValue(envLines, k) == if k in vals then Some(vals[k]) else None
      ensures Parsed(envLines)
    {
      hide ParseLine;
      vals := map[];
      envLines := [];
      for i := 0 to |raws|
        invariant envLines == seq(i, k requires 0 <= k < i => LoadedLine(raws[k]))
        invariant forall k :: LastValue(envLines, k) == if k in vals then Some(vals[k]) else None
      {
        ghost var before := envLines;
        var parsed := ParseLine(raws[i]);
        if parsed.Some? {
          envLines := envLines + [EnvLine(raws[i], parsed.value.key, parsed.value.val)];
          vals := vals[parsed.value.key := parsed.value.val];
        } else {
          envLines := envLines + [EnvLine(raws[i], "", "")];
        }
        assert envLines[..|envLines| - 1] == before;
      }
    }

    /** envSet */
    method Set(fold: Fold, key: string, val: string)
      modifies this
      ensures envLines == Updated(fold, old(envLines), key, val)
      ensures GoodKey(key) && Parsed(old(envLines)) ==> Parsed(envLines)
    {
      if GoodKey(key) && Parsed(envLines) { SetKeepsParsed(fold, envLines, key, val); }
      hide GoodKey, Parsed, ParseLine;
      var encoded := EncodeEnvValue(val);
      for i := 0 to |envLines|
        invariant envLines == old(envLines)
        invariant forall k | 0 <= k < i :: fold(envLines[k].key) != fold(key)
      {
        if fold(envLines[i].key) == fold(key) {
          envLines := envLines[i := EnvLine(key + "=" + encoded, key, val)];
          return;
        }
      }
      envLines := envLines + [EnvLine(key + "=" + encoded, key, val)];
    }

    /** saveEnv, after the accounts have been written into the lines. */
    method Save() returns (content: string)
      ensures content == Content(envLines)
    {
      content := "";
      for i := 0 to |envLines|
        invariant content == Content(envLines[..i])
      {
        assert envLines[..i + 1][..i] == envLines[..i];
        content := content + envLines[i].raw + "\n";
      }
      assert envLines[..|envLines|] == envLines;
    }
  }

  function Content(lines: seq<EnvLine>): string {
    if lines == [] then "" else Content(lines[..|lines| - 1]) + lines[|lines| - 1].raw + "\n"
  }

  /** strings.Split(content, "\n") */
  function SplitLines(s: string): (parts: seq<string>)
    ensures |parts| >= 1
  {
    if s == "" then [""]
    else if s[|s| - 1] == '\n' then SplitLines(s[..|s| - 1]) + [""]
    else
      var before := SplitLines(s[..|s| - 1]);
      before[..|before| - 1] + [before[|before| - 1] + [s[|s| - 1]]]
  }

  // ---- what holds between them ----

  lemma {:induction false} LastValueAppend(a: seq<EnvLine>, b: seq<EnvLine>, key: string)
    ensures LastValue(a + b, key) == if LastValue(b, key).Some? then LastValue(b, key) else LastValue(a, key)
  {
    hide ParseLine;
    if b == [] {
      assert a + b == a;
    } else {
      LastValueAppend(a, b[..|b| - 1], key);
      assert (a + b)[..|a + b| - 1] == a + b[..|b| - 1];
    }
  }

  lemma LastValueOne(l: EnvLine, key: string)
    ensures LastValue([l], key)
         == match ParseLine(l.raw) case Some(e) => (if e.key == key then Some(e.val) else None) case None => None
  {
    hide ParseLine;
    assert [l][..0] == [] && LastValue([], key) == None;
  }

  /** Setting a key, saving and loading: the key reads back as what a later line says, if one does, and as what the new
      value reads back as otherwise. */
  lemma {:induction false} SetThenLoad(fold: Fold, lines: seq<EnvLine>, key: string, val: string)
    requires GoodKey(key)
    ensures var i, now := FirstMatch(fold, lines, key), Updated(fold, lines, key, val);
            var later := if i < |lines| then LastValue(lines[i + 1..], key) else None;
            LastValue(now, key) == if later.Some? then later else Some(ReadBack(val))
  {
    hide *;
    var i, line := FirstMatch(fold, lines, key), EntryLine(key, val);
    EntryReads(key, val);
    LastValueOne(line, key);
    UpdatedIs(fold, lines, key, val);
    if i == |lines| {
      LastValueAppend(lines, [line], key);
    } else {
      LastValueMiddle(lines[..i], line, lines[i + 1..], key);
    }
  }

  /** The lines that setting a key leaves in place. */
  function Untouched(fold: Fold, lines: seq<EnvLine>, key: string): seq<EnvLine> {
    var i := FirstMatch(fold, lines, key);
    if i < |lines| then lines[..i] + lines[i + 1..] else lines
  }

  /** Every other key reads back as what the lines left in place say.  That is its old value whenever the two keys fold
      differently; a key that differs in case only loses the line that is overwritten. */
  lemma {:induction false} OthersAfterSet(fold: Fold, lines: seq<EnvLine>, key: string, val: string, other: string)
    requires GoodKey(key) && other != key
    ensures LastValue(Updated(fold, lines, key, val), other) == LastValue(Untouched(fold, lines, key), other)
    ensures Parsed(lines) && fold(other) != fold(key) ==>
              LastValue(Updated(fold, lines, key, val), other) == LastValue(lines, other)
  {
    hide *;
    var i, line := FirstMatch(fold, lines, key), EntryLine(key, val);
    EntryReads(key, val);
    LastValueOne(line, other);
    UpdatedIs(fold, lines, key, val);
    UntouchedIs(fold, lines, key);
    if i == |lines| {
      LastValueAppend(lines, [line], other);
    } else {
      LastValueMiddle(lines[..i], line, lines[i + 1..], other);
      LastValueAppend(lines[..i], lines[i + 1..], other);
      if Parsed(lines) && fold(other) != fold(key) {
        OtherKey(fold, lines, i, key, other);
        LastValueMiddle(lines[..i], lines[i], lines[i + 1..], other);
      }
    }
  }

  lemma UntouchedIs(fold: Fold, lines: seq<EnvLine>, key: string)
    ensures var i := FirstMatch(fold, lines, key);
            Untouched(fold, lines, key) == if i < |lines| then lines[..i] + lines[i + 1..] else lines
  {
  }

  lemma UpdatedIs(fold: Fold, lines: seq<EnvLine>, key: string, val: string)
    ensures var i, line := FirstMatch(fold, lines, key), EntryLine(key, val);
            && (i == |lines| ==> Updated(fold, lines, key, val) == lines + [line])
            && (i < |lines| ==>
                  && Updated(fold, lines, key, val) == lines[..i] + [line] + lines[i + 1..]
                  && lines == lines[..i] + [lines[i]] + lines[i + 1..])
  {
    hide EntryLine, FirstMatch;
  }

  lemma EntryReads(key: string, val: string)
    requires GoodKey(key)
    ensures ParseLine(EntryLine(key, val).raw) == Some(Entry(key, ReadBack(val))) && EntryLine(key, val).key == key
  {
    LineReads(key, val);
    hide ParseLine, GoodKey, ReadBack, Encode;
  }

  lemma OtherKey(fold: Fold, lines: seq<EnvLine>, i: nat, key: string, other: string)
    requires i < |lines| && Parsed(lines) && fold(lines[i].key) == fold(key) != fold(other)
    ensures LastValue([lines[i]], other) == None
  {
    LastValueOne(lines[i], other);
    hide ParseLine, LastValue;
  }

  lemma {:induction false} LastValueMiddle(a: seq<EnvLine>, l: EnvLine, b: seq<EnvLine>, key: string)
    ensures LastValue(a + [l] + b, key)
         == if LastValue(b, key).Some? then LastValue(b, key)
            else if LastValue([l], key).Some? then LastValue([l], key)
            else LastValue(a, key)
  {
    hide LastValue;
    LastValueAppend(a, [l], key);
    LastValueAppend(a + [l], b, key);
  }

  /** Setting keeps the lines in step with what they say. */
  lemma {:induction false} SetKeepsParsed(fold: Fold, lines: seq<EnvLine>, key: string, val: string)
    requires GoodKey(key) && Parsed(lines)
    ensures Parsed(Updated(fold, lines, key, val))
  {
    hide *;
    EntryReads(key, val);
    UpdatedOnly(fold, lines, key, val);
    ParsedUpdate(lines, Updated(fold, lines, key, val), EntryLine(key, val));
  }

  lemma UpdatedOnly(fold: Fold, lines: seq<EnvLine>, key: string, val: string)
    ensures var now := Updated(fold, lines, key, val);
            forall k | 0 <= k < |now| :: now[k] == EntryLine(key, val) || (k < |lines| && now[k] == lines[k])
  {
    hide EntryLine, FirstMatch;
  }

  lemma ParsedUpdate(lines: seq<EnvLine>, now: seq<EnvLine>, line: EnvLine)
    requires Parsed(lines) && ParseLine(line.raw).Some? && ParseLine(line.raw).value.key == line.key
    requires forall k | 0 <= k < |now| :: now[k] == line || (k < |lines| && now[k] == lines[k])
    ensures Parsed(now)
  {
    hide ParseLine;
  }

  lemma {:induction false} SplitAppend(s: string, raw: string)
    requires '\n' !in raw
    ensures SplitLines(s + raw) == SplitLines(s)[..|SplitLines(s)| - 1] + [SplitLines(s)[|SplitLines(s)| - 1] + raw]
  {
    var before := SplitLines(s);
    if raw == "" {
      assert s + raw == s && before[|before| - 1] + raw == before[|before| - 1];
    } else {
      var front, last := raw[..|raw| - 1], raw[|raw| - 1];
      SplitAppend(s, front);
      assert (s + raw)[..|s + raw| - 1] == s + front && front + [last] == raw;
      assert before[|before| - 1] + front + [last] == before[|before| - 1] + raw;
    }
  }

  function Raws(lines: seq<EnvLine>): seq<string> {
    if lines == [] then [] else Raws(lines[..|lines| - 1]) + [lines[|lines| - 1].raw]
  }

  /** Every round of saving and loading adds one empty line at the end and changes nothing else. */
  lemma {:induction false} SaveThenSplit(lines: seq<EnvLine>)
    requires forall i | 0 <= i < |lines| :: '\n' !in lines[i].raw
    ensures SplitLines(Content(lines)) == Raws(lines) + [""]
  {
    if lines != [] {
      var front, raw := lines[..|lines| - 1], lines[|lines| - 1].raw;
      SaveThenSplit(front);
      LineBreak(Content(front), Raws(front), raw);
      hide SplitLines;
    }
  }

  lemma LineBreak(s: string, raws: seq<string>, raw: string)
    requires SplitLines(s) == raws + [""] && '\n' !in raw
    ensures SplitLines(s + raw + "\n") == raws + [raw] + [""]
  {
    SplitAppend(s, raw);
    var text := s + raw;
    assert (text + "\n")[..|text|] == text;
    assert SplitLines(text) == raws + [raw] by {
      hide SplitLines;
      assert (raws + [""])[..|raws|] == raws && "" + raw == raw;
    }
  }

  /** A key that occurs twice keeps the later value when it is set. */
  lemma LaterLineWins(fold: Fold)
    ensures var lines := [EnvLine("a=1", "a", "1"), EnvLine("a=2", "a", "2")];
            Parsed(lines) && LastValue(Updated(fold, lines, "a", "3"), "a") == Some("2")
  {
    hide *;
    var one, two := EnvLine("a=1", "a", "1"), EnvLine("a=2", "a", "2");
    DigitLine('1');
    DigitLine('2');
    assert "a=" + ['1'] == "a=1" && "a=" + ['2'] == "a=2" && ['1'] == "1" && ['2'] == "2";
    ParsedTwo(one, two);
    SetThenLoad(fold, [one, two], "a", "3");
    FirstLine(fold, [one, two], "a");
    assert [one, two][1..] == [two];
    LastValueOne(two, "a");
  }

  /** A key that differs from the one that is set in case only is gone afterwards. */
  lemma CaseOverwrites(fold: Fold)
    requires fold("A") == fold("a")
    ensures var lines := [EnvLine("a=1", "a", "1")];
            && Parsed(lines) && LastValue(lines, "a") == Some("1")
            && LastValue(Updated(fold, lines, "A", "2"), "a") == None
  {
    hide *;
    var one := EnvLine("a=1", "a", "1");
    DigitLine('1');
    assert "a=" + ['1'] == "a=1" && ['1'] == "1";
    ParsedOne(one);
    LastValueOne(one, "a");
    UpperKey();
    FirstLine(fold, [one], "A");
    UntouchedIs(fold, [one], "A");
    OthersAfterSet(fold, [one], "A", "2", "a");
    NoLines("a");
    assert [one][..0] + [one][1..] == [];
  }

  lemma UpperKey()
    ensures GoodKey("A")
  {
  }

  lemma NoLines(key: string)
    ensures LastValue([], key) == None
  {
  }

  lemma DigitLine(c: char)
    requires '0' <= c <= '9'
    ensures ParseLine("a=" + [c]) == Some(Entry("a", [c])) && GoodKey("a")
  {
    hide *;
    DigitPlain(c);
    LineRoundTrip("a", [c]);
    assert "a" + "=" + [c] == "a=" + [c];
  }

  lemma DigitPlain(c: char)
    requires '0' <= c <= '9'
    ensures Encode([c]) == [c] && Survives([c]) && GoodKey("a")
  {
  }

  lemma ParsedTwo(a: EnvLine, b: EnvLine)
    requires ParseLine(a.raw) == Some(Entry(a.key, a.val)) && ParseLine(b.raw) == Some(Entry(b.key, b.val))
    ensures Parsed([a, b])
  {
    hide ParseLine;
  }

  lemma ParsedOne(a: EnvLine)
    requires ParseLine(a.raw) == Some(Entry(a.key, a.val))
    ensures Parsed([a])
  {
    hide ParseLine;
  }

  lemma FirstLine(fold: Fold, lines: seq<EnvLine>, key: string)
    requires lines != [] && fold(lines[0].key) == fold(key)
    ensures FirstMatch(fold, lines, key) == 0
  {
  }
}
