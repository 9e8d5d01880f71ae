/** Turning the aligned slots of one line into timed syllables
    (internal/providers/qaple.go, buildSyllabus and its helpers). */
module Syllabus {
  import opened Wrappers
  import opened Utf8
  import opened Rounding
  import opened Alignment

  datatype Syllable = Syllable(text: string, time: int, duration: int, synthetic: bool)

  /** Start and duration of a token, when it has any. */
  type Timing = Option<(int, int)>

  // ---- ink: text up to spaces ---------------------------------------------------

  function Squeeze(s: string): string {
    if s == "" then "" else Squeeze(s[..|s| - 1]) + if s[|s| - 1] == ' ' then "" else [s[|s| - 1]]
  }

  lemma {:induction false} SqueezeAppend(s: string, t: string)
    ensures Squeeze(s + t) == Squeeze(s) + Squeeze(t)
  {
    if t == "" {
      assert s + t == s;
    } else {
      SqueezeAppend(s, t[..|t| - 1]);
      assert (s + t)[..|s + t| - 1] == s + t[..|t| - 1];
    }
  }

  function Join(parts: seq<string>): string {
    if parts == [] then "" else Join(parts[..|parts| - 1]) + parts[|parts| - 1]
  }

  lemma {:induction false} JoinAppend(xs: seq<string>, ys: seq<string>)
    ensures Join(xs + ys) == Join(xs) + Join(ys)
  {
    if ys == [] {
      assert xs + ys == xs;
    } else {
      JoinAppend(xs, ys[..|ys| - 1]);
      assert (xs + ys)[..|xs + ys| - 1] == xs + ys[..|ys| - 1];
    }
  }

  function Texts(tokens: seq<AppleToken>): seq<string> {
    seq(|tokens|, i requires 0 <= i < |tokens| => tokens[i].text)
  }

  function SyllableTexts(s: seq<Syllable>): seq<string> {
    seq(|s|, i requires 0 <= i < |s| => s[i].text)
  }

  /** The characters of a list of texts that are not spaces, in order. */
  function Ink(parts: seq<string>): string { Squeeze(Join(parts)) }

  lemma InkAppend(xs: seq<string>, ys: seq<string>)
    ensures Ink(xs + ys) == Ink(xs) + Ink(ys)
  {
    JoinAppend(xs, ys);
    SqueezeAppend(Join(xs), Join(ys));
  }

  lemma JoinSnoc(xs: seq<string>, x: string)
    ensures Join(xs + [x]) == Join(xs) + x
  {
    assert (xs + [x])[..|xs|] == xs;
  }

  lemma InkSnoc(xs: seq<string>, x: string)
    ensures Ink(xs + [x]) == Ink(xs) + Squeeze(x)
  {
    JoinSnoc(xs, x);
    SqueezeAppend(Join(xs), x);
  }

  lemma InkOne(x: string)
    ensures Join([x]) == x && Ink([x]) == Squeeze(x)
  {
    JoinSnoc([], x);
    assert [] + [x] == [x];
  }

  /** Spaces carry no ink. */
  lemma SpaceInk(sep: string, x: string)
    requires sep == "" || sep == " "
    ensures Squeeze(sep + x) == Squeeze(x) == Squeeze(x + sep)
  {
    SqueezeAppend(sep, x);
    SqueezeAppend(x, sep);
    assert sep == " " ==> sep[..0] == "";
  }

  lemma TextsSnoc(tokens: seq<AppleToken>, t: AppleToken)
    ensures Texts(tokens + [t]) == Texts(tokens) + [t.text]
  {
  }

  // ---- splitting and fusing words -------------------------------------------------

  predicate IsTrailing(c: char) {
    c in [',', '.', '\t', '\n', '\U{000C}', '\r', ' ', '!', '?', '\U{00BB}', '\U{00AB}',
          '"', '\'', '(', ')', '[', ']', '{', '}']
  }

  /** Where the trailing punctuation of a word starts. */
  function PunctuationStart(s: string): (n: nat)
    ensures n <= |s|
  {
    if s != "" && IsTrailing(s[|s| - 1]) then PunctuationStart(s[..|s| - 1]) else |s|
  }

  /** Where the part of a word that is cut ends: before the trailing punctuation, or nowhere when the rest spans
      lines. */
  function CutAt(text: string): (n: nat)
    ensures n <= |text|
  {
    var cut := PunctuationStart(text);
    if '\n' in text[..cut] then |text| else cut
  }

  /** Pieces as long as the norms; the last one takes what is left. */
  function PiecesOf(base: string, trail: string, norms: seq<string>): (parts: seq<string>)
    requires norms != []
    ensures 1 <= |parts| <= |norms|
  {
    if |norms| == 1 || base == "" then [base + trail]
    else
      var n := if |base| < |norms[0]| then |base| else |norms[0]|;
      [base[..n]] + PiecesOf(base[n..], trail, norms[1..])
  }

  function WordPieces(text: string, norms: seq<string>): seq<string> {
    if |norms| <= 1 then [text] else PiecesOf(text[..CutAt(text)], text[CutAt(text)..], norms)
  }

  lemma {:induction false} PiecesJoin(base: string, trail: string, norms: seq<string>)
    requires norms != []
    ensures Join(PiecesOf(base, trail, norms)) == base + trail
    ensures forall i | 0 <= i < |PiecesOf(base, trail, norms)| - 1 :: |PiecesOf(base, trail, norms)[i]| <= |norms[i]|
    ensures forall i | 0 <= i < |PiecesOf(base, trail, norms)| - 2 :: |PiecesOf(base, trail, norms)[i]| == |norms[i]|
    decreases |norms|
  {
    hide Join;
    if |norms| == 1 || base == "" {
      InkOne(base + trail);
    } else {
      var n := if |base| < |norms[0]| then |base| else |norms[0]|;
      var rest := PiecesOf(base[n..], trail, norms[1..]);
      PiecesJoin(base[n..], trail, norms[1..]);
      JoinAppend([base[..n]], rest);
      InkOne(base[..n]);
      Rejoin(base, trail, n);
      var all := [base[..n]] + rest;
      assert forall i | 0 < i < |all| :: all[i] == rest[i - 1] && norms[i] == norms[1..][i - 1];
      if |base| < |norms[0]| { assert base[n..] == "" && |rest| == 1; }
    }
  }

  method CutPieces(base: string, trail: string, norms: seq<string>) returns (parts: seq<string>)
    requires norms != []
    ensures parts == PiecesOf(base, trail, norms)
  {
    hide *;
    parts := [];
    var pos, i := 0, 0;
    assert base[0..] == base && norms[0..] == norms;
    while !(i == |norms| - 1 || pos >= |base|)
      invariant 0 <= i < |norms| && 0 <= pos <= |base|
      invariant parts + PiecesOf(base[pos..], trail, norms[i..]) == PiecesOf(base, trail, norms)
      decreases |norms| - i
    {
      var length := |norms[i]|;
      if |base| - pos < length { length := |base| - pos; }
      PiecesStep(base, trail, norms, pos, i, length);
      parts := parts + [base[pos..pos + length]];
      pos, i := pos + length, i + 1;
    }
    PiecesEnd(base[pos..], trail, norms[i..]);
    parts := parts + [base[pos..] + trail];
  }

  /** Cuts a word into pieces as long as the norms it was matched with; the last piece takes the rest. */
  method SplitWordByNorms(text: string, norms: seq<string>) returns (parts: seq<string>)
    ensures parts == WordPieces(text, norms)
    ensures Join(parts) == text && 1 <= |parts| <= (if |norms| > 0 then |norms| else 1)
    ensures forall i | 0 <= i < |parts| - 1 :: |parts[i]| <= |norms[i]|
    ensures forall i | 0 <= i < |parts| - 2 :: |parts[i]| == |norms[i]|
  {
    hide *;
    WordPiecesAre(text, norms);
    if |norms| <= 1 {
      parts := [text];
      return;
    }
    var cut := PunctuationStart(text);
    if '\n' in text[..cut] { cut := |text|; }
    CutIs(text, cut);
    parts := CutPieces(text[..cut], text[cut..], norms);
  }

  lemma CutIs(text: string, cut: nat)
    requires cut == if '\n' in text[..PunctuationStart(text)] then |text| else PunctuationStart(text)
    ensures CutAt(text) == cut
  {
  }

  lemma WordPiecesAre(text: string, norms: seq<string>)
    ensures var parts := WordPieces(text, norms);
            && parts == (if |norms| <= 1 then [text] else PiecesOf(text[..CutAt(text)], text[CutAt(text)..], norms))
            && Join(parts) == text && 1 <= |parts| <= (if |norms| > 0 then |norms| else 1)
            && (forall i | 0 <= i < |parts| - 1 :: |parts[i]| <= |norms[i]|)
            && (forall i | 0 <= i < |parts| - 2 :: |parts[i]| == |norms[i]|)
  {
    hide Join, CutAt, PiecesOf;
    if |norms| <= 1 {
      InkOne(text);
    } else {
      var cut := CutAt(text);
      PiecesJoin(text[..cut], text[cut..], norms);
      assert text[..cut] + text[cut..] == text;
    }
  }

  lemma PiecesStep(base: string, trail: string, norms: seq<string>, pos: nat, i: nat, length: nat)
    requires i < |norms| - 1 && pos < |base|
    requires length == (if |base| - pos < |norms[i]| then |base| - pos else |norms[i]|)
    ensures PiecesOf(base[pos..], trail, norms[i..])
         == [base[pos..pos + length]] + PiecesOf(base[pos + length..], trail, norms[i + 1..])
  {
    var b, ns := base[pos..], norms[i..];
    assert ns[0] == norms[i] && ns[1..] == norms[i + 1..];
    assert b[..length] == base[pos..pos + length] && b[length..] == base[pos + length..];
  }

  lemma PiecesEnd(base: string, trail: string, norms: seq<string>)
    requires norms != [] && (|norms| == 1 || base == "")
    ensures PiecesOf(base, trail, norms) == [base + trail]
  {
  }

  lemma Rejoin(base: string, trail: string, pos: nat)
    requires pos <= |base|
    ensures base[..pos] + (base[pos..] + trail) == base + trail
  {
  }

  lemma JoinNothing()
    ensures Join([]) == ""
  {
  }

  /** Tokens fused into one text, with a space behind every word end. */
  function Merged(tokens: seq<AppleToken>): string
    requires tokens != []
  {
    if |tokens| == 1 then tokens[0].text
    else
      var front := tokens[..|tokens| - 1];
      Merged(front) + ((if front[|front| - 1].wordFinal then " " else "") + tokens[|tokens| - 1].text)
  }

  method BuildMergedText(tokens: seq<AppleToken>, start: nat, count: nat) returns (s: string)
    requires 1 <= count && start + count <= |tokens|
    ensures s == Merged(tokens[start..start + count])
    ensures Squeeze(s) == Ink(Texts(tokens[start..start + count]))
  {
    hide Ink, Squeeze;
    s := tokens[start].text;
    assert Texts(tokens[start..start + 1]) == [s];
    InkOne(s);
    for k := 1 to count
      invariant s == Merged(tokens[start..start + k])
      invariant Squeeze(s) == Ink(Texts(tokens[start..start + k]))
    {
      var sep := if tokens[start + k - 1].wordFinal then " " else "";
      var x := tokens[start + k];
      SqueezeAppend(s, sep + x.text);
      SpaceInk(sep, x.text);
      InkSnoc(Texts(tokens[start..start + k]), x.text);
      TextsSnoc(tokens[start..start + k], x);
      assert tokens[start..start + k + 1] == tokens[start..start + k] + [x];
      assert tokens[start..start + k + 1][..k] == tokens[start..start + k];
      s := s + (sep + x.text);
    }
  }

  // ---- phase one: one entry per syllable -------------------------------------------

  /** The timings present, left to right. */
  function Present(times: seq<Timing>): seq<(int, int)> {
    if times == [] then []
    else Present(times[..|times| - 1]) + match times[|times| - 1] case Some(t) => [t] case None => []
  }

  lemma {:induction false} PresentAppend(xs: seq<Timing>, ys: seq<Timing>)
    ensures Present(xs + ys) == Present(xs) + Present(ys)
  {
    if ys == [] {
      assert xs + ys == xs;
    } else {
      PresentAppend(xs, ys[..|ys| - 1]);
      assert (xs + ys)[..|xs + ys| - 1] == xs + ys[..|ys| - 1];
    }
  }

  lemma {:induction false} PresentAll(ts: seq<(int, int)>)
    ensures Present(seq(|ts|, i requires 0 <= i < |ts| => Some(ts[i]))) == ts
  {
    var times := seq(|ts|, i requires 0 <= i < |ts| => Some(ts[i]));
    if ts != [] {
      var front := ts[..|ts| - 1];
      PresentAll(front);
      assert times[..|times| - 1] == seq(|front|, i requires 0 <= i < |front| => Some(front[i]));
      assert front + [ts[|ts| - 1]] == ts;
    }
  }

  function Norms(parts: seq<PartTiming>): seq<string> { seq(|parts|, k requires 0 <= k < |parts| => parts[k].norm) }

  /** The pieces of one token fused from several timed tokens; timed tokens without a piece get an empty text. */
  function PartToken(pieces: seq<string>, parts: seq<PartTiming>, k: nat): AppleToken
    requires k < |parts|
  {
    AppleToken(if k < |pieces| then pieces[k] else "", parts[k].norm, k == |parts| - 1)
  }

  function PartTokens(tok: AppleToken, parts: seq<PartTiming>): seq<AppleToken> {
    var pieces := WordPieces(tok.text, Norms(parts));
    seq(|parts|, k requires 0 <= k < |parts| => PartToken(pieces, parts, k))
  }

  function PartTimes(parts: seq<PartTiming>): seq<Timing> {
    seq(|parts|, k requires 0 <= k < |parts| => Some((parts[k].time, parts[k].duration)))
  }

  method ExpandParts(tok: AppleToken, parts: seq<PartTiming>) returns (toks: seq<AppleToken>, times: seq<Timing>)
    requires parts != []
    ensures toks == PartTokens(tok, parts) && times == PartTimes(parts)
    ensures |toks| == |times| == |parts| && Ink(Texts(toks)) == Squeeze(tok.text)
    ensures Present(times) == SlotUses(Some(MatchItem(0, 0, parts, 0, false)))
  {
    hide Join, Squeeze, Present, WordPieces;
    var norms := Norms(parts);
    var textParts := SplitWordByNorms(tok.text, norms);
    toks, times := [], [];
    JoinNothing();
    assert Texts(toks) == [] == textParts[..0];
    for k := 0 to |parts|
      invariant |toks| == |times| == k
      invariant Join(Texts(toks)) == Join(textParts[..if k < |textParts| then k else |textParts|])
      invariant forall i | 0 <= i < k :: toks[i] == PartToken(textParts, parts, i)
      invariant forall i | 0 <= i < k :: times[i] == Some((parts[i].time, parts[i].duration))
    {
      var tok := PartToken(textParts, parts, k);
      TextsSnoc(toks, tok);
      JoinSnoc(Texts(toks), tok.text);
      if k < |textParts| {
        JoinSnoc(textParts[..k], tok.text);
        assert textParts[..k + 1] == textParts[..k] + [tok.text];
      } else {
        assert Join(Texts(toks)) + "" == Join(Texts(toks));
      }
      toks, times := toks + [tok], times + [Some((parts[k].time, parts[k].duration))];
    }
    assert textParts[..|textParts|] == textParts;
    ghost var uses := SlotUses(Some(MatchItem(0, 0, parts, 0, false)));
    PresentAll(uses);
    assert times == seq(|uses|, i requires 0 <= i < |uses| => Some(uses[i]));
  }

  lemma {:induction false} AbsorbedUses(slots: seq<Slot>)
    requires forall i | 0 <= i < |slots| :: slots[i] == Some(ABSORBED)
    ensures Uses(slots) == []
  {
    if slots != [] {
      AbsorbedUses(slots[1..]);
    }
  }

  lemma AbsorbedThen(head: Slot, absorbed: seq<Slot>, rest: seq<Slot>)
    requires forall i | 0 <= i < |absorbed| :: absorbed[i] == Some(ABSORBED)
    ensures Uses([head] + absorbed + rest) == SlotUses(head) + Uses(rest)
  {
    hide SlotUses;
    var slots := [head] + absorbed + rest;
    AbsorbedUses(absorbed);
    UsesAppend(absorbed, rest);
    assert slots[0] == head && slots[1..] == absorbed + rest;
    assert [] + Uses(rest) == Uses(rest);
  }

  /** How many slots the first slot of a line speaks for. */
  function HeadSpan(m: Slot): (n: nat)
    ensures n >= 1
  {
    if m.Some? && m.value.mergeCount > 1 then m.value.mergeCount else 1
  }

  lemma HeadShape(slots: seq<Slot>)
    requires slots != [] && WellFormed(slots)
    ensures HeadSpan(slots[0]) <= |slots| && WellFormed(slots[HeadSpan(slots[0])..])
    ensures slots[0].Some? ==> !slots[0].value.absorbed && (HeadSpan(slots[0]) > 1 ==> slots[0].value.parts == [])
    ensures forall k | 1 <= k < HeadSpan(slots[0]) :: slots[k] == Some(ABSORBED)
  {
  }

  lemma HeadSplits(slots: seq<Slot>, n: nat)
    requires 1 <= n <= |slots|
    ensures [slots[0]] + slots[1..n] + slots[n..] == slots
  {
  }

  /** What a merge head and its followers use. */
  lemma HeadUses(slots: seq<Slot>)
    requires slots != [] && HeadSpan(slots[0]) <= |slots|
    requires forall k | 1 <= k < HeadSpan(slots[0]) :: slots[k] == Some(ABSORBED)
    ensures Uses(slots) == SlotUses(slots[0]) + Uses(slots[HeadSpan(slots[0])..])
  {
    hide *;
    var n := HeadSpan(slots[0]);
    HeadSplits(slots, n);
    forall i | 0 <= i < n - 1 ensures slots[1..n][i] == Some(ABSORBED) {
      assert slots[1..n][i] == slots[1 + i];
    }
    AbsorbedThen(slots[0], slots[1..n], slots[n..]);
  }

  datatype Entries = Entries(toks: seq<AppleToken>, times: seq<Timing>)
  {
    function Then(more: Entries): Entries { Entries(toks + more.toks, times + more.times) }
  }

  /** What the first slot of a line becomes. */
  function HeadEntries(tokens: seq<AppleToken>, m: Slot, norm: string -> string): Entries
    requires tokens != [] && HeadSpan(m) <= |tokens|
  {
    var n := HeadSpan(m);
    if n > 1 then
      var text := Merged(tokens[..n]);
      Entries([AppleToken(text, norm(text), tokens[n - 1].wordFinal)], [Some((m.value.time, m.value.duration))])
    else if m.Some? && m.value.parts != [] then Entries(PartTokens(tokens[0], m.value.parts), PartTimes(m.value.parts))
    else Entries([tokens[0]], [if m.Some? then Some((m.value.time, m.value.duration)) else None])
  }

  /** One entry for each untouched token, each merged group and each part of a fused token. */
  ghost function Expanded(tokens: seq<AppleToken>, matches: seq<Slot>, norm: string -> string): Entries
    requires |tokens| == |matches| && WellFormed(matches)
    decreases |matches|
  {
    if matches == [] then Entries([], [])
    else
      HeadShape(matches);
      var n := HeadSpan(matches[0]);
      HeadEntries(tokens, matches[0], norm).Then(Expanded(tokens[n..], matches[n..], norm))
  }

  /** One token or one merge head, expanded. */
  method ExpandSlot(tokens: seq<AppleToken>, matches: seq<Slot>, i: nat, norm: string -> string)
    returns (toks: seq<AppleToken>, times: seq<Timing>, n: nat)
    requires |tokens| == |matches| && i < |matches| && WellFormed(matches[i..])
    ensures |toks| == |times| && i + n <= |tokens| && n == HeadSpan(matches[i]) >= 1 && WellFormed(matches[i + n..])
    ensures Entries(toks, times) == HeadEntries(tokens[i..], matches[i], norm)
    ensures Ink(Texts(toks)) == Ink(Texts(tokens[i..i + n]))
    ensures Uses(matches[i..]) == Present(times) + Uses(matches[i + n..])
  {
    hide Uses, Ink, Present, WellFormed, Merged, PartTokens, PartTimes, Squeeze;
    var tok, m := tokens[i], matches[i];
    assert matches[i..][0] == m && tokens[i..][0] == tok;
    HeadShape(matches[i..]);
    HeadUses(matches[i..]);
    n := 1;
    if m.Some? && m.value.mergeCount > 1 {
      n := m.value.mergeCount;
      assert matches[i..][n..] == matches[i + n..] && tokens[i..][..n] == tokens[i..i + n];
      var text := BuildMergedText(tokens, i, n);
      toks := [AppleToken(text, norm(text), tokens[i + n - 1].wordFinal)];
      times := [Some((m.value.time, m.value.duration))];
      assert Texts(toks) == [text];
      InkOne(text);
      PresentOne(times[0]);
      return;
    }
    assert matches[i..][1..] == matches[i + 1..];
    assert Texts(tokens[i..i + 1]) == [tok.text];
    InkOne(tok.text);
    if m.Some? && m.value.parts != [] {
      toks, times := ExpandParts(tok, m.value.parts);
    } else {
      toks := [tok];
      times := [if m.Some? then Some((m.value.time, m.value.duration)) else None];
      assert Texts(toks) == [tok.text];
      PresentOne(times[0]);
    }
  }

  lemma PresentOne(t: Timing)
    ensures Present([t]) == match t case Some(x) => [x] case None => []
  {
    assert [t][..0] == [];
  }

  lemma ExpandedStep(tokens: seq<AppleToken>, matches: seq<Slot>, i: nat, norm: string -> string)
    requires |tokens| == |matches| && i < |matches| && WellFormed(matches[i..])
    ensures HeadSpan(matches[i]) <= |matches| - i && WellFormed(matches[i + HeadSpan(matches[i])..])
    ensures var n := HeadSpan(matches[i]);
            Expanded(tokens[i..], matches[i..], norm)
            == HeadEntries(tokens[i..], matches[i], norm).Then(Expanded(tokens[i + n..], matches[i + n..], norm))
  {
    HeadShape(matches[i..]);
    var n := HeadSpan(matches[i]);
    assert matches[i..][0] == matches[i] && matches[i..][n..] == matches[i + n..];
    assert tokens[i..][n..] == tokens[i + n..];
    hide WellFormed, HeadEntries;
  }

  lemma ExpandedNothing(norm: string -> string)
    ensures WellFormed([]) && Expanded([], [], norm) == Entries([], [])
  {
  }

  method Expand(tokens: seq<AppleToken>, matches: seq<Slot>, norm: string -> string)
    returns (toks: seq<AppleToken>, times: seq<Timing>)
    requires |tokens| == |matches| && WellFormed(matches)
    ensures Entries(toks, times) == Expanded(tokens, matches, norm)
    ensures |toks| == |times| && Ink(Texts(toks)) == Ink(Texts(tokens)) && Present(times) == Uses(matches)
  {
    hide Ink, Present, Uses, WellFormed, Expanded, HeadEntries;
    toks, times := [], [];
    var i := 0;
    assert matches[0..] == matches && tokens[0..] == tokens && Texts(toks) == Texts(tokens[..0]);
    assert Present([]) + Uses(matches) == Uses(matches) by { PresentAppend([], []); PresentNothing(); }
    while i < |tokens|
      invariant 0 <= i <= |tokens| && |toks| == |times| && WellFormed(matches[i..])
      invariant Entries(toks, times).Then(Expanded(tokens[i..], matches[i..], norm)) == Expanded(tokens, matches, norm)
      invariant Ink(Texts(toks)) == Ink(Texts(tokens[..i]))
      invariant Present(times) + Uses(matches[i..]) == Uses(matches)
    {
      var more, moreTimes, n := ExpandSlot(tokens, matches, i, norm);
      ExpandedStep(tokens, matches, i, norm);
      ghost var rest := Expanded(tokens[i + n..], matches[i + n..], norm);
      assert toks + (more + rest.toks) == toks + more + rest.toks;
      assert times + (moreTimes + rest.times) == times + moreTimes + rest.times;
      InkAppend(Texts(toks), Texts(more));
      InkAppend(Texts(tokens[..i]), Texts(tokens[i..i + n]));
      PresentAppend(times, moreTimes);
      assert Texts(toks + more) == Texts(toks) + Texts(more);
      assert Texts(tokens[..i + n]) == Texts(tokens[..i]) + Texts(tokens[i..i + n]);
      ghost var later := Uses(matches[i + n..]);
      assert Present(times) + (Present(moreTimes) + later) == (Present(times) + Present(moreTimes)) + later;
      toks, times, i := toks + more, times + moreTimes, i + n;
    }
    assert tokens[..i] == tokens && tokens[i..] == [] && matches[i..] == [];
    ExpandedNothing(norm);
    assert Uses([]) == [] by { UsesNothing(); }
    assert toks + [] == toks && times + [] == times && Present(times) + [] == Present(times);
  }

  lemma PresentNothing()
    ensures Present([]) == []
  {
  }

  lemma UsesNothing()
    ensures Uses([]) == []
  {
  }

  // ---- phase two: anchoring untimed runs on leftover timed tokens ---------------------

  function LastSeq(chosen: seq<Option<QQToken>>): int {
    if chosen == [] then -1
    else if chosen[|chosen| - 1].Some? then chosen[|chosen| - 1].value.seqIdx
    else LastSeq(chosen[..|chosen| - 1])
  }

  /** The leftovers close enough to a gap. */
  function Gap(residuals: seq<QQToken>, leftEnd: int, rightStart: int): seq<QQToken> {
    if residuals == [] then []
    else
      var r := residuals[|residuals| - 1];
      Gap(residuals[..|residuals| - 1], leftEnd, rightStart)
      + if leftEnd - 80 <= r.time <= rightStart + 80 then [r] else []
  }

  function TimingOf(c: Option<QQToken>): Timing {
    match c case Some(r) => Some((r.time, r.duration)) case None => None
  }

  /** `c` is a best-scoring leftover past `minSeq`, or no leftover past it scores above 0.55. */
  ghost predicate BestPick(norm: string, c: Option<QQToken>, minSeq: int, inGap: seq<QQToken>, sim: Similarity) {
    && (c.Some? ==> c.value in inGap && c.value.seqIdx > minSeq && sim(norm, c.value.norm) > 0.55)
    && forall r | r in inGap && r.seqIdx > minSeq ::
         sim(norm, r.norm) <= if c.Some? then sim(norm, c.value.norm) else 0.55
  }

  /** Position `i` holds the first of the best-scoring leftovers past `minSeq`, and it scores above 0.55. */
  predicate FirstBest(norm: string, inGap: seq<QQToken>, i: nat, minSeq: int, sim: Similarity)
    requires i < |inGap|
  {
    && inGap[i].seqIdx > minSeq && sim(norm, inGap[i].norm) > 0.55
    && (forall j | 0 <= j < |inGap| && inGap[j].seqIdx > minSeq :: sim(norm, inGap[j].norm) <= sim(norm, inGap[i].norm))
    && (forall j | 0 <= j < i && inGap[j].seqIdx > minSeq :: sim(norm, inGap[j].norm) < sim(norm, inGap[i].norm))
  }

  ghost function Pick(norm: string, inGap: seq<QQToken>, minSeq: int, sim: Similarity): Option<QQToken> {
    if i: nat :| i < |inGap| && FirstBest(norm, inGap, i, minSeq, sim) then Some(inGap[i]) else None
  }

  /** The leftovers a run takes: each token the best one after the one taken before it. */
  ghost function Picks(run: seq<AppleToken>, inGap: seq<QQToken>, sim: Similarity): (c: seq<Option<QQToken>>)
    ensures |c| == |run|
  {
    if run == [] then []
    else
      var before := Picks(run[..|run| - 1], inGap, sim);
      before + [Pick(run[|run| - 1].norm, inGap, LastSeq(before), sim)]
  }

  lemma PickIs(norm: string, inGap: seq<QQToken>, i: nat, minSeq: int, sim: Similarity)
    requires i < |inGap| && FirstBest(norm, inGap, i, minSeq, sim)
    ensures Pick(norm, inGap, minSeq, sim) == Some(inGap[i])
  {
    var k: nat :| k < |inGap| && FirstBest(norm, inGap, k, minSeq, sim)
                  && Pick(norm, inGap, minSeq, sim) == Some(inGap[k]);
    OneBest(norm, inGap, i, k, minSeq, sim);
  }

  lemma OneBest(norm: string, inGap: seq<QQToken>, i: nat, k: nat, minSeq: int, sim: Similarity)
    requires i < |inGap| && FirstBest(norm, inGap, i, minSeq, sim)
    requires k < |inGap| && FirstBest(norm, inGap, k, minSeq, sim)
    ensures i == k
  {
    var x, y := inGap[i], inGap[k];
    assert sim(norm, x.norm) <= sim(norm, y.norm) && sim(norm, y.norm) <= sim(norm, x.norm);
  }

  lemma PickIsNone(norm: string, inGap: seq<QQToken>, minSeq: int, sim: Similarity)
    requires forall j | 0 <= j < |inGap| && inGap[j].seqIdx > minSeq :: sim(norm, inGap[j].norm) <= 0.55
    ensures Pick(norm, inGap, minSeq, sim) == None
  {
  }

  /** What is picked is best: nothing past `minSeq` scores higher, or nothing scores above 0.55. */
  lemma PickIsBest(norm: string, inGap: seq<QQToken>, minSeq: int, sim: Similarity)
    ensures BestPick(norm, Pick(norm, inGap, minSeq, sim), minSeq, inGap, sim)
  {
    var best: Option<nat> := None;
    for i := 0 to |inGap|
      invariant best.None? ==> forall j | 0 <= j < i && inGap[j].seqIdx > minSeq :: sim(norm, inGap[j].norm) <= 0.55
      invariant best.Some? ==>
              best.value < i && inGap[best.value].seqIdx > minSeq && sim(norm, inGap[best.value].norm) > 0.55
      invariant best.Some? ==> forall j | 0 <= j < i && inGap[j].seqIdx > minSeq ::
                                 sim(norm, inGap[j].norm) <= sim(norm, inGap[best.value].norm)
      invariant best.Some? ==> forall j | 0 <= j < best.value && inGap[j].seqIdx > minSeq ::
                                 sim(norm, inGap[j].norm) < sim(norm, inGap[best.value].norm)
    {
      if inGap[i].seqIdx > minSeq
         && sim(norm, inGap[i].norm) > (if best.Some? then sim(norm, inGap[best.value].norm) else 0.55) {
        best := Some(i);
      }
    }
    if best.Some? { PickIs(norm, inGap, best.value, minSeq, sim); } else { PickIsNone(norm, inGap, minSeq, sim); }
  }

  method BestLeftover(norm: string, inGap: seq<QQToken>, used: set<nat>, minSeq: int, sim: Similarity)
    returns (best: Option<nat>)
    requires UsedUp(used, inGap, minSeq)
    ensures best.Some? ==> best.value < |inGap| && inGap[best.value].seqIdx > minSeq
    ensures Pick(norm, inGap, minSeq, sim) == if best.Some? then Some(inGap[best.value]) else None
  {
    var bestSim := 0.55;
    best := None;
    for i := 0 to |inGap|
      invariant best.None? ==> bestSim == 0.55
      invariant best.Some? ==>
              best.value < i && inGap[best.value].seqIdx > minSeq && bestSim == sim(norm, inGap[best.value].norm) > 0.55
      invariant best.Some? ==> forall j | 0 <= j < best.value && inGap[j].seqIdx > minSeq ::
              sim(norm, inGap[j].norm) < bestSim
      invariant forall j | 0 <= j < i && inGap[j].seqIdx > minSeq :: sim(norm, inGap[j].norm) <= bestSim
    {
      if i in used || inGap[i].seqIdx <= minSeq { continue; }
      var score := sim(norm, inGap[i].norm);
      if score > bestSim {
        bestSim, best := score, Some(i);
      }
    }
    if best.Some? { PickIs(norm, inGap, best.value, minSeq, sim); } else { PickIsNone(norm, inGap, minSeq, sim); }
  }

  function TimingsOf(chosen: seq<Option<QQToken>>): seq<Timing> {
    seq(|chosen|, k requires 0 <= k < |chosen| => TimingOf(chosen[k]))
  }

  method GapOf(residuals: seq<QQToken>, leftEnd: int, rightStart: int) returns (inGap: seq<QQToken>)
    ensures inGap == Gap(residuals, leftEnd, rightStart)
  {
    inGap := [];
    for i := 0 to |residuals|
      invariant inGap == Gap(residuals[..i], leftEnd, rightStart)
    {
      assert residuals[..i + 1][..i] == residuals[..i];
      if leftEnd - 80 <= residuals[i].time <= rightStart + 80 {
        inGap := inGap + [residuals[i]];
      }
    }
    assert residuals[..|residuals|] == residuals;
  }

  /** Greedy, left to right, never stepping back in the pool: each token of the run takes the best
      leftover after the one taken before it. */
  method AnchorRun(run: seq<AppleToken>, residuals: seq<QQToken>, leftEnd: int, rightStart: int, sim: Similarity)
    returns (result: seq<Timing>)
    ensures result == TimingsOf(Picks(run, Gap(residuals, leftEnd, rightStart), sim))
  {
    hide *;
    var inGap := GapOf(residuals, leftEnd, rightStart);
    var used: set<nat>, minSeq: int := {}, -1;
    ghost var chosen: seq<Option<QQToken>> := [];
    result := [];
    PicksOfNothing(inGap, sim);
    assert run[..0] == [];
    for k := 0 to |run|
      invariant chosen == Picks(run[..k], inGap, sim) && minSeq == LastSeq(chosen) && result == TimingsOf(chosen)
      invariant UsedUp(used, inGap, minSeq)
    {
      var best := BestLeftover(run[k].norm, inGap, used, minSeq, sim);
      var c := if best.Some? then Some(inGap[best.value]) else None;
      PicksStep(run, k, inGap, sim);
      ChosenStep(chosen, c);
      result := result + [if best.Some? then Some((inGap[best.value].time, inGap[best.value].duration)) else None];
      chosen := chosen + [c];
      if best.Some? {
        UseUp(used, inGap, minSeq, best.value);
        minSeq, used := inGap[best.value].seqIdx, used + {best.value};
      }
    }
    assert run[..|run|] == run;
  }

  /** The used leftovers all lie at or before the last one taken. */
  predicate UsedUp(used: set<nat>, inGap: seq<QQToken>, minSeq: int) {
    forall i | i in used :: i < |inGap| && inGap[i].seqIdx <= minSeq
  }

  lemma UseUp(used: set<nat>, inGap: seq<QQToken>, minSeq: int, i: nat)
    requires UsedUp(used, inGap, minSeq) && i < |inGap| && inGap[i].seqIdx > minSeq
    ensures UsedUp(used + {i}, inGap, inGap[i].seqIdx)
  {
  }

  lemma PicksOfNothing(inGap: seq<QQToken>, sim: Similarity)
    ensures Picks([], inGap, sim) == [] && LastSeq([]) == -1 && TimingsOf([]) == [] && UsedUp({}, inGap, -1)
  {
  }

  lemma PicksStep(run: seq<AppleToken>, k: nat, inGap: seq<QQToken>, sim: Similarity)
    requires k < |run|
    ensures var before := Picks(run[..k], inGap, sim);
            Picks(run[..k + 1], inGap, sim) == before + [Pick(run[k].norm, inGap, LastSeq(before), sim)]
  {
    hide Pick, LastSeq;
    assert run[..k + 1][..k] == run[..k];
  }

  lemma ChosenStep(chosen: seq<Option<QQToken>>, c: Option<QQToken>)
    ensures LastSeq(chosen + [c]) == if c.Some? then c.value.seqIdx else LastSeq(chosen)
    ensures TimingsOf(chosen + [c])
         == TimingsOf(chosen) + [if c.Some? then Some((c.value.time, c.value.duration)) else None]
  {
    assert (chosen + [c])[..|chosen|] == chosen;
  }

  // ---- phase three: emission ------------------------------------------------------------

  /** The end of the token before `i`, or the start of the line. */
  function LeftEnd(times: seq<Timing>, i: nat, lineStart: int): int
    requires i <= |times|
  {
    if i > 0 && times[i - 1].Some? then times[i - 1].value.0 + times[i - 1].value.1 else lineStart
  }

  function RightStart(times: seq<Timing>, j: nat, lineEnd: int): int {
    if j < |times| && times[j].Some? then times[j].value.0 else lineEnd
  }

  /** The first timed entry from `i` on, or the end. */
  method RunEnd(times: seq<Timing>, i: nat) returns (j: nat)
    requires i <= |times|
    ensures i <= j <= |times| && (forall k | i <= k < j :: times[k].None?) && (j < |times| ==> times[j].Some?)
  {
    j := i;
    while j < |times| && times[j].None?
      invariant i <= j <= |times| && forall k | i <= k < j :: times[k].None?
    {
      j := j + 1;
    }
  }

  /** Fills untimed entries from leftovers, and touches nothing else. */
  ghost predicate Anchored(before: seq<Timing>, after: seq<Timing>, residuals: seq<QQToken>) {
    && |after| == |before|
    && (forall i | 0 <= i < |before| && before[i].Some? :: after[i] == before[i])
    && (forall i | 0 <= i < |before| && before[i].None? && after[i].Some? ::
          exists r :: r in residuals && after[i] == Some((r.time, r.duration)))
  }

  lemma {:induction false} GapWithin(residuals: seq<QQToken>, leftEnd: int, rightStart: int)
    ensures forall r | r in Gap(residuals, leftEnd, rightStart) :: r in residuals
  {
    if residuals != [] {
      GapWithin(residuals[..|residuals| - 1], leftEnd, rightStart);
    }
  }

  lemma {:induction false} PicksWithin(run: seq<AppleToken>, inGap: seq<QQToken>, sim: Similarity)
    ensures forall k | 0 <= k < |run| && Picks(run, inGap, sim)[k].Some? :: Picks(run, inGap, sim)[k].value in inGap
  {
    if run != [] {
      PicksWithin(run[..|run| - 1], inGap, sim);
    }
  }

  /** Where the run of untimed entries around `i` starts and ends. */
  function RunStart(times: seq<Timing>, i: nat): (n: nat)
    requires i < |times|
    ensures n <= i && (n == 0 || n == i || times[n - 1].Some?)
  {
    if i == 0 || times[i - 1].Some? then i else RunStart(times, i - 1)
  }

  function RunFinish(times: seq<Timing>, i: nat): (n: nat)
    requires i <= |times|
    ensures i <= n <= |times| && (i < |times| && times[i].None? ==> i < n)
    decreases |times| - i
  {
    if i == |times| || times[i].Some? then i else RunFinish(times, i + 1)
  }

  lemma {:induction false} RunIs(times: seq<Timing>, ei: nat, j: nat, i: nat)
    requires ei <= i < j <= |times| && (forall k | ei <= k < j :: times[k].None?)
    requires ei == 0 || times[ei - 1].Some?
    requires j == |times| || times[j].Some?
    ensures RunStart(times, i) == ei && RunFinish(times, i) == j
    decreases i - ei, j
  {
    if i > ei { RunIs(times, ei, j, i - 1); }
    FinishIs(times, i, j);
  }

  lemma {:induction false} FinishIs(times: seq<Timing>, i: nat, j: nat)
    requires i <= j <= |times| && (forall k | i <= k < j :: times[k].None?) && (j == |times| || times[j].Some?)
    ensures RunFinish(times, i) == j
    decreases j - i
  {
    if i < j { FinishIs(times, i + 1, j); }
  }

  /** A timing that is there stays; a run without timings is anchored in its gap. */
  ghost function AnchoredAt(toks: seq<AppleToken>, times: seq<Timing>, residuals: seq<QQToken>, lineStart: int,
                            lineEnd: int,
                            sim: Similarity, i: nat): Timing
    requires i < |toks| == |times|
  {
    if times[i].Some? then times[i]
    else
      var s, e := RunStart(times, i), RunFinish(times, i);
      var inGap := Gap(residuals, LeftEnd(times, s, lineStart), RightStart(times, e, lineEnd));
      TimingOf(Picks(toks[s..e], inGap, sim)[i - s])
  }

  ghost function AnchoredTimes(toks: seq<AppleToken>, times: seq<Timing>, residuals: seq<QQToken>, lineStart: int,
                               lineEnd: int,
                               sim: Similarity): (a: seq<Timing>)
    requires |toks| == |times|
    ensures |a| == |times|
  {
    seq(|times|, i requires 0 <= i < |times| => AnchoredAt(toks, times, residuals, lineStart, lineEnd, sim, i))
  }

  /** Anchoring fills untimed entries from leftovers and touches nothing else. */
  lemma {:induction false} AnchoringIsSafe(toks: seq<AppleToken>, times: seq<Timing>, residuals: seq<QQToken>,
                                           lineStart: int,
                                           lineEnd: int, sim: Similarity)
    requires |toks| == |times|
    ensures Anchored(times, AnchoredTimes(toks, times, residuals, lineStart, lineEnd, sim), residuals)
  {
    var after := AnchoredTimes(toks, times, residuals, lineStart, lineEnd, sim);
    forall i | 0 <= i < |times| && times[i].None? && after[i].Some?
      ensures exists r :: r in residuals && after[i] == Some((r.time, r.duration))
    {
      var s, e := RunStart(times, i), RunFinish(times, i);
      var left, right := LeftEnd(times, s, lineStart), RightStart(times, e, lineEnd);
      PicksWithin(toks[s..e], Gap(residuals, left, right), sim);
      GapWithin(residuals, left, right);
      assert Picks(toks[s..e], Gap(residuals, left, right), sim)[i - s].value in residuals;
    }
  }

  /** The whole run around an untimed entry is anchored at once. */
  lemma RunAnchored(toks: seq<AppleToken>, times: seq<Timing>, residuals: seq<QQToken>, lineStart: int, lineEnd: int,
                    sim: Similarity, ei: nat, j: nat)
    requires ei < j <= |toks| == |times| && (forall k | ei <= k < j :: times[k].None?)
    requires ei == 0 || times[ei - 1].Some?
    requires j == |times| || times[j].Some?
    ensures AnchoredTimes(toks, times, residuals, lineStart, lineEnd, sim)[ei..j]
         == TimingsOf(Picks(toks[ei..j], Gap(residuals, LeftEnd(times, ei, lineStart), RightStart(times, j, lineEnd)),
                            sim))
  {
    hide Picks, Gap, RunStart, RunFinish, LeftEnd, RightStart;
    forall i | ei <= i < j ensures RunStart(times, i) == ei && RunFinish(times, i) == j {
      RunIs(times, ei, j, i);
    }
  }

  lemma TimedStays(toks: seq<AppleToken>, times: seq<Timing>, residuals: seq<QQToken>, lineStart: int, lineEnd: int,
                   sim: Similarity, i: nat)
    requires i < |toks| == |times| && times[i].Some?
    ensures AnchoredTimes(toks, times, residuals, lineStart, lineEnd, sim)[i] == times[i]
  {
  }

  method FillRun(times0: seq<Timing>, ei: nat, anchored: seq<Timing>) returns (times: seq<Timing>)
    requires ei + |anchored| <= |times0| && forall k | ei <= k < ei + |anchored| :: times0[k].None?
    ensures times == times0[..ei] + anchored + times0[ei + |anchored|..]
  {
    times := times0;
    for k := 0 to |anchored|
      invariant |times| == |times0|
      invariant forall i | 0 <= i < ei || ei + k <= i < |times| :: times[i] == times0[i]
      invariant forall i | 0 <= i < k :: times[ei + i] == anchored[i]
    {
      if anchored[k].Some? {
        times := times[ei + k := anchored[k]];
      }
    }
  }

  /** What is finished, then what is not. */
  function Mixed(done: seq<Timing>, todo: seq<Timing>, n: nat): seq<Timing>
    requires n <= |done| && n <= |todo|
  {
    done[..n] + todo[n..]
  }

  lemma MixedAt(done: seq<Timing>, todo: seq<Timing>, n: nat)
    requires n < |done| == |todo|
    ensures |Mixed(done, todo, n)| == |todo| && Mixed(done, todo, n)[n] == todo[n]
    ensures done[n] == todo[n] ==> Mixed(done, todo, n) == Mixed(done, todo, n + 1)
  {
    assert done[..n + 1] == done[..n] + [done[n]] && todo[n..] == [todo[n]] + todo[n + 1..];
  }

  lemma MixedEnds(done: seq<Timing>, todo: seq<Timing>)
    requires |done| == |todo|
    ensures Mixed(done, todo, 0) == todo && Mixed(done, todo, |todo|) == done
  {
  }

  /** Finds the run of untimed entries that starts here and anchors it. */
  method AnchorGap(toks: seq<AppleToken>, ghost times0: seq<Timing>, residuals: seq<QQToken>, lineStart: int,
                   lineEnd: int,
                   sim: Similarity, times1: seq<Timing>, ei: nat)
    returns (times: seq<Timing>, j: nat)
    requires ei < |toks| == |times0| && times0[ei].None? && (ei == 0 || times0[ei - 1].Some?)
    requires times1 == Mixed(AnchoredTimes(toks, times0, residuals, lineStart, lineEnd, sim), times0, ei)
    ensures ei < j <= |toks| && (j == |toks| || times0[j].Some?)
    ensures times == Mixed(AnchoredTimes(toks, times0, residuals, lineStart, lineEnd, sim), times0, j)
  {
    hide AnchoredTimes, Picks, Gap, TimingsOf;
    ghost var goal := AnchoredTimes(toks, times0, residuals, lineStart, lineEnd, sim);
    assert forall k | ei <= k < |toks| :: times1[k] == times0[k];
    j := RunEnd(times1, ei);
    assert times0[ei] == times1[ei];
    if ei > 0 { TimedStays(toks, times0, residuals, lineStart, lineEnd, sim, ei - 1); }
    var left, right := LeftEnd(times1, ei, lineStart), RightStart(times1, j, lineEnd);
    assert left == LeftEnd(times0, ei, lineStart) && right == RightStart(times0, j, lineEnd);
    var anchored := AnchorRun(toks[ei..j], residuals, left, right, sim);
    RunAnchored(toks, times0, residuals, lineStart, lineEnd, sim, ei, j);
    times := FillRun(times1, ei, anchored);
    assert goal[..j] == goal[..ei] + goal[ei..j];
    assert times1[j..] == times0[j..] && times1[..ei] == goal[..ei];
  }

  /** Finds each run of untimed entries and anchors it. */
  method AnchorGaps(toks: seq<AppleToken>, times0: seq<Timing>, residuals: seq<QQToken>, lineStart: int, lineEnd: int,
                    sim: Similarity)
    returns (times: seq<Timing>)
    requires |toks| == |times0|
    ensures times == AnchoredTimes(toks, times0, residuals, lineStart, lineEnd, sim)
    ensures Anchored(times0, times, residuals)
  {
    hide *;
    AnchoringIsSafe(toks, times0, residuals, lineStart, lineEnd, sim);
    ghost var goal := AnchoredTimes(toks, times0, residuals, lineStart, lineEnd, sim);
    times := times0;
    MixedEnds(goal, times0);
    var ei := 0;
    while ei < |toks|
      invariant 0 <= ei <= |toks| && times == Mixed(goal, times0, ei)
      invariant ei < |toks| && times0[ei].None? ==> ei == 0 || times0[ei - 1].Some?
    {
      MixedAt(goal, times0, ei);
      if times[ei].Some? {
        TimedStays(toks, times0, residuals, lineStart, lineEnd, sim, ei);
        ei := ei + 1;
      } else {
        times, ei := AnchorGap(toks, times0, residuals, lineStart, lineEnd, sim, times, ei);
      }
    }
  }

  function TrimHyphen(s: string): string { if s != "" && s[|s| - 1] == '-' then s[..|s| - 1] else s }

  function Trailing(tok: AppleToken, last: bool): string { if !last && tok.wordFinal then " " else "" }

  /** An untimed token gets its share of the run's time by length, but at least 50 ms. */
  function Share(charLen: nat, totalLen: nat, totalTime: nat): (d: int)
    requires totalLen > 0
    ensures d >= 50
  {
    var part := charLen as real / totalLen as real * totalTime as real;
    Round(if part > 50.0 then part else 50.0)
  }

  /** A given timing is emitted exactly; an untimed token starts where the one before it ends. */
  ghost predicate EmittedAt(times: seq<Timing>, lineStart: int, out: seq<Syllable>, i: nat)
    requires i < |out| <= |times|
  {
    match times[i]
    case Some(t) => out[i].time == t.0 && out[i].duration == t.1 && !out[i].synthetic
    case None =>
      && out[i].synthetic && out[i].duration >= 50
      && out[i].time == if i == 0 then lineStart else out[i - 1].time + out[i - 1].duration
  }

  /** What emission keeps: text up to spaces, given timings, and untimed tokens laid end to end. */
  ghost predicate Emitted(toks: seq<AppleToken>, times: seq<Timing>, lineStart: int, out: seq<Syllable>) {
    && |out| <= |toks| == |times|
    && Ink(SyllableTexts(out)) == Ink(Texts(toks[..|out|]))
    && forall i | 0 <= i < |out| :: EmittedAt(times, lineStart, out, i)
  }

  lemma EmitOne(toks: seq<AppleToken>, times: seq<Timing>, lineStart: int, out: seq<Syllable>, s: Syllable, sep: string)
    requires Emitted(toks, times, lineStart, out) && |out| < |toks|
    requires s.text == toks[|out|].text + sep && (sep == "" || sep == " ")
    requires EmittedAt(times, lineStart, out + [s], |out|)
    ensures Emitted(toks, times, lineStart, out + [s])
  {
    hide Ink;
    var n := |out|;
    SpaceInk(sep, toks[n].text);
    InkSnoc(SyllableTexts(out), s.text);
    InkSnoc(Texts(toks[..n]), toks[n].text);
    assert toks[..n + 1] == toks[..n] + [toks[n]];
    TextsSnoc(toks[..n], toks[n]);
    assert |out + [s]| == n + 1;
    assert SyllableTexts(out + [s]) == SyllableTexts(out) + [s.text];
    forall i | 0 <= i < n ensures EmittedAt(times, lineStart, out + [s], i) {
      assert EmittedAt(times, lineStart, out, i);
    }
  }

  /** The length an untimed token counts with. */
  function InkLen(tok: AppleToken): nat { Utf8Len(TrimHyphen(tok.text)) }

  function RunLen(run: seq<AppleToken>): nat {
    if run == [] then 0 else RunLen(run[..|run| - 1]) + InkLen(run[|run| - 1])
  }

  /** How long the untimed tokens from `s` to `e` may take together. */
  function RunTime(times: seq<Timing>, s: nat, e: nat, lineStart: int, lineEnd: int): nat
    requires s <= |times|
  {
    var total := RightStart(times, e, lineEnd) - LeftEnd(times, s, lineStart);
    if total < 0 then 0 else total
  }

  function EndOf(out: seq<Syllable>, lineStart: int): int {
    if out == [] then lineStart else out[|out| - 1].time + out[|out| - 1].duration
  }

  /** The syllable of an untimed token in the run from `s` to `e`. */
  function Synthetic(toks: seq<AppleToken>, times: seq<Timing>, lineStart: int, lineEnd: int, s: nat, e: nat, i: nat,
                     start: int): Syllable
    requires s <= i < e <= |toks| == |times|
  {
    var len := RunLen(toks[s..e]);
    Syllable(toks[i].text + Trailing(toks[i], i == |toks| - 1), start,
             Share(InkLen(toks[i]), if len == 0 then e - s else len, RunTime(times, s, e, lineStart, lineEnd)), true)
  }

  function Timed(tok: AppleToken, t: (int, int), last: bool): Syllable {
    var sep := if tok.text != "" && tok.text[|tok.text| - 1] == ' ' then "" else Trailing(tok, last);
    Syllable(tok.text + sep, t.0, t.1, false)
  }

  /** The syllables of the first `n` entries. */
  ghost function Emissions(toks: seq<AppleToken>, times: seq<Timing>, lineStart: int, lineEnd: int,
                           n: nat): (out: seq<Syllable>)
    requires n <= |toks| == |times|
    ensures |out| == n
  {
    if n == 0 then []
    else
      var out, i := Emissions(toks, times, lineStart, lineEnd, n - 1), n - 1;
      out + [match times[i]
             case Some(t) => Timed(toks[i], t, n == |toks|)
             case None => Synthetic(toks, times, lineStart, lineEnd, RunStart(times, i), RunFinish(times, i), i,
                                    EndOf(out, lineStart))]
  }

  /** Emission keeps the text up to spaces and the given timings, and lays untimed tokens end to end. */
  lemma {:induction false} EmissionsKeep(toks: seq<AppleToken>, times: seq<Timing>, lineStart: int, lineEnd: int,
                                         n: nat)
    requires n <= |toks| == |times|
    ensures Emitted(toks, times, lineStart, Emissions(toks, times, lineStart, lineEnd, n))
  {
    hide Ink, Synthetic, Timed, RunStart, RunFinish, Emitted, EmittedAt;
    if n == 0 {
      EmittedNothing(toks, times, lineStart);
    } else {
      EmissionsKeep(toks, times, lineStart, lineEnd, n - 1);
      var out := Emissions(toks, times, lineStart, lineEnd, n - 1);
      var s := Emissions(toks, times, lineStart, lineEnd, n)[n - 1];
      EmissionIs(toks, times, lineStart, lineEnd, out, s);
    }
  }

  lemma EmittedNothing(toks: seq<AppleToken>, times: seq<Timing>, lineStart: int)
    requires |toks| == |times|
    ensures Emitted(toks, times, lineStart, [])
  {
    assert SyllableTexts([]) == Texts(toks[..0]);
  }

  lemma EmissionIs(toks: seq<AppleToken>, times: seq<Timing>, lineStart: int, lineEnd: int, out: seq<Syllable>,
                   s: Syllable)
    requires Emitted(toks, times, lineStart, out) && |out| < |toks| == |times|
    requires var i := |out|;
             s == match times[i]
                  case Some(t) => Timed(toks[i], t, i == |toks| - 1)
                  case None => Synthetic(toks, times, lineStart, lineEnd, RunStart(times, i), RunFinish(times, i), i,
                                         EndOf(out, lineStart))
    ensures Emitted(toks, times, lineStart, out + [s])
  {
    hide Emitted, RunStart, RunFinish, InkLen, RunLen, RunTime;
    var tok := toks[|out|];
    var last := |out| == |toks| - 1;
    var spaced := times[|out|].Some? && tok.text != "" && tok.text[|tok.text| - 1] == ' ';
    var sep := if spaced then "" else Trailing(tok, last);
    EmitOne(toks, times, lineStart, out, s, sep);
  }

  lemma EmissionsStep(toks: seq<AppleToken>, times: seq<Timing>, lineStart: int, lineEnd: int, s: nat, e: nat, i: nat)
    requires s <= i < e <= |toks| == |times| && (forall k | s <= k < e :: times[k].None?)
    requires (s == 0 || times[s - 1].Some?) && (e == |times| || times[e].Some?)
    ensures var out := Emissions(toks, times, lineStart, lineEnd, i);
            Emissions(toks, times, lineStart, lineEnd, i + 1)
            == out + [Synthetic(toks, times, lineStart, lineEnd, s, e, i, EndOf(out, lineStart))]
  {
    hide Synthetic, EndOf;
    RunIs(times, s, e, i);
  }

  lemma EmissionsTimed(toks: seq<AppleToken>, times: seq<Timing>, lineStart: int, lineEnd: int, i: nat)
    requires i < |toks| == |times| && times[i].Some?
    ensures Emissions(toks, times, lineStart, lineEnd, i + 1)
         == Emissions(toks, times, lineStart, lineEnd, i) + [Timed(toks[i], times[i].value, i == |toks| - 1)]
  {
  }

  lemma RunLenSnoc(toks: seq<AppleToken>, s: nat, k: nat)
    requires s <= k < |toks|
    ensures RunLen(toks[s..k + 1]) == RunLen(toks[s..k]) + InkLen(toks[k])
  {
    assert toks[s..k + 1][..k - s] == toks[s..k];
  }

  method EmitRun(toks: seq<AppleToken>, times: seq<Timing>, ei: nat, j: nat, lineStart: int, lineEnd: int,
                 out0: seq<Syllable>)
    returns (out: seq<Syllable>)
    requires ei < j <= |toks| == |times| && out0 == Emissions(toks, times, lineStart, lineEnd, ei)
    requires (forall k | ei <= k < j :: times[k].None?)
    requires (ei == 0 || times[ei - 1].Some?) && (j == |times| || times[j].Some?)
    ensures out == Emissions(toks, times, lineStart, lineEnd, j)
  {
    hide *;
    out := out0;
    var left := LeftEnd(times, ei, lineStart);
    var totalTime := RightStart(times, j, lineEnd) - left;
    if totalTime < 0 { totalTime := 0; }
    var totalLen := 0;
    RunLenNothing(toks, ei);
    for k := ei to j
      invariant totalLen == RunLen(toks[ei..k])
    {
      RunLenSnoc(toks, ei, k);
      InkLenIs(toks[k]);
      totalLen := totalLen + Utf8Len(TrimHyphen(toks[k].text));
    }
    if totalLen == 0 { totalLen := j - ei; }
    var t := left;
    LeftEndIs(toks, times, lineStart, lineEnd, ei);
    for k := ei to j
      invariant out == Emissions(toks, times, lineStart, lineEnd, k)
      invariant t == EndOf(out, lineStart)
    {
      var dur := Share(Utf8Len(TrimHyphen(toks[k].text)), totalLen, totalTime);
      var s := Syllable(toks[k].text + Trailing(toks[k], k == |toks| - 1), t, dur, true);
      SyntheticIs(toks, times, lineStart, lineEnd, ei, j, k, t);
      EmissionsStep(toks, times, lineStart, lineEnd, ei, j, k);
      EndOfSnoc(out, s, lineStart);
      out := out + [s];
      t := t + dur;
    }
  }

  lemma RunLenNothing(toks: seq<AppleToken>, s: nat)
    requires s <= |toks|
    ensures RunLen(toks[s..s]) == 0
  {
  }

  lemma InkLenIs(tok: AppleToken)
    ensures InkLen(tok) == Utf8Len(TrimHyphen(tok.text))
  {
  }

  lemma EndOfSnoc(out: seq<Syllable>, s: Syllable, lineStart: int)
    ensures EndOf(out + [s], lineStart) == s.time + s.duration
  {
  }

  lemma SyntheticIs(toks: seq<AppleToken>, times: seq<Timing>, lineStart: int, lineEnd: int, s: nat, e: nat, i: nat,
                    start: int)
    requires s <= i < e <= |toks| == |times|
    ensures var total, len := RightStart(times, e, lineEnd) - LeftEnd(times, s, lineStart), RunLen(toks[s..e]);
            Synthetic(toks, times, lineStart, lineEnd, s, e, i, start)
            == Syllable(toks[i].text + Trailing(toks[i], i == |toks| - 1), start,
                        Share(Utf8Len(TrimHyphen(toks[i].text)), if len == 0 then e - s else len,
                              if total < 0 then 0 else total), true)
  {
  }

  lemma LeftEndIs(toks: seq<AppleToken>, times: seq<Timing>, lineStart: int, lineEnd: int, ei: nat)
    requires ei <= |toks| == |times| && (ei == 0 || times[ei - 1].Some?)
    ensures LeftEnd(times, ei, lineStart) == EndOf(Emissions(toks, times, lineStart, lineEnd, ei), lineStart)
  {
    if ei > 0 { EmissionsTimed(toks, times, lineStart, lineEnd, ei - 1); }
  }

  method Emit(toks: seq<AppleToken>, times: seq<Timing>, lineStart: int, lineEnd: int) returns (out: seq<Syllable>)
    requires |toks| == |times|
    ensures out == Emissions(toks, times, lineStart, lineEnd, |toks|)
  {
    hide *;
    out := [];
    EmissionsNothing(toks, times, lineStart, lineEnd);
    var ei := 0;
    while ei < |toks|
      invariant 0 <= ei <= |toks| && out == Emissions(toks, times, lineStart, lineEnd, ei)
      invariant ei < |toks| && times[ei].None? ==> ei == 0 || times[ei - 1].Some?
    {
      if times[ei].Some? {
        var tok := toks[ei];
        var sep := if tok.text != "" && tok.text[|tok.text| - 1] == ' ' then "" else Trailing(tok, ei == |toks| - 1);
        EmissionsTimed(toks, times, lineStart, lineEnd, ei);
        TimedIs(tok, times[ei].value, ei == |toks| - 1, sep);
        out := out + [Syllable(tok.text + sep, times[ei].value.0, times[ei].value.1, false)];
        ei := ei + 1;
      } else {
        var j := RunEnd(times, ei);
        out := EmitRun(toks, times, ei, j, lineStart, lineEnd, out);
        ei := j;
      }
    }
  }

  lemma TimedIs(tok: AppleToken, t: (int, int), last: bool, sep: string)
    requires sep == if tok.text != "" && tok.text[|tok.text| - 1] == ' ' then "" else Trailing(tok, last)
    ensures Timed(tok, t, last) == Syllable(tok.text + sep, t.0, t.1, false)
  {
  }

  lemma EmissionsNothing(toks: seq<AppleToken>, times: seq<Timing>, lineStart: int, lineEnd: int)
    requires |toks| == |times|
    ensures Emissions(toks, times, lineStart, lineEnd, 0) == []
  {
  }

  // ---- phase four: no step back in time ----------------------------------------------------

  predicate Ascending(out: seq<Syllable>) { forall i | 0 < i < |out| :: out[i - 1].time <= out[i].time }

  function Straight(prev: Syllable, s: Syllable): Syllable {
    if s.time < prev.time then s.(time := prev.time + prev.duration, synthetic := true) else s
  }

  /** Each syllable that would step back starts where the one before it ends instead. */
  function Mono(out: seq<Syllable>): (m: seq<Syllable>)
    ensures |m| == |out|
  {
    if out == [] then []
    else
      var before, s := Mono(out[..|out| - 1]), out[|out| - 1];
      before + [if before == [] then s else Straight(before[|before| - 1], s)]
  }

  /** Straightening keeps texts and durations, and with non-negative durations nothing steps back. */
  lemma {:induction false} MonoKeeps(out: seq<Syllable>)
    ensures forall i | 0 <= i < |out| :: Mono(out)[i].text == out[i].text && Mono(out)[i].duration == out[i].duration
    ensures (forall i | 0 <= i < |out| :: out[i].duration >= 0) ==> Ascending(Mono(out))
  {
    if out != [] {
      MonoKeeps(out[..|out| - 1]);
    }
  }

  /** What does not step back is left alone. */
  lemma {:induction false} MonoFixed(out: seq<Syllable>)
    requires Ascending(out)
    ensures Mono(out) == out
  {
    hide Ascending;
    if out != [] {
      var front := out[..|out| - 1];
      AscendingFront(out);
      MonoFixed(front);
      assert out == front + [out[|out| - 1]];
    }
  }

  lemma AscendingFront(out: seq<Syllable>)
    requires out != [] && Ascending(out)
    ensures Ascending(out[..|out| - 1])
    ensures |out| > 1 ==> out[|out| - 2].time <= out[|out| - 1].time
  {
  }

  lemma MonoStep(out: seq<Syllable>, idx: nat)
    requires 1 <= idx < |out|
    ensures var mixed := Mono(out[..idx]) + out[idx..];
            mixed[idx := Straight(mixed[idx - 1], mixed[idx])] == Mono(out[..idx + 1]) + out[idx + 1..]
  {
    hide Straight;
    assert out[..idx + 1][..idx] == out[..idx];
  }

  lemma MonoStart(out: seq<Syllable>)
    requires out != []
    ensures Mono(out[..1]) + out[1..] == out
  {
    assert out[..1] == [out[0]] && [out[0]][..0] == [];
  }

  lemma MonoEnd(out: seq<Syllable>)
    ensures out == [] ==> Mono(out) == []
    ensures Mono(out[..|out|]) + out[|out|..] == Mono(out)
  {
    hide Mono;
    assert out[..|out|] == out && out[|out|..] == [];
  }

  lemma StraightIs(prev: Syllable, s: Syllable)
    ensures Straight(prev, s)
         == if s.time < prev.time then s.(time := prev.time + prev.duration, synthetic := true) else s
  {
  }

  method MakeMonotone(out0: seq<Syllable>) returns (out: seq<Syllable>)
    ensures out == Mono(out0)
  {
    hide *;
    out := out0;
    MonoEnd(out0);
    if |out| == 0 { return; }
    MonoStart(out0);
    var idx := 1;
    while idx < |out|
      invariant 1 <= idx <= |out| == |out0| && out == Mono(out0[..idx]) + out0[idx..]
    {
      MonoStep(out0, idx);
      StraightIs(out[idx - 1], out[idx]);
      if out[idx].time < out[idx - 1].time {
        out := out[idx := out[idx].(time := out[idx - 1].time + out[idx - 1].duration, synthetic := true)];
      } else {
        assert out == out[idx := out[idx]];
      }
      idx := idx + 1;
    }
  }

  // ---- the whole line -------------------------------------------------------------------------

  function Times(out: seq<Syllable>): seq<(int, int)> {
    seq(|out|, i requires 0 <= i < |out| => (out[i].time, out[i].duration))
  }

  lemma {:induction false} PresentMembers(times: seq<Timing>)
    ensures forall i | 0 <= i < |times| && times[i].Some? :: times[i].value in Present(times)
    ensures |Present(times)| <= |times|
    ensures |Present(times)| == |times| ==> forall i | 0 <= i < |times| :: times[i] == Some(Present(times)[i])
  {
    if times != [] {
      PresentMembers(times[..|times| - 1]);
    }
  }

  /** Non-negative durations in the slots and in the leftovers give non-negative syllables. */
  lemma DurationsNonNegative(toks: seq<AppleToken>, times: seq<Timing>, anchored: seq<Timing>, residuals: seq<QQToken>,
                             lineStart: int, out: seq<Syllable>)
    requires Anchored(times, anchored, residuals) && Emitted(toks, anchored, lineStart, out)
    requires (forall u | u in Present(times) :: u.1 >= 0) && forall r | r in residuals :: r.duration >= 0
    ensures forall i | 0 <= i < |out| :: out[i].duration >= 0
  {
    hide Ink;
    PresentMembers(times);
    forall i | 0 <= i < |out| ensures out[i].duration >= 0 {
      assert EmittedAt(anchored, lineStart, out, i);
    }
  }

  /** When every entry was timed, emission reproduces the timings. */
  lemma AllTimed(toks: seq<AppleToken>, times: seq<Timing>, anchored: seq<Timing>, residuals: seq<QQToken>,
                 lineStart: int, out: seq<Syllable>)
    requires Anchored(times, anchored, residuals) && Emitted(toks, anchored, lineStart, out) && |out| == |times|
    requires |Present(times)| == |times|
    ensures Times(out) == Present(times)
  {
    hide Ink;
    PresentMembers(times);
    forall i | 0 <= i < |out| ensures Times(out)[i] == Present(times)[i] {
      assert EmittedAt(anchored, lineStart, out, i) && times[i] == Some(Present(times)[i]);
    }
  }

  /** A timed entry keeps its duration. */
  lemma TimedKept(toks: seq<AppleToken>, times: seq<Timing>, anchored: seq<Timing>, residuals: seq<QQToken>,
                  lineStart: int, out: seq<Syllable>)
    requires Anchored(times, anchored, residuals) && Emitted(toks, anchored, lineStart, out) && |out| == |times|
    ensures forall i | 0 <= i < |out| && times[i].Some? :: out[i].duration == times[i].value.1
  {
    forall i | 0 <= i < |out| && times[i].Some? ensures out[i].duration == times[i].value.1 {
      assert EmittedAt(anchored, lineStart, out, i);
    }
  }

  /** Expanding, anchoring, emitting and straightening, one after the other. */
  ghost function SyllabusOf(tokens: seq<AppleToken>, matches: seq<Slot>, residuals: seq<QQToken>, lineStart: int,
                            lineEnd: int,
                            norm: string -> string, sim: Similarity): seq<Syllable>
    requires |matches| == |tokens| && WellFormed(matches)
  {
    var e := Expanded(tokens, matches, norm);
    ExpandedEven(tokens, matches, norm);
    var anchored := AnchoredTimes(e.toks, e.times, residuals, lineStart, lineEnd, sim);
    Mono(Emissions(e.toks, anchored, lineStart, lineEnd, |e.toks|))
  }

  lemma {:induction false} ExpandedEven(tokens: seq<AppleToken>, matches: seq<Slot>, norm: string -> string)
    requires |matches| == |tokens| && WellFormed(matches)
    ensures |Expanded(tokens, matches, norm).toks| == |Expanded(tokens, matches, norm).times|
    decreases |matches|
  {
    if matches != [] {
      HeadShape(matches);
      var n := HeadSpan(matches[0]);
      ExpandedEven(tokens[n..], matches[n..], norm);
    }
  }

  /** buildSyllabus: the syllables carry exactly the line's text up to spaces, never step back in
      time, and a line whose tokens were all matched in order keeps the matched timings as they are. */
  method BuildSyllabus(tokens: seq<AppleToken>, matches: seq<Slot>, residuals: seq<QQToken>, lineStart: int,
                       lineEnd: int,
                       norm: string -> string, sim: Similarity)
    returns (result: seq<Syllable>, ghost expanded: seq<Timing>)
    requires |matches| == |tokens| && WellFormed(matches)
    ensures result == SyllabusOf(tokens, matches, residuals, lineStart, lineEnd, norm, sim)
    ensures Ink(SyllableTexts(result)) == Ink(Texts(tokens))
    ensures (forall u | u in Uses(matches) :: u.1 >= 0) && (forall r | r in residuals :: r.duration >= 0) ==>
              Ascending(result)
    ensures |expanded| == |result| && Present(expanded) == Uses(matches)
    ensures forall i | 0 <= i < |result| && expanded[i].Some? :: result[i].duration == expanded[i].value.1
    ensures var uses := Uses(matches);
            |uses| == |result| && (forall i | 0 < i < |result| :: uses[i - 1].0 <= uses[i].0) ==> Times(result) == uses
  {
    hide *;
    expanded := [];
    SyllabusIs(tokens, matches, residuals, lineStart, lineEnd, norm, sim);
    if |tokens| == 0 {
      result := [];
      assert tokens == [] && matches == [];
      NothingToBuild(residuals, lineStart, lineEnd, norm, sim);
      return;
    }
    var toks, times := Expand(tokens, matches, norm);
    expanded := times;
    assert Entries(toks, times).toks == toks && Entries(toks, times).times == times;
    var anchored := AnchorGaps(toks, times, residuals, lineStart, lineEnd, sim);
    var emitted := Emit(toks, anchored, lineStart, lineEnd);
    result := MakeMonotone(emitted);
    BuiltKeeps(toks, times, anchored, residuals, lineStart, lineEnd, emitted, Uses(matches));
  }

  lemma SyllabusIs(tokens: seq<AppleToken>, matches: seq<Slot>, residuals: seq<QQToken>, lineStart: int, lineEnd: int,
                   norm: string -> string, sim: Similarity)
    requires |matches| == |tokens| && WellFormed(matches)
    ensures var e := Expanded(tokens, matches, norm);
            |e.toks| == |e.times| &&
            SyllabusOf(tokens, matches, residuals, lineStart, lineEnd, norm, sim)
            == Mono(Emissions(e.toks, AnchoredTimes(e.toks, e.times, residuals, lineStart, lineEnd, sim),
                              lineStart, lineEnd, |e.toks|))
  {
    hide WellFormed, Expanded, AnchoredTimes, Mono, Emissions;
    ExpandedEven(tokens, matches, norm);
  }

  lemma NothingToBuild(residuals: seq<QQToken>, lineStart: int, lineEnd: int, norm: string -> string, sim: Similarity)
    ensures WellFormed([]) && SyllabusOf([], [], residuals, lineStart, lineEnd, norm, sim) == []
    ensures SyllableTexts([]) == Texts([]) && Uses([]) == [] && Present([]) == [] && Ascending([]) && Times([]) == []
  {
  }

  /** What the three phases after expansion keep together. */
  lemma BuiltKeeps(toks: seq<AppleToken>, times: seq<Timing>, anchored: seq<Timing>, residuals: seq<QQToken>,
                   lineStart: int, lineEnd: int, emitted: seq<Syllable>, uses: seq<(int, int)>)
    requires |toks| == |times| == |anchored| && Anchored(times, anchored, residuals) && Present(times) == uses
    requires emitted == Emissions(toks, anchored, lineStart, lineEnd, |toks|)
    ensures var result := Mono(emitted);
            && |result| == |times| && Ink(SyllableTexts(result)) == Ink(Texts(toks))
            && ((forall u | u in uses :: u.1 >= 0) && (forall r | r in residuals :: r.duration >= 0) ==>
                  Ascending(result))
            && (forall i | 0 <= i < |result| && times[i].Some? :: result[i].duration == times[i].value.1)
            && (|uses| == |result| && (forall i | 0 < i < |result| :: uses[i - 1].0 <= uses[i].0) ==>
                  Times(result) == uses)
  {
    hide Ink, Present, Anchored, Emitted, Emissions, Mono;
    EmissionsKeep(toks, anchored, lineStart, lineEnd, |toks|);
    EmittedInk(toks, anchored, lineStart, emitted);
    TimedKept(toks, times, anchored, residuals, lineStart, emitted);
    MonoKeeps(emitted);
    var result := Mono(emitted);
    assert SyllableTexts(result) == SyllableTexts(emitted);
    if (forall u | u in uses :: u.1 >= 0) && (forall r | r in residuals :: r.duration >= 0) {
      DurationsNonNegative(toks, times, anchored, residuals, lineStart, emitted);
    }
    if |uses| == |result| && (forall i | 0 < i < |result| :: uses[i - 1].0 <= uses[i].0) {
      AllTimed(toks, times, anchored, residuals, lineStart, emitted);
      forall i | 0 < i < |emitted| ensures emitted[i - 1].time <= emitted[i].time {
        assert Times(emitted)[i - 1] == uses[i - 1] && Times(emitted)[i] == uses[i];
      }
      MonoFixed(emitted);
    }
  }

  lemma EmittedInk(toks: seq<AppleToken>, times: seq<Timing>, lineStart: int, out: seq<Syllable>)
    requires Emitted(toks, times, lineStart, out) && |out| == |toks|
    ensures Ink(SyllableTexts(out)) == Ink(Texts(toks))
  {
    assert toks[..|out|] == toks;
  }
}
