/** One line from text to timed syllables: tokenising, picking the timed tokens near it,
    aligning and rebuilding (internal/providers/qaple.go, MergeAppleMetadataIntoWordSync). */
module WordSync {
  import opened Wrappers
  import opened Utf8
  import opened Rounding
  import opened Unicode
  import opened Alignment
  import opened Syllabus

  /** A text without its white space. */
  function Strip(s: string): string {
    if s == "" then "" else Strip(s[..|s| - 1]) + if IsSpace(s[|s| - 1]) then "" else [s[|s| - 1]]
  }

  predicate Solid(w: string) { forall i | 0 <= i < |w| :: !IsSpace(w[i]) }

  /** Length of the leading run of non-space characters. */
  function WordEnd(s: string): (n: nat)
    ensures n <= |s| && Solid(s[..n]) && (n < |s| ==> IsSpace(s[n]))
  {
    if s == "" || IsSpace(s[0]) then 0
    else
      var n := WordEnd(s[1..]);
      assert s[..n + 1] == [s[0]] + s[1..][..n];
      n + 1
  }

  /** The maximal runs of non-space characters, in order. */
  function Fields(s: string): (words: seq<string>)
    ensures forall i | 0 <= i < |words| :: words[i] != "" && Solid(words[i])
  {
    if s == "" then []
    else if IsSpace(s[0]) then Fields(s[1..])
    else [s[..WordEnd(s)]] + Fields(s[WordEnd(s)..])
  }

  lemma {:induction false} StripAppend(s: string, t: string)
    ensures Strip(s + t) == Strip(s) + Strip(t)
  {
    hide IsSpace;
    if t == "" {
      assert s + t == s;
    } else {
      StripAppend(s, t[..|t| - 1]);
      assert (s + t)[..|s + t| - 1] == s + t[..|t| - 1];
    }
  }

  lemma {:induction false} StripSolid(w: string)
    requires Solid(w)
    ensures Strip(w) == w
  {
    if w != "" {
      StripSolid(w[..|w| - 1]);
      assert w == w[..|w| - 1] + [w[|w| - 1]];
    }
  }

  lemma {:induction false} FieldsJoin(s: string)
    ensures Join(Fields(s)) == Strip(s)
  {
    hide Join, Strip, IsSpace, Solid;
    if s == "" {
      JoinNothing();
      StripSolid("") by { assert Solid("") by { SolidNothing(); } }
    } else if IsSpace(s[0]) {
      FieldsJoin(s[1..]);
      StripAppend(s[..1], s[1..]);
      StripSpace(s[0]);
      assert s[..1] == [s[0]] && s[..1] + s[1..] == s;
    } else {
      var n := WordEnd(s);
      FieldsJoin(s[n..]);
      StripAppend(s[..n], s[n..]);
      StripSolid(s[..n]);
      assert s[..n] + s[n..] == s;
      JoinAppend([s[..n]], Fields(s[n..]));
      InkOne(s[..n]);
    }
  }

  lemma SolidNothing()
    ensures Solid("")
  {
  }

  lemma StripSpace(c: char)
    requires IsSpace(c)
    ensures Strip([c]) == ""
  {
    assert [c][..0] == "";
  }

  // ---- cutting words at hyphens -----------------------------------------------------

  /** A hyphen between two letters or digits. */
  predicate HyphenCut(word: string, alnum: char -> bool, i: nat) {
    0 < i < |word| - 1 && word[i] == '-' && alnum(word[i - 1]) && alnum(word[i + 1])
  }

  /** What the characters from `from` on become, when those before `i` hold no cut. */
  function PartsFrom(word: string, alnum: char -> bool, from: nat, i: nat): (parts: seq<string>)
    requires from <= i <= |word|
    decreases |word| - i
  {
    if i == |word| then if from < |word| then [word[from..]] else []
    else if HyphenCut(word, alnum, i) then [word[from..i + 1]] + PartsFrom(word, alnum, i + 1, i + 1)
    else PartsFrom(word, alnum, from, i + 1)
  }

  /** A word cut after every hyphen that stands between two letters or digits. */
  function HyphenParts(word: string, alnum: char -> bool): seq<string> {
    if word == "" then [word] else PartsFrom(word, alnum, 0, 0)
  }

  /** Where parts laid end to end from `at` on meet. */
  function Seams(parts: seq<string>, at: nat): set<nat> {
    if |parts| <= 1 then {} else {at + |parts[0]|} + Seams(parts[1..], at + |parts[0]|)
  }

  /** Where the word is cut from `i` on. */
  ghost function CutsFrom(word: string, alnum: char -> bool, i: nat): set<nat> {
    set j | i <= j < |word| && HyphenCut(word, alnum, j) :: j + 1
  }

  lemma CutsStep(word: string, alnum: char -> bool, i: nat)
    requires i < |word|
    ensures CutsFrom(word, alnum, i)
         == (if HyphenCut(word, alnum, i) then {i + 1} else {}) + CutsFrom(word, alnum, i + 1)
  {
    hide HyphenCut;
  }

  lemma SeamsStep(part: string, rest: seq<string>, at: nat)
    requires rest != []
    ensures Seams([part] + rest, at) == {at + |part|} + Seams(rest, at + |part|)
  {
    assert ([part] + rest)[1..] == rest;
  }

  lemma {:induction false} PartsFromCuts(word: string, alnum: char -> bool, from: nat, i: nat)
    requires from <= i <= |word| && (i == |word| ==> from < i || word == "")
    ensures var parts := PartsFrom(word, alnum, from, i);
            && Join(parts) == word[from..] && (word != "" ==> parts != [])
            && Seams(parts, from) == CutsFrom(word, alnum, i)
    decreases |word| - i
  {
    hide Join;
    if i == |word| {
      JoinNothing();
      InkOne(word[from..]);
    } else {
      CutsStep(word, alnum, i);
      hide CutsFrom, Seams;
      if HyphenCut(word, alnum, i) {
        var rest := PartsFrom(word, alnum, i + 1, i + 1);
        PartsFromCuts(word, alnum, i + 1, i + 1);
        JoinAppend([word[from..i + 1]], rest);
        InkOne(word[from..i + 1]);
        assert word[from..] == word[from..i + 1] + word[i + 1..];
        SeamsStep(word[from..i + 1], rest, from);
      } else {
        PartsFromCuts(word, alnum, from, i + 1);
        assert {} + CutsFrom(word, alnum, i + 1) == CutsFrom(word, alnum, i + 1);
      }
    }
  }

  /** The parts spell the word and meet exactly behind its hyphens between letters or digits. */
  lemma HyphenPartsMeet(word: string, alnum: char -> bool)
    ensures Join(HyphenParts(word, alnum)) == word && HyphenParts(word, alnum) != []
    ensures Seams(HyphenParts(word, alnum), 0) == CutsFrom(word, alnum, 0)
  {
    hide Join;
    InkOne(word);
    assert word[0..] == word;
    if word != "" { PartsFromCuts(word, alnum, 0, 0); }
  }

  lemma {:induction false} NoCuts(word: string, alnum: char -> bool, i: nat)
    requires i <= |word| && '-' !in word
    ensures PartsFrom(word, alnum, 0, i) == if word == "" then [] else [word]
    decreases |word| - i
  {
    if i < |word| { NoCuts(word, alnum, i + 1); }
  }

  method SplitHyphenated(word: string, alnum: char -> bool) returns (parts: seq<string>)
    ensures parts == HyphenParts(word, alnum)
  {
    hide *;
    HyphenPartsAre(word, alnum);
    if '-' !in word {
      NoCuts(word, alnum, 0);
      return [word];
    }
    HyphenPartsMeet(word, alnum);
    parts := [];
    var cur := "";
    ghost var from := 0;
    for i := 0 to |word|
      invariant 0 <= from <= i && cur == word[from..i]
      invariant parts + PartsFrom(word, alnum, from, i) == HyphenParts(word, alnum)
    {
      CutStep(word, alnum, from, i);
      cur := cur + [word[i]];
      if word[i] == '-' && 0 < i < |word| - 1 && alnum(word[i - 1]) && alnum(word[i + 1]) {
        parts, cur, from := parts + [cur], "", i + 1;
      }
    }
    CutsEnd(word, alnum, from);
    if |cur| > 0 {
      parts := parts + [cur];
    } else {
      assert parts + [] == parts;
    }
    if |parts| <= 1 {
      OnePart(parts, word);
      return [word];
    }
  }

  lemma HyphenPartsAre(word: string, alnum: char -> bool)
    ensures HyphenParts(word, alnum) == if word == "" then [word] else PartsFrom(word, alnum, 0, 0)
  {
  }

  lemma CutStep(word: string, alnum: char -> bool, from: nat, i: nat)
    requires from <= i < |word|
    ensures word[from..i + 1] == word[from..i] + [word[i]] && word[i + 1..i + 1] == ""
    ensures PartsFrom(word, alnum, from, i)
         == if 0 < i < |word| - 1 && word[i] == '-' && alnum(word[i - 1]) && alnum(word[i + 1])
            then [word[from..i + 1]] + PartsFrom(word, alnum, i + 1, i + 1)
            else PartsFrom(word, alnum, from, i + 1)
  {
  }

  lemma CutsEnd(word: string, alnum: char -> bool, from: nat)
    requires from <= |word|
    ensures PartsFrom(word, alnum, from, |word|) == if from < |word| then [word[from..|word|]] else []
  {
    assert word[from..] == word[from..|word|];
  }

  lemma OnePart(parts: seq<string>, word: string)
    requires |parts| == 1 && Join(parts) == word
    ensures parts == [word]
  {
    InkOne(parts[0]);
    assert parts == [parts[0]];
  }

  // ---- tokens -----------------------------------------------------------------------

  function PartTokensOf(parts: seq<string>, norm: string -> string): seq<AppleToken> {
    seq(|parts|, i requires 0 <= i < |parts| => AppleToken(parts[i], norm(parts[i]), i == |parts| - 1))
  }

  /** One token for each part of each word; the last part of a word is final. */
  function TokensOf(words: seq<string>, alnum: char -> bool, norm: string -> string): seq<AppleToken> {
    if words == [] then []
    else TokensOf(words[..|words| - 1], alnum, norm) + PartTokensOf(HyphenParts(words[|words| - 1], alnum), norm)
  }

  /** The tokens spell the words. */
  lemma {:induction false} TokensSpell(words: seq<string>, alnum: char -> bool, norm: string -> string)
    ensures Join(Texts(TokensOf(words, alnum, norm))) == Join(words)
  {
    hide Join, HyphenParts;
    if words == [] {
      assert Texts(TokensOf(words, alnum, norm)) == words;
    } else {
      var front, last := words[..|words| - 1], words[|words| - 1];
      var before, parts := TokensOf(front, alnum, norm), HyphenParts(last, alnum);
      TokensSpell(front, alnum, norm);
      HyphenPartsMeet(last, alnum);
      assert Texts(PartTokensOf(parts, norm)) == parts;
      assert Texts(before + PartTokensOf(parts, norm)) == Texts(before) + parts;
      JoinAppend(Texts(before), parts);
      JoinSnoc(front, last);
      assert words == front + [last];
    }
  }

  /** tokenizeAppleLine. */
  method TokenizeAppleLine(text: string, alnum: char -> bool, norm: string -> string) returns (tokens: seq<AppleToken>)
    ensures tokens == TokensOf(Fields(text), alnum, norm)
    ensures Join(Texts(tokens)) == Strip(text)
  {
    hide Join, Strip, Fields, HyphenParts;
    var words := Fields(text);
    FieldsJoin(text);
    TokensSpell(words, alnum, norm);
    tokens := [];
    for w := 0 to |words|
      invariant tokens == TokensOf(words[..w], alnum, norm)
    {
      var parts := SplitHyphenated(words[w], alnum);
      ghost var before := tokens;
      for i := 0 to |parts|
        invariant tokens == before + PartTokensOf(parts, norm)[..i]
      {
        tokens := tokens + [AppleToken(parts[i], norm(parts[i]), i == |parts| - 1)];
      }
      assert words[..w + 1][..w] == words[..w];
    }
    assert words[..|words|] == words;
  }

  // ---- the pool of timed tokens ----------------------------------------------------

  datatype TimedText = TimedText(text: string, time: int, duration: int)

  /** Tokens are numbered in order and every word of every syllable is one. */
  ghost predicate Numbered(pool: seq<QQToken>) { forall i | 0 <= i < |pool| :: pool[i].seqIdx == i }

  predicate Lasting(pool: seq<QQToken>) { forall i | 0 <= i < |pool| :: pool[i].duration >= 0 }

  function PoolTexts(pool: seq<QQToken>): seq<string> {
    seq(|pool|, i requires 0 <= i < |pool| => pool[i].text)
  }

  function AllWords(syllables: seq<TimedText>): seq<string> {
    if syllables == [] then [] else AllWords(syllables[..|syllables| - 1]) + Fields(syllables[|syllables| - 1].text)
  }

  function TotalLen(words: seq<string>): nat {
    if words == [] then 0 else TotalLen(words[..|words| - 1]) + Utf8Len(words[|words| - 1])
  }

  /** The share `a` of `total` in a duration, not rounded. */
  function Exact(a: nat, total: nat, duration: int): real
    requires total > 0
  {
    a as real / total as real * duration as real
  }

  lemma ExactAdds(a: nat, b: nat, total: nat, duration: int)
    requires total > 0
    ensures Exact(a + b, total, duration) == Exact(a, total, duration) + Exact(b, total, duration)
    ensures Exact(0, total, duration) == 0.0 && Exact(total, total, duration) == duration as real
  {
    assert (a + b) as real == a as real + b as real;
    RealShares(a as real, b as real, total as real, duration as real);
  }

  lemma RealShares(a: real, b: real, t: real, d: real)
    requires t > 0.0
    ensures (a + b) / t * d == a / t * d + b / t * d
    ensures 0.0 / t * d == 0.0 && t / t * d == d
  {
    var x, y, z, one, none := a / t, b / t, (a + b) / t, t / t, 0.0 / t;
    assert z == x + y && one == 1.0 && none == 0.0;
    assert (x + y) * d == x * d + y * d;
    assert one * d == d && none * d == 0.0;
  }

  /** The length the words of a syllable are measured against. */
  function Divisor(words: seq<string>): (n: nat)
    ensures words != [] ==> n > 0
  {
    if TotalLen(words) == 0 then |words| else TotalLen(words)
  }

  /** The part of a syllable's duration that one of its words gets. */
  function WordShare(words: seq<string>, w: nat, duration: int): int
    requires w < |words|
  {
    Round(Exact(Utf8Len(words[w]), Divisor(words), duration))
  }

  /** The time from a syllable's start to the start of one of its words. */
  function SharesBefore(words: seq<string>, w: nat, duration: int): int
    requires w <= |words|
  {
    if w == 0 then 0 else SharesBefore(words, w - 1, duration) + WordShare(words, w - 1, duration)
  }

  /** The timed tokens of one syllable: a single word takes its whole time, several share it by length. */
  function SyllableTokens(syl: TimedText, norm: string -> string, n: nat): seq<QQToken> {
    var words := Fields(syl.text);
    if |words| == 1 then [QQToken(words[0], norm(words[0]), syl.time, syl.duration, n)]
    else
      seq(|words|, w requires 0 <= w < |words| =>
        QQToken(words[w], norm(words[w]), syl.time + SharesBefore(words, w, syl.duration),
                WordShare(words, w, syl.duration), n + w))
  }

  function PoolOf(syllables: seq<TimedText>, norm: string -> string): seq<QQToken> {
    if syllables == [] then []
    else
      var before := PoolOf(syllables[..|syllables| - 1], norm);
      before + SyllableTokens(syllables[|syllables| - 1], norm, |before|)
  }

  /** The words' shares add up to the syllable's duration, up to half a millisecond for each word. */
  lemma {:induction false} SharesAddUp(words: seq<string>, duration: int)
    requires TotalLen(words) > 0
    ensures var d := SharesBefore(words, |words|, duration) - duration;
            -|words| <= 2 * d <= |words|
  {
    hide *;
    SharesNear(words, |words|, duration);
    assert words[..|words|] == words;
    ExactAdds(0, 0, TotalLen(words), duration);
  }

  lemma {:induction false} SharesNear(words: seq<string>, w: nat, duration: int)
    requires w <= |words| && TotalLen(words) > 0
    ensures var exact := Exact(TotalLen(words[..w]), TotalLen(words), duration);
            exact - w as real / 2.0 <= SharesBefore(words, w, duration) as real <= exact + w as real / 2.0
  {
    hide Exact, Utf8Len, Round;
    if w > 0 {
      SharesNear(words, w - 1, duration);
      assert words[..w][..w - 1] == words[..w - 1];
      ExactAdds(TotalLen(words[..w - 1]), Utf8Len(words[w - 1]), TotalLen(words), duration);
    } else {
      ExactAdds(0, 0, TotalLen(words), duration);
    }
  }

  /** What the pool promises: numbered, every word of every syllable in order, and durations that are not negative. */
  lemma {:induction false} PoolIs(syllables: seq<TimedText>, norm: string -> string)
    ensures Numbered(PoolOf(syllables, norm)) && PoolTexts(PoolOf(syllables, norm)) == AllWords(syllables)
    ensures (forall i | 0 <= i < |syllables| :: syllables[i].duration >= 0) ==> Lasting(PoolOf(syllables, norm))
  {
    if syllables != [] {
      var before, syl := PoolOf(syllables[..|syllables| - 1], norm), syllables[|syllables| - 1];
      PoolIs(syllables[..|syllables| - 1], norm);
      SyllableIs(syl, norm, |before|);
      PoolTogether(before, SyllableTokens(syl, norm, |before|));
    }
  }

  lemma PoolTogether(before: seq<QQToken>, more: seq<QQToken>)
    requires Numbered(before) && forall i | 0 <= i < |more| :: more[i].seqIdx == |before| + i
    ensures Numbered(before + more) && PoolTexts(before + more) == PoolTexts(before) + PoolTexts(more)
    ensures Lasting(before) && Lasting(more) ==> Lasting(before + more)
  {
  }

  lemma SyllableIs(syl: TimedText, norm: string -> string, n: nat)
    ensures var toks := SyllableTokens(syl, norm, n);
            && PoolTexts(toks) == Fields(syl.text) && (syl.duration >= 0 ==> Lasting(toks))
            && forall i | 0 <= i < |toks| :: toks[i].seqIdx == n + i
  {
    hide Fields;
    var words := Fields(syl.text);
    forall w | 0 <= w < |words| ensures syl.duration >= 0 ==> WordShare(words, w, syl.duration) >= 0 {
      if syl.duration >= 0 { ExactNonNegative(Utf8Len(words[w]), Divisor(words), syl.duration); }
    }
  }

  /** The several words of one syllable, one after the other. */
  method ShareSyllable(syl: TimedText, words: seq<string>, norm: string -> string, pool0: seq<QQToken>)
    returns (pool: seq<QQToken>)
    requires words == Fields(syl.text) && |words| > 1
    ensures pool == pool0 + SyllableTokens(syl, norm, |pool0|)
  {
    hide *;
    ghost var all := SyllableTokens(syl, norm, |pool0|);
    SyllableLength(syl, norm, |pool0|);
    DivisorIs(words);
    pool := pool0;
    var totalLen := TotalLen(words);
    if totalLen == 0 { totalLen := |words|; }
    var t := syl.time;
    for w := 0 to |words|
      invariant t == syl.time + SharesBefore(words, w, syl.duration)
      invariant pool == pool0 + all[..w]
    {
      var dur := Round(Exact(Utf8Len(words[w]), totalLen, syl.duration));
      SyllableTokenAt(syl, norm, |pool0|, w);
      assert all[..w + 1] == all[..w] + [all[w]];
      pool := pool + [QQToken(words[w], norm(words[w]), t, dur, |pool|)];
      t := t + dur;
    }
    assert all[..|words|] == all;
  }

  lemma SyllableLength(syl: TimedText, norm: string -> string, n: nat)
    ensures |SyllableTokens(syl, norm, n)| == |Fields(syl.text)|
    ensures SharesBefore(Fields(syl.text), 0, syl.duration) == 0
  {
  }

  lemma SyllableTokenAt(syl: TimedText, norm: string -> string, n: nat, w: nat)
    requires w < |Fields(syl.text)| == |SyllableTokens(syl, norm, n)| && |Fields(syl.text)| > 1
    ensures var words, t := Fields(syl.text), SharesBefore(Fields(syl.text), w, syl.duration);
            var dur := Round(Exact(Utf8Len(words[w]), Divisor(words), syl.duration));
            && SyllableTokens(syl, norm, n)[w] == QQToken(words[w], norm(words[w]), syl.time + t, dur, n + w)
            && SharesBefore(words, w + 1, syl.duration) == t + dur
  {
    hide Fields, Divisor, Round, Utf8Len, Exact;
  }

  lemma DivisorIs(words: seq<string>)
    ensures Divisor(words) == if TotalLen(words) == 0 then |words| else TotalLen(words)
  {
  }

  /** flattenQQIntoWordPool: a syllable of several words shares its duration by length. */
  method FlattenPool(syllables: seq<TimedText>, norm: string -> string) returns (pool: seq<QQToken>)
    ensures pool == PoolOf(syllables, norm)
  {
    hide Fields;
    pool := [];
    for s := 0 to |syllables|
      invariant pool == PoolOf(syllables[..s], norm)
    {
      assert syllables[..s + 1][..s] == syllables[..s];
      var syl := syllables[s];
      var words := Fields(syl.text);
      if |words| == 1 {
        pool := pool + [QQToken(words[0], norm(words[0]), syl.time, syl.duration, |pool|)];
      } else if |words| > 1 {
        pool := ShareSyllable(syl, words, norm, pool);
      }
    }
    assert syllables[..|syllables|] == syllables;
  }

  lemma ExactNonNegative(a: nat, total: nat, d: nat)
    requires total > 0
    ensures Round(Exact(a, total, d)) >= 0
  {
    var share := a as real / total as real;
    assert share >= 0.0;
    assert share * d as real >= 0.0;
  }

  /** The part of a song where one line may find its tokens. */
  datatype Window = Window(time: int, duration: int, offset: int)
  {
    predicate Admits(t: int) {
      !(time == 0 && duration == 0) && time + offset - 2000 <= t <= time + offset + duration + 2000
    }
  }

  function Within(pool: seq<QQToken>, w: Window): seq<QQToken> {
    if pool == [] then []
    else Within(pool[..|pool| - 1], w) + if w.Admits(pool[|pool| - 1].time) then [pool[|pool| - 1]] else []
  }

  /** collectCandidates, for one line. */
  method CollectCandidates(pool: seq<QQToken>, w: Window) returns (c: seq<QQToken>)
    ensures c == Within(pool, w)
  {
    c := [];
    for i := 0 to |pool|
      invariant c == Within(pool[..i], w)
    {
      assert pool[..i + 1][..i] == pool[..i];
      if w.Admits(pool[i].time) { c := c + [pool[i]]; }
    }
    assert pool[..|pool|] == pool;
  }

  /** Candidates keep the order of the pool. */
  lemma {:induction false} WithinOrdered(pool: seq<QQToken>, w: Window)
    requires Numbered(pool)
    ensures StrictlyOrdered(Within(pool, w))
    ensures forall i | 0 <= i < |Within(pool, w)| :: Within(pool, w)[i] in pool
    ensures forall i | 0 <= i < |Within(pool, w)| :: Within(pool, w)[i].seqIdx < |pool|
  {
    if pool != [] {
      WithinOrdered(pool[..|pool| - 1], w);
    }
  }

  lemma {:induction false} UsesFromPool(qq: seq<QQToken>, used: seq<(int, int)>, skipped: seq<QQToken>)
    requires Partitions(qq, used, skipped) && forall i | 0 <= i < |qq| :: qq[i].duration >= 0
    ensures forall u | u in used :: u.1 >= 0
    ensures forall r | r in skipped :: r.duration >= 0
  {
    if qq != [] {
      var front, x := qq[..|qq| - 1], qq[|qq| - 1];
      if used != [] && used[|used| - 1] == (x.time, x.duration) && Partitions(front, used[..|used| - 1], skipped) {
        UsesFromPool(front, used[..|used| - 1], skipped);
        assert used == used[..|used| - 1] + [used[|used| - 1]];
      } else {
        UsesFromPool(front, used, skipped[..|skipped| - 1]);
        assert skipped == skipped[..|skipped| - 1] + [skipped[|skipped| - 1]];
      }
    }
  }

  lemma {:induction false} NoUses(slots: seq<Slot>)
    requires forall i | 0 <= i < |slots| :: slots[i] == None
    ensures Uses(slots) == []
  {
    if slots != [] {
      NoUses(slots[1..]);
    }
  }

  lemma {:induction false} NothingPartitioned()
    ensures Partitions([], [], [])
  {
  }

  /** The three ways a line is aligned: nothing to align, nothing affordable, or along a cheapest path. */
  ghost predicate Aligned(p: Problem, slots: seq<Slot>, residuals: seq<QQToken>, path: GridPaths.Path) {
    && |slots| == |p.apple|
    && (p.apple == [] ==> residuals == p.qq)
    && (p.apple != [] && (p.qq == [] || !Affordable(p)) ==>
          residuals == [] && forall i | 0 <= i < |slots| :: slots[i] == None)
    && (p.apple != [] && p.qq != [] && Affordable(p) ==>
          GridPaths.Optimal(GraphOf(p), path) && slots == Slots(p, path) && residuals == Skipped(p, path))
  }

  /** The part of SyncLine that aligns: whatever branch the aligner takes, the slots it hands over are well
      formed and their timings last as long as the pool's. */
  method AlignLine(p: Problem) returns (slots: seq<Slot>, residuals: seq<QQToken>, ghost path: GridPaths.Path)
    requires p.Scored() && StrictlyOrdered(p.qq)
    ensures Aligned(p, slots, residuals, path) && WellFormed(slots)
    ensures (forall i | 0 <= i < |p.qq| :: p.qq[i].duration >= 0) ==>
              (forall u | u in Uses(slots) :: u.1 >= 0) && (forall r | r in residuals :: r.duration >= 0)
    ensures p.apple != [] && GAP_APPLE * |p.apple| as real + GAP_QQ * |p.qq| as real < GridPaths.INF_COST ==>
              Partitions(p.qq, Uses(slots), residuals)
  {
    hide Partitions, Uses, WellFormed, Affordable, GridPaths.Optimal, GraphOf;
    var matches: array<Slot>;
    matches, residuals, path := AlignTokensToQQ(p);
    slots := matches[..];
    if |p.apple| == 0 || |p.qq| == 0 || !Affordable(p) {
      assert forall i | 0 <= i < |slots| :: slots[i] == None;
      NoUses(slots);
      NothingPartitioned();
    } else {
      assert Partitions(p.qq, Uses(slots), residuals);
      if forall i | 0 <= i < |p.qq| :: p.qq[i].duration >= 0 {
        UsesFromPool(p.qq, Uses(slots), residuals);
      }
    }
    if GAP_APPLE * |p.apple| as real + GAP_QQ * |p.qq| as real < GridPaths.INF_COST {
      SmallIsAffordable(p);
    }
  }

  /** What lines are compared and cut by. */
  datatype Rules = Rules(syllable: bool, textSim: Similarity, syllableSim: Similarity, alnum: char -> bool,
                         norm: string -> string)
  {
    ghost predicate Scored() {
      forall x, y :: 0.0 <= textSim(x, y) <= 1.0 && 0.0 <= syllableSim(x, y) <= 1.0
    }
  }

  function LineTokens(text: string, r: Rules): seq<AppleToken> { TokensOf(Fields(text), r.alnum, r.norm) }

  /** What is aligned for a line: its tokens against the timed tokens near it. */
  function ProblemOf(tokens: seq<AppleToken>, pool: seq<QQToken>, w: Window, r: Rules): Problem {
    Problem(tokens, Within(pool, w), w.time, w.time + w.duration, r.syllable, r.textSim, r.syllableSim)
  }

  /** A line is synced: its tokens are aligned at least cost, unless the line has no time of its own, and the slots and
      leftovers are rebuilt into syllables; where a whole alignment is affordable, every timed token near the line is
      used by exactly one slot or left over, in order. */
  ghost predicate LineSynced(text: string, pool: seq<QQToken>, w: Window, r: Rules, slots: seq<Slot>,
                             residuals: seq<QQToken>, path: GridPaths.Path, result: seq<Syllable>) {
    var tokens := LineTokens(text, r);
    && (if w.time == 0 && w.duration == 0 then slots == seq(|tokens|, _ => None) && residuals == []
        else Aligned(ProblemOf(tokens, pool, w, r), slots, residuals, path))
    && |slots| == |tokens| && WellFormed(slots)
    && result == SyllabusOf(tokens, slots, residuals, w.time, w.time + w.duration, r.norm, r.textSim)
    && (tokens != [] && !(w.time == 0 && w.duration == 0)
        && GAP_APPLE * |tokens| as real + GAP_QQ * |Within(pool, w)| as real < GridPaths.INF_COST ==>
          Partitions(Within(pool, w), Uses(slots), residuals))
  }

  /** One line, end to end: its syllables carry the line's text up to white space and never step back in time. */
  method SyncLine(text: string, pool: seq<QQToken>, w: Window, r: Rules)
    returns (result: seq<Syllable>, slots: seq<Slot>, ghost residuals: seq<QQToken>, ghost path: GridPaths.Path)
    requires Numbered(pool) && r.Scored()
    ensures LineSynced(text, pool, w, r, slots, residuals, path, result)
    ensures Ink(SyllableTexts(result)) == Squeeze(Strip(text))
    ensures Lasting(pool) ==> Ascending(result)
  {
    hide Squeeze, Strip, Join, Partitions, Uses, WellFormed, Affordable, SyllabusOf, Aligned, Fields, TokensOf;
    var tokens := TokenizeAppleLine(text, r.alnum, r.norm);
    var lineStart, lineEnd := w.time, w.time + w.duration;
    var near := CollectCandidates(pool, w);
    WithinOrdered(pool, w);
    var left: seq<QQToken>;
    path := GridPaths.Start;
    if lineStart == 0 && lineEnd == 0 {
      slots, left := seq(|tokens|, _ => None), [];
      NoUses(slots);
      NoSlotsWellFormed(slots);
    } else {
      var p := Problem(tokens, near, lineStart, lineEnd, r.syllable, r.textSim, r.syllableSim);
      slots, left, path := AlignLine(p);
      AlignedLength(p, slots, left, path);
    }
    residuals := left;
    ghost var expanded;
    result, expanded := BuildSyllabus(tokens, slots, left, lineStart, lineEnd, r.norm, r.textSim);
  }

  lemma AlignedLength(p: Problem, slots: seq<Slot>, residuals: seq<QQToken>, path: GridPaths.Path)
    requires Aligned(p, slots, residuals, path)
    ensures |slots| == |p.apple|
  {
  }
}
