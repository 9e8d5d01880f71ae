/** A whole song from line-synced text to timed syllables: every line in turn, background marks, and giving up when too
    little was matched (internal/providers/qaple.go, MergeAppleMetadataIntoWordSync and transferBackground). */
module SongSync {
  import opened Wrappers
  import opened Alignment
  import opened Syllabus
  import opened WordSync
  import GridPaths

  /** A share of untimed words above this is too much. */
  const BAIL_THRESHOLD := 0.5

  datatype Mark = Mark(time: int, duration: int, isBackground: bool)

  datatype SourceLine = SourceLine(time: int, duration: int, text: string, marks: seq<Mark>)

  datatype SyncedLine = SyncedLine(time: int, duration: int, text: string, syllables: seq<Syllable>,
                                   background: seq<bool>)

  // ---- background marks ------------------------------------------------------------------

  function Least(a: int, b: int): int { if a < b then a else b }

  function Most(a: int, b: int): int { if a > b then a else b }

  /** The two share some time. */
  predicate Overlaps(s: Syllable, m: Mark) {
    Least(s.time + s.duration, m.time + m.duration) - Most(s.time, m.time) > 0
  }

  predicate InBackground(s: Syllable, marks: seq<Mark>) {
    exists k :: 0 <= k < |marks| && marks[k].isBackground && Overlaps(s, marks[k])
  }

  predicate InTime(t: int, start: int, duration: int) { start <= t < start + duration }

  /** Two stretches of time overlap exactly when some millisecond lies in both. */
  lemma OverlapMeans(s: Syllable, m: Mark)
    ensures Overlaps(s, m) <==> exists t :: InTime(t, s.time, s.duration) && InTime(t, m.time, m.duration)
  {
    if Overlaps(s, m) {
      var t := Most(s.time, m.time);
      assert InTime(t, s.time, s.duration) && InTime(t, m.time, m.duration);
    }
  }

  /** transferBackground: exactly the syllables that overlap a background syllable of the line are marked. */
  method TransferBackground(marks: seq<Mark>, syllables: seq<Syllable>) returns (background: seq<bool>)
    ensures |background| == |syllables|
    ensures forall i | 0 <= i < |syllables| :: background[i] <==> InBackground(syllables[i], marks)
  {
    var bg: seq<Mark> := [];
    for k := 0 to |marks|
      invariant forall m :: m in bg <==> m in marks[..k] && m.isBackground
    {
      if marks[k].isBackground { bg := bg + [marks[k]]; }
    }
    assert marks[..|marks|] == marks;
    background := [];
    for i := 0 to |syllables|
      invariant |background| == i
      invariant forall j | 0 <= j < i :: background[j] <==> InBackground(syllables[j], marks)
    {
      var found := false;
      for b := 0 to |bg|
        invariant found <==> exists c :: 0 <= c < b && Overlaps(syllables[i], bg[c])
      {
        if Overlaps(syllables[i], bg[b]) { found := true; }
      }
      SameMarks(syllables[i], bg, marks);
      background := background + [found];
    }
  }

  lemma SameMarks(s: Syllable, bg: seq<Mark>, marks: seq<Mark>)
    requires forall m :: m in bg <==> m in marks && m.isBackground
    ensures (exists c :: 0 <= c < |bg| && Overlaps(s, bg[c])) <==> InBackground(s, marks)
  {
    hide Overlaps;
    forall k | 0 <= k < |marks| && marks[k].isBackground && Overlaps(s, marks[k])
      ensures exists c :: 0 <= c < |bg| && Overlaps(s, bg[c])
    {
      assert marks[k] in bg;
    }
    forall c | 0 <= c < |bg| && Overlaps(s, bg[c]) ensures InBackground(s, marks) {
      assert bg[c] in marks;
    }
  }

  // ---- the whole song ------------------------------------------------------------------------

  /** What was decided for each line. */
  datatype Match = Match(slots: seq<Slot>, residuals: seq<QQToken>, path: GridPaths.Path)

  function Untimed(slots: seq<Slot>): nat {
    if slots == [] then 0 else Untimed(slots[..|slots| - 1]) + if slots[|slots| - 1].None? then 1 else 0
  }

  function WordsIn(matches: seq<Match>): nat {
    if matches == [] then 0 else WordsIn(matches[..|matches| - 1]) + |matches[|matches| - 1].slots|
  }

  function UntimedIn(matches: seq<Match>): nat {
    if matches == [] then 0 else UntimedIn(matches[..|matches| - 1]) + Untimed(matches[|matches| - 1].slots)
  }

  function WindowOf(line: SourceLine, offset: int): Window { Window(line.time, line.duration, offset) }

  /** A line of the result: its text and times are the line's own, its syllables are those the line is synced to, and
      its background marks are transferred, unless the line has no time of its own. */
  ghost predicate LineDone(line: SourceLine, pool: seq<QQToken>, offset: int, r: Rules, m: Match, out: SyncedLine) {
    && out.time == line.time && out.duration == line.duration && out.text == line.text
    && LineSynced(line.text, pool, WindowOf(line, offset), r, m.slots, m.residuals, m.path, out.syllables)
    && |out.background| == |out.syllables|
    && forall i | 0 <= i < |out.syllables| ::
         out.background[i] <==> !(line.time == 0 && line.duration == 0) && InBackground(out.syllables[i], line.marks)
  }

  /** What a reader of the result relies on. */
  ghost predicate LineSound(line: SourceLine, pool: seq<QQToken>, out: SyncedLine) {
    && Ink(SyllableTexts(out.syllables)) == Squeeze(Strip(line.text))
    && (Lasting(pool) ==> Ascending(out.syllables))
  }

  method SyncOne(line: SourceLine, pool: seq<QQToken>, offset: int, r: Rules)
    returns (out: SyncedLine, words: nat, untimed: nat, ghost m: Match)
    requires Numbered(pool) && r.Scored()
    ensures LineDone(line, pool, offset, r, m, out) && LineSound(line, pool, out)
    ensures words == |m.slots| && untimed == Untimed(m.slots)
  {
    hide LineSynced, Ink, Squeeze, Strip, InBackground, SyllableTexts;
    var syllables, slots;
    ghost var residuals, path;
    syllables, slots, residuals, path := SyncLine(line.text, pool, WindowOf(line, offset), r);
    m := Match(slots, residuals, path);
    var background := seq(|syllables|, _ => false);
    if !(line.time == 0 && line.duration == 0) {
      background := TransferBackground(line.marks, syllables);
    }
    words, untimed := |slots|, 0;
    for k := 0 to |slots|
      invariant untimed == Untimed(slots[..k])
    {
      assert slots[..k + 1][..k] == slots[..k];
      if slots[k].None? { untimed := untimed + 1; }
    }
    assert slots[..|slots|] == slots;
    out := SyncedLine(line.time, line.duration, line.text, syllables, background);
  }

  /** Every line is synced on its own, in order: `all` are the synced lines, with what was decided for each.  They are
      returned, or nothing is, exactly when more than half of all words of the song were left without a timing. */
  method SyncSong(lines: seq<SourceLine>, pool: seq<QQToken>, offset: int, r: Rules)
    returns (song: Option<seq<SyncedLine>>, ghost matches: seq<Match>, ghost all: seq<SyncedLine>)
    requires Numbered(pool) && r.Scored()
    ensures |matches| == |lines| == |all|
    ensures forall a | 0 <= a < |lines| ::
              LineDone(lines[a], pool, offset, r, matches[a], all[a]) && LineSound(lines[a], pool, all[a])
    ensures song == if 2 * UntimedIn(matches) > WordsIn(matches) then None else Some(all)
    ensures song.Some? ==>
              |song.value| == |lines| && forall a | 0 <= a < |lines| :: LineSound(lines[a], pool, song.value[a])
  {
    hide LineDone, LineSound;
    var merged: seq<SyncedLine>, totalWords, totalSynth := [], 0, 0;
    matches := [];
    for a := 0 to |lines|
      invariant |merged| == |matches| == a
      invariant totalWords == WordsIn(matches) && totalSynth == UntimedIn(matches)
      invariant forall i | 0 <= i < a ::
                  LineDone(lines[i], pool, offset, r, matches[i], merged[i]) && LineSound(lines[i], pool, merged[i])
    {
      var out, words, untimed;
      ghost var m;
      out, words, untimed, m := SyncOne(lines[a], pool, offset, r);
      assert (matches + [m])[..a] == matches;
      merged, matches := merged + [out], matches + [m];
      totalWords, totalSynth := totalWords + words, totalSynth + untimed;
    }
    var synthRatio := if totalWords > 0 then totalSynth as real / totalWords as real else 0.0;
    UntimedAtMost(matches);
    ShareIs(totalSynth, totalWords, synthRatio);
    if synthRatio > BAIL_THRESHOLD {
      return None, matches, merged;
    }
    return Some(merged), matches, merged;
  }

  lemma ShareIs(part: nat, total: nat, share: real)
    requires part <= total
    requires share == if total > 0 then part as real / total as real else 0.0
    ensures share > BAIL_THRESHOLD <==> 2 * part > total
  {
    if total > 0 {
      assert share * total as real == part as real;
      if share > BAIL_THRESHOLD {
        assert share * total as real > 0.5 * total as real;
      } else {
        assert share * total as real <= 0.5 * total as real;
      }
    }
  }

  lemma {:induction false} UntimedFew(slots: seq<Slot>)
    ensures Untimed(slots) <= |slots|
  {
    if slots != [] { UntimedFew(slots[..|slots| - 1]); }
  }

  lemma {:induction false} UntimedAtMost(matches: seq<Match>)
    ensures UntimedIn(matches) <= WordsIn(matches)
  {
    if matches != [] {
      UntimedAtMost(matches[..|matches| - 1]);
      UntimedFew(matches[|matches| - 1].slots);
    }
  }
}
