/** Giving untimed lines the times of a word-synced song
    (internal/providers/qaple.go, RetimeAppleLinesFromQQ and its caller's retry). */
module Retime {
  import opened Wrappers
  import opened Utf8
  import opened Rounding

  datatype Line = Line(time: int, duration: int, text: string)
  {
    predicate Timed() { time > 0 || duration > 0 }

    function End(): int { time + duration }
  }

  type Similarity = (string, string) -> real

  const WINDOW := 10
  const MIN_SIM := 0.25

  /** The timed lines a line was matched with: `first..last`, of which `best` scored best. */
  datatype Range = Range(first: nat, best: nat, last: nat)

  type Ranges = seq<Option<Range>>

  function TimedLines(lines: seq<Line>): (r: seq<Line>)
    ensures forall l | l in r :: l.Timed()
  {
    if lines == [] then []
    else TimedLines(lines[..|lines| - 1]) + if lines[|lines| - 1].Timed() then [lines[|lines| - 1]] else []
  }

  predicate FoundAt(s: string, sub: string, i: nat) { i + |sub| <= |s| && s[i..i + |sub|] == sub }

  predicate Contains(s: string, sub: string) { exists i | 0 <= i <= |s| :: FoundAt(s, sub, i) }

  /** Long enough to be recognised inside another line, and found there. */
  predicate Swallows(aNorm: string, qNorm: string) { Utf8Len(qNorm) >= 4 && Contains(aNorm, qNorm) }

  /** Matched ranges are in bounds, disjoint and increase with the line number. */
  ghost predicate Increasing(ranges: Ranges, n: nat) {
    && (forall i | 0 <= i < |ranges| && ranges[i].Some? ::
          ranges[i].value.first <= ranges[i].value.best <= ranges[i].value.last < n)
    && (forall i, j | 0 <= i < j < |ranges| && ranges[i].Some? && ranges[j].Some? ::
          ranges[i].value.last < ranges[j].value.first)
  }

  // ---- what the new times are -----------------------------------------------------

  function MatchedTime(timed: seq<Line>, r: Range): int
    requires r.first < |timed|
  {
    timed[r.first].time
  }

  function MatchedDuration(timed: seq<Line>, r: Range): int
    requires r.first < |timed| && r.best < |timed| && r.last < |timed|
  {
    var span := timed[r.last].End() - timed[r.first].time;
    if timed[r.best].duration > span then timed[r.best].duration else span
  }

  /** End of the last matched line before `i`; 0 when there is none. */
  function PrevEnd(timed: seq<Line>, ranges: Ranges, i: nat): int
    requires i <= |ranges| && Increasing(ranges, |timed|)
  {
    if i == 0 then 0
    else if ranges[i - 1].Some? then
      MatchedTime(timed, ranges[i - 1].value) + MatchedDuration(timed, ranges[i - 1].value)
    else PrevEnd(timed, ranges, i - 1)
  }

  /** Start of the first matched line from `i` on; the end of the song when there is none. */
  function NextStart(timed: seq<Line>, ranges: Ranges, i: nat): int
    requires i <= |ranges| && timed != [] && Increasing(ranges, |timed|)
    decreases |ranges| - i
  {
    if i == |ranges| then timed[|timed| - 1].End()
    else if ranges[i].Some? then MatchedTime(timed, ranges[i].value)
    else NextStart(timed, ranges, i + 1)
  }

  /** Bounds of the unmatched run around `i`. */
  function RunStart(ranges: Ranges, i: nat): (s: nat)
    requires i <= |ranges|
    ensures s <= i && forall k | s <= k < i :: ranges[k].None?
    ensures s > 0 ==> ranges[s - 1].Some?
  {
    if i > 0 && ranges[i - 1].None? then RunStart(ranges, i - 1) else i
  }

  function RunEnd(ranges: Ranges, i: nat): (e: nat)
    requires i <= |ranges|
    ensures i <= e <= |ranges| && forall k | i <= k < e :: ranges[k].None?
    ensures e < |ranges| ==> ranges[e].Some?
    decreases |ranges| - i
  {
    if i < |ranges| && ranges[i].None? then RunEnd(ranges, i + 1) else i
  }

  function SlotLength(prevEnd: int, nextStart: int, n: nat): real
    requires n > 0
  {
    (if nextStart > prevEnd then (nextStart - prevEnd) as real else 0.0) / n as real
  }

  /** Start of the k-th of n even shares of a gap, to the nearest millisecond. */
  function ShareTime(prevEnd: int, nextStart: int, n: nat, k: nat): int
    requires n > 0
  {
    Round(prevEnd as real + k as real * SlotLength(prevEnd, nextStart, n))
  }

  /** The new time and duration of line `i`: those of its range, or an even share of the gap. */
  function NewTiming(timed: seq<Line>, ranges: Ranges, i: nat): (int, int)
    requires i < |ranges| && timed != [] && Increasing(ranges, |timed|)
  {
    if ranges[i].Some? then (MatchedTime(timed, ranges[i].value), MatchedDuration(timed, ranges[i].value))
    else
      var start, end := RunStart(ranges, i), RunEnd(ranges, i);
      var prevEnd, nextStart := PrevEnd(timed, ranges, start), NextStart(timed, ranges, end);
      (ShareTime(prevEnd, nextStart, end - start, i - start), Round(SlotLength(prevEnd, nextStart, end - start)))
  }

  // ---- consequences ------------------------------------------------------------------

  /** Timed lines that start at or after zero, in order and without overlap. */
  predicate Orderly(timed: seq<Line>) {
    && (forall i | 0 <= i < |timed| :: timed[i].time >= 0 && timed[i].duration >= 0)
    && (forall i, j | 0 <= i < j < |timed| :: timed[i].End() <= timed[j].time)
  }

  lemma {:induction false} MatchedSpan(timed: seq<Line>, r: Range)
    requires Orderly(timed) && r.first <= r.best <= r.last < |timed|
    ensures MatchedTime(timed, r) + MatchedDuration(timed, r) == timed[r.last].End()
    ensures MatchedDuration(timed, r) >= timed[r.best].duration
  {
  }

  /** The gap before `i` ends no earlier than it starts. */
  lemma {:induction false} PrevEndBound(timed: seq<Line>, ranges: Ranges, i: nat, t: int)
    requires i <= |ranges| && Orderly(timed) && Increasing(ranges, |timed|) && t >= 0
    requires forall k | 0 <= k < i && ranges[k].Some? :: timed[ranges[k].value.last].End() <= t
    ensures 0 <= PrevEnd(timed, ranges, i) <= t
  {
    if i > 0 {
      if ranges[i - 1].Some? {
        MatchedSpan(timed, ranges[i - 1].value);
      } else {
        PrevEndBound(timed, ranges, i - 1, t);
      }
    }
  }

  lemma {:induction false} GapOrdered(timed: seq<Line>, ranges: Ranges, i: nat)
    requires i <= |ranges| && timed != [] && Orderly(timed) && Increasing(ranges, |timed|)
    requires i < |ranges| ==> ranges[i].Some?
    ensures 0 <= PrevEnd(timed, ranges, i) <= NextStart(timed, ranges, i) <= timed[|timed| - 1].End()
  {
    PrevEndBound(timed, ranges, i, NextStart(timed, ranges, i));
  }

  lemma {:induction false} SlotTotal(lo: int, hi: int, n: nat)
    requires lo <= hi && n > 0
    ensures SlotLength(lo, hi, n) >= 0.0 && SlotLength(lo, hi, n) * n as real == (hi - lo) as real
  {
  }

  lemma {:induction false} ShareBounds(lo: int, hi: int, slot: real, n: nat, k: nat)
    requires slot >= 0.0 && slot * n as real == (hi - lo) as real && k < n
    ensures lo as real <= lo as real + k as real * slot <= hi as real
    ensures lo as real + k as real * slot <= lo as real + (k + 1) as real * slot
  {
    assert k as real * slot <= n as real * slot;
    assert (k + 1) as real * slot == k as real * slot + slot;
  }

  /** The k-th of n even shares of a gap, rounded, stays in the gap, and later shares are later. */
  lemma {:induction false} ShareRounded(lo: int, hi: int, n: nat, k: nat)
    requires lo <= hi && k < n
    ensures lo <= ShareTime(lo, hi, n, k) <= hi && ShareTime(lo, hi, n, k) <= ShareTime(lo, hi, n, k + 1)
  {
    hide SlotLength, Round;
    var slot := SlotLength(lo, hi, n);
    SlotTotal(lo, hi, n);
    ShareBounds(lo, hi, slot, n, k);
    RoundInt(lo);
    RoundInt(hi);
    var x, y := lo as real + k as real * slot, lo as real + (k + 1) as real * slot;
    RoundMonotone(lo as real, x);
    RoundMonotone(x, hi as real);
    RoundMonotone(x, y);
  }

  /** An untimed run is spread between its neighbours: never before the one, never after the other. */
  lemma {:induction false} Interpolated(timed: seq<Line>, ranges: Ranges, i: nat)
    requires i < |ranges| && timed != [] && Orderly(timed) && Increasing(ranges, |timed|) && ranges[i].None?
    ensures PrevEnd(timed, ranges, RunStart(ranges, i)) <= NewTiming(timed, ranges, i).0
         <= NextStart(timed, ranges, RunEnd(ranges, i))
  {
    hide ShareTime, SlotLength, Round;
    var start, end := RunStart(ranges, i), RunEnd(ranges, i);
    SameGap(timed, ranges, start, end);
    GapOrdered(timed, ranges, end);
    ShareRounded(PrevEnd(timed, ranges, start), NextStart(timed, ranges, end), end - start, i - start);
  }

  /** Nothing is matched inside a run, so its whole length sees the same last match. */
  lemma {:induction false} SameGap(timed: seq<Line>, ranges: Ranges, start: nat, end: nat)
    requires start <= end <= |ranges| && Increasing(ranges, |timed|)
    requires forall k | start <= k < end :: ranges[k].None?
    ensures PrevEnd(timed, ranges, end) == PrevEnd(timed, ranges, start)
    decreases end - start
  {
    if start < end {
      SameGap(timed, ranges, start, end - 1);
    }
  }

  lemma RunTiming(timed: seq<Line>, ranges: Ranges, i: nat)
    requires i < |ranges| && timed != [] && Increasing(ranges, |timed|) && ranges[i].None?
    ensures var start, end := RunStart(ranges, i), RunEnd(ranges, i);
            && start <= i < end && (end < |ranges| ==> ranges[end].Some?)
            && NewTiming(timed, ranges, i).0
            == ShareTime(PrevEnd(timed, ranges, start), NextStart(timed, ranges, end), end - start, i - start)
  {
    hide ShareTime, SlotLength, Round, PrevEnd, NextStart, Increasing;
  }

  lemma SameRun(ranges: Ranges, i: nat)
    requires i + 1 < |ranges| && ranges[i].None? && ranges[i + 1].None?
    ensures RunStart(ranges, i + 1) == RunStart(ranges, i) && RunEnd(ranges, i + 1) == RunEnd(ranges, i)
    ensures forall k | RunStart(ranges, i) <= k < RunEnd(ranges, i) :: ranges[k].None?
  {
  }

  lemma MonotoneInRun(timed: seq<Line>, ranges: Ranges, i: nat)
    requires i + 1 < |ranges| && timed != [] && Orderly(timed) && Increasing(ranges, |timed|)
    requires ranges[i].None? && ranges[i + 1].None?
    ensures NewTiming(timed, ranges, i).0 <= NewTiming(timed, ranges, i + 1).0
  {
    hide *;
    var start, end := RunStart(ranges, i), RunEnd(ranges, i);
    RunTiming(timed, ranges, i);
    RunTiming(timed, ranges, i + 1);
    SameRun(ranges, i);
    SameGap(timed, ranges, start, end);
    GapOrdered(timed, ranges, end);
    ShareRounded(PrevEnd(timed, ranges, start), NextStart(timed, ranges, end), end - start, i - start);
  }

  /** New line times never step back. */
  lemma {:induction false} Monotone(timed: seq<Line>, ranges: Ranges, i: nat)
    requires i + 1 < |ranges| && timed != [] && Orderly(timed) && Increasing(ranges, |timed|)
    ensures NewTiming(timed, ranges, i).0 <= NewTiming(timed, ranges, i + 1).0
  {
    hide ShareTime, SlotLength, Round;
    if ranges[i].None? && ranges[i + 1].None? {
      MonotoneInRun(timed, ranges, i);
    } else if ranges[i].None? {
      Interpolated(timed, ranges, i);
      assert RunEnd(ranges, i) == i + 1;
    } else {
      MatchedSpan(timed, ranges[i].value);
      if ranges[i + 1].None? {
        Interpolated(timed, ranges, i + 1);
        assert RunStart(ranges, i + 1) == i + 1;
      }
    }
  }

  /** Times as players write them; lines may overlap and run backwards. */
  predicate NonNegative(timed: seq<Line>) {
    forall i | 0 <= i < |timed| :: timed[i].time >= 0 && timed[i].duration >= 0
  }

  /** Retiming against a song with at least one timed line, and no negative time, leaves some line timed. */
  lemma {:induction false} SomeLineTimed(timed: seq<Line>, ranges: Ranges) returns (i: nat)
    requires ranges != [] && timed != [] && (forall l | l in timed :: l.Timed())
    requires NonNegative(timed) && Increasing(ranges, |timed|)
    ensures i < |ranges| && (NewTiming(timed, ranges, i).0 > 0 || NewTiming(timed, ranges, i).1 > 0)
  {
    hide ShareTime, SlotLength, Round;
    if k :| 0 <= k < |ranges| && ranges[k].Some? {
      i := k;
      MatchedTimed(timed, ranges[k].value);
    } else {
      i := |ranges| - 1;
      AllUnmatched(timed, ranges, i);
      assert timed[|timed| - 1] in timed;
      LastShare(|ranges|, timed[|timed| - 1].End());
    }
  }

  lemma {:induction false} MatchedTimed(timed: seq<Line>, r: Range)
    requires (forall l | l in timed :: l.Timed()) && NonNegative(timed) && r.first <= r.best <= r.last < |timed|
    ensures MatchedTime(timed, r) > 0 || MatchedDuration(timed, r) > 0
  {
    assert timed[r.first] in timed;
    assert timed[r.best] in timed;
    assert timed[r.last] in timed;
  }

  lemma {:induction false} LastShare(n: nat, total: int)
    requires n >= 1 && total >= 1
    ensures var slot := SlotLength(0, total, n);
            ShareTime(0, total, n, n - 1) > 0 || Round(slot) > 0
  {
    var slot := SlotLength(0, total, n);
    assert slot * n as real == total as real;
    assert (n - 1) as real * slot == total as real - slot;
    if n == 1 {
      RoundInt(total);
    } else {
      assert slot * n as real >= slot * 2.0;
    }
  }

  lemma {:induction false} AllUnmatched(timed: seq<Line>, ranges: Ranges, i: nat)
    requires i < |ranges| && timed != [] && forall k | 0 <= k < |ranges| :: ranges[k].None?
    ensures RunStart(ranges, i) == 0 && RunEnd(ranges, i) == |ranges|
    ensures PrevEnd(timed, ranges, 0) == 0 && NextStart(timed, ranges, |ranges|) == timed[|timed| - 1].End()
  {
  }

  // ---- the algorithm ---------------------------------------------------------------------

  /** The range matched to a line: the first best-scoring timed line among the next ten, grown on both
      sides over every neighbour the line swallows. */
  ghost predicate GoodRange(aNorm: string, norms: seq<string>, cursor: nat, r: Option<Range>, sim: Similarity) {
    match r
    case None => forall q | cursor <= q < |norms| && q < cursor + WINDOW :: sim(aNorm, norms[q]) <= MIN_SIM
    case Some(Range(first, best, last)) =>
      && cursor <= first <= best <= last < |norms| && best < cursor + WINDOW
      && sim(aNorm, norms[best]) > MIN_SIM
      && (forall q | cursor <= q < |norms| && q < cursor + WINDOW :: sim(aNorm, norms[q]) <= sim(aNorm, norms[best]))
      && (forall q | cursor <= q < best :: sim(aNorm, norms[q]) < sim(aNorm, norms[best]))
      && (forall q | first <= q <= last && q != best :: Swallows(aNorm, norms[q]))
      && (first == cursor || !Swallows(aNorm, norms[first - 1]))
      && (last + 1 == |norms| || !Swallows(aNorm, norms[last + 1]))
  }

  method MatchLine(aNorm: string, norms: seq<string>, cursor: nat, sim: Similarity) returns (r: Option<Range>)
    requires cursor <= |norms|
    ensures GoodRange(aNorm, norms, cursor, r, sim)
  {
    hide Swallows;
    var bestSim, bestIdx: int := MIN_SIM, -1;
    var searchEnd := |norms|;
    if cursor + WINDOW < searchEnd { searchEnd := cursor + WINDOW; }
    for q := cursor to searchEnd
      invariant bestIdx == -1 ==> bestSim == MIN_SIM
      invariant bestIdx != -1 ==> cursor <= bestIdx < q && bestSim == sim(aNorm, norms[bestIdx]) > MIN_SIM
      invariant forall k | cursor <= k < q :: sim(aNorm, norms[k]) <= bestSim
      invariant bestIdx != -1 ==> forall k | cursor <= k < bestIdx :: sim(aNorm, norms[k]) < bestSim
    {
      var score := sim(aNorm, norms[q]);
      if score > bestSim {
        bestSim, bestIdx := score, q;
      }
    }
    if bestIdx < 0 {
      return None;
    }
    var startIdx := bestIdx;
    while startIdx > cursor && Swallows(aNorm, norms[startIdx - 1])
      invariant cursor <= startIdx <= bestIdx
      invariant forall q | startIdx <= q < bestIdx :: Swallows(aNorm, norms[q])
    {
      startIdx := startIdx - 1;
    }
    var endIdx := bestIdx;
    while endIdx + 1 < |norms| && Swallows(aNorm, norms[endIdx + 1])
      invariant bestIdx <= endIdx < |norms|
      invariant forall q | bestIdx < q <= endIdx :: Swallows(aNorm, norms[q])
    {
      endIdx := endIdx + 1;
    }
    return Some(Range(startIdx, bestIdx, endIdx));
  }

  /** The first timed line not used by the matched lines before `i`. */
  function Cursor(ranges: Ranges, i: nat): nat
    requires i <= |ranges|
  {
    if i == 0 then 0 else if ranges[i - 1].Some? then ranges[i - 1].value.last + 1 else Cursor(ranges, i - 1)
  }

  /** Each line, in order, is matched past everything matched before it; blank lines are not matched. */
  ghost predicate Chosen(aNorm: string, norms: seq<string>, ranges: Ranges, i: nat, sim: Similarity)
    requires i < |ranges|
  {
    if aNorm == "" then ranges[i].None? else GoodRange(aNorm, norms, Cursor(ranges, i), ranges[i], sim)
  }

  lemma {:induction false} CursorSame(xs: Ranges, ys: Ranges, i: nat)
    requires i <= |xs| && i <= |ys| && xs[..i] == ys[..i]
    ensures Cursor(xs, i) == Cursor(ys, i)
  {
    if i > 0 {
      assert xs[i - 1] == xs[..i][i - 1] == ys[i - 1];
      assert xs[..i - 1] == xs[..i][..i - 1] == ys[..i - 1];
      CursorSame(xs, ys, i - 1);
    }
  }

  /** A new range past the cursor keeps the ranges increasing. */
  lemma {:induction false} IncreasingStep(ranges: Ranges, r: Option<Range>, n: nat, cursor: nat)
    requires Increasing(ranges, n) && (forall i | 0 <= i < |ranges| && ranges[i].Some? :: ranges[i].value.last < cursor)
    requires r.Some? ==> cursor <= r.value.first <= r.value.best <= r.value.last < n
    ensures Increasing(ranges + [r], n)
  {
  }

  function Norms(timed: seq<Line>, norm: string -> string): seq<string> {
    seq(|timed|, i requires 0 <= i < |timed| => norm(timed[i].text))
  }

  lemma ChosenAgain(aNorm: string, norms: seq<string>, xs: Ranges, ys: Ranges, i: nat, sim: Similarity)
    requires i < |xs| && i < |ys| && xs[..i + 1] == ys[..i + 1] && Chosen(aNorm, norms, xs, i, sim)
    ensures Chosen(aNorm, norms, ys, i, sim)
  {
    hide GoodRange, Cursor;
    assert xs[i] == xs[..i + 1][i] == ys[i] && xs[..i] == xs[..i + 1][..i] == ys[..i];
    CursorSame(xs, ys, i);
  }

  lemma ChosenNew(aNorm: string, norms: seq<string>, before: Ranges, r: Option<Range>, sim: Similarity)
    requires if aNorm == "" then r.None? else GoodRange(aNorm, norms, Cursor(before, |before|), r, sim)
    ensures Chosen(aNorm, norms, before + [r], |before|, sim)
  {
    hide GoodRange, Cursor;
    assert (before + [r])[..|before|] == before[..|before|];
    CursorSame(before + [r], before, |before|);
  }

  lemma CursorNext(before: Ranges, r: Option<Range>)
    ensures Cursor(before + [r], |before| + 1) == if r.Some? then r.value.last + 1 else Cursor(before, |before|)
  {
    assert (before + [r])[..|before|] == before[..|before|];
    CursorSame(before + [r], before, |before|);
  }

  /** First pass: match lines in order. */
  method MatchLines(apple: seq<Line>, timed: seq<Line>, norm: string -> string, sim: Similarity)
    returns (ranges: Ranges)
    ensures |ranges| == |apple| && Increasing(ranges, |timed|)
    ensures forall i | 0 <= i < |apple| :: Chosen(norm(apple[i].text), Norms(timed, norm), ranges, i, sim)
  {
    hide GoodRange, Chosen, Cursor, Increasing;
    var norms := Norms(timed, norm);
    ranges := [];
    var cursor := 0;
    NoRanges(|timed|);
    for a := 0 to |apple|
      invariant |ranges| == a && Increasing(ranges, |timed|) && cursor == Cursor(ranges, a) <= |timed|
      invariant forall i | 0 <= i < a && ranges[i].Some? :: ranges[i].value.last < cursor
      invariant forall i | 0 <= i < a :: Chosen(norm(apple[i].text), norms, ranges, i, sim)
    {
      var aNorm := norm(apple[a].text);
      var r: Option<Range> := None;
      if aNorm != "" {
        r := MatchLine(aNorm, norms, cursor, sim);
        RangeBounds(aNorm, norms, cursor, r, sim);
      }
      IncreasingStep(ranges, r, |timed|, cursor);
      ChosenNew(aNorm, norms, ranges, r, sim);
      CursorNext(ranges, r);
      ghost var before := ranges;
      ranges := ranges + [r];
      forall i | 0 <= i < a ensures Chosen(norm(apple[i].text), norms, ranges, i, sim) {
        assert before[..i + 1] == ranges[..i + 1];
        ChosenAgain(norm(apple[i].text), norms, before, ranges, i, sim);
      }
      if r.Some? { cursor := r.value.last + 1; }
    }
  }

  lemma NoRanges(n: nat)
    ensures Increasing([], n) && Cursor([], 0) == 0
  {
  }

  lemma RangeBounds(aNorm: string, norms: seq<string>, cursor: nat, r: Option<Range>, sim: Similarity)
    requires GoodRange(aNorm, norms, cursor, r, sim)
    ensures r.Some? ==> cursor <= r.value.first <= r.value.best <= r.value.last < |norms|
  {
  }

  /** Line `i` with its new time. */
  function NewLine(apple: seq<Line>, timed: seq<Line>, ranges: Ranges, i: nat): Line
    requires i < |ranges| == |apple| && timed != [] && Increasing(ranges, |timed|)
  {
    Line(NewTiming(timed, ranges, i).0, NewTiming(timed, ranges, i).1, apple[i].text)
  }

  /** Matched lines, and every line before `n`, carry their new times. */
  ghost predicate RetimedUpto(apple: seq<Line>, result: seq<Line>, timed: seq<Line>, ranges: Ranges, n: nat)
    requires |ranges| == |apple| && timed != [] && Increasing(ranges, |timed|)
  {
    && |result| == |apple|
    && forall i | 0 <= i < |apple| && (i < n || ranges[i].Some?) :: result[i] == NewLine(apple, timed, ranges, i)
  }

  method PlaceMatched(apple: seq<Line>, timed: seq<Line>, ranges: Ranges) returns (result: seq<Line>)
    requires |ranges| == |apple| && timed != [] && Increasing(ranges, |timed|)
    ensures RetimedUpto(apple, result, timed, ranges, 0)
  {
    result := apple;
    for a := 0 to |apple|
      invariant |result| == |apple|
      invariant forall i | 0 <= i < a && ranges[i].Some? :: result[i] == NewLine(apple, timed, ranges, i)
      invariant forall i | a <= i < |apple| :: result[i] == apple[i]
    {
      if ranges[a].Some? {
        var r := ranges[a].value;
        result := result[a := Line(MatchedTime(timed, r), MatchedDuration(timed, r), apple[a].text)];
      }
    }
  }

  /** Spreads one maximal unmatched run over the gap around it. */
  method FillRun(apple: seq<Line>, timed: seq<Line>, ranges: Ranges, runStart: nat, runEnd: nat, result0: seq<Line>)
    returns (result: seq<Line>)
    requires |ranges| == |apple| && timed != [] && Increasing(ranges, |timed|)
    requires runStart < runEnd <= |ranges| && RetimedUpto(apple, result0, timed, ranges, runStart)
    requires forall i | runStart <= i < runEnd :: ranges[i].None?
    requires runStart > 0 ==> ranges[runStart - 1].Some?
    requires runEnd < |ranges| ==> ranges[runEnd].Some?
    ensures RetimedUpto(apple, result, timed, ranges, runEnd)
  {
    hide Increasing, PrevEnd, NextStart, SlotLength, Round, ShareTime, RunStart, RunEnd, NewLine;
    result := result0;
    GapEnds(apple, timed, ranges, runStart, runEnd, result);
    var prevEnd := 0;
    if runStart > 0 { prevEnd := result[runStart - 1].End(); }
    var nextStart := if runEnd < |result| then result[runEnd].time else timed[|timed| - 1].End();
    var slot := SlotLength(prevEnd, nextStart, runEnd - runStart);
    for k := 0 to runEnd - runStart
      invariant RetimedUpto(apple, result, timed, ranges, runStart + k)
    {
      var i := runStart + k;
      ShareLine(apple, timed, ranges, runStart, runEnd, i);
      result := result[i := Line(ShareTime(prevEnd, nextStart, runEnd - runStart, k), Round(slot), apple[i].text)];
    }
  }

  /** The gap around a run, read off the lines that are already in place. */
  lemma {:induction false} GapEnds(apple: seq<Line>, timed: seq<Line>, ranges: Ranges, start: nat, end: nat,
                                   result: seq<Line>)
    requires |ranges| == |apple| && timed != [] && Increasing(ranges, |timed|)
    requires start < end <= |ranges| && RetimedUpto(apple, result, timed, ranges, start)
    requires start > 0 ==> ranges[start - 1].Some?
    requires end < |ranges| ==> ranges[end].Some?
    ensures PrevEnd(timed, ranges, start) == if start > 0 then result[start - 1].End() else 0
    ensures NextStart(timed, ranges, end) == if end < |ranges| then result[end].time else timed[|timed| - 1].End()
  {
    hide Increasing;
    if start > 0 { assert result[start - 1] == NewLine(apple, timed, ranges, start - 1); }
    if end < |ranges| { assert result[end] == NewLine(apple, timed, ranges, end); }
  }

  lemma {:induction false} ShareLine(apple: seq<Line>, timed: seq<Line>, ranges: Ranges, start: nat, end: nat, i: nat)
    requires |ranges| == |apple| && timed != [] && Increasing(ranges, |timed|)
    requires start <= i < end <= |ranges| && forall k | start <= k < end :: ranges[k].None?
    requires start > 0 ==> ranges[start - 1].Some?
    requires end < |ranges| ==> ranges[end].Some?
    ensures var prevEnd, nextStart := PrevEnd(timed, ranges, start), NextStart(timed, ranges, end);
            var slot := SlotLength(prevEnd, nextStart, end - start);
            NewLine(apple, timed, ranges, i)
            == Line(ShareTime(prevEnd, nextStart, end - start, i - start), Round(slot), apple[i].text)
  {
    hide Increasing, PrevEnd, NextStart, SlotLength, Round, ShareTime, RunStart, RunEnd;
    RunBounds(ranges, start, end);
  }

  /** Second pass: every unmatched run in turn. */
  method FillRuns(apple: seq<Line>, timed: seq<Line>, ranges: Ranges) returns (result: seq<Line>)
    requires |ranges| == |apple| && timed != [] && Increasing(ranges, |timed|)
    ensures RetimedUpto(apple, result, timed, ranges, |apple|)
  {
    hide Increasing, NewLine;
    result := PlaceMatched(apple, timed, ranges);
    var a := 0;
    while a < |result|
      invariant 0 <= a <= |apple| && RetimedUpto(apple, result, timed, ranges, a)
      invariant 0 < a < |ranges| && ranges[a].None? ==> ranges[a - 1].Some?
    {
      if ranges[a].Some? {
        a := a + 1;
        continue;
      }
      var runEnd := a;
      while runEnd < |result| && ranges[runEnd].None?
        invariant a <= runEnd <= |result| && forall k | a <= k < runEnd :: ranges[k].None?
      {
        runEnd := runEnd + 1;
      }
      result := FillRun(apple, timed, ranges, a, runEnd, result);
      a := runEnd;
    }
  }

  lemma {:induction false} RunBounds(ranges: Ranges, start: nat, end: nat)
    requires start < end <= |ranges| && forall k | start <= k < end :: ranges[k].None?
    requires start > 0 ==> ranges[start - 1].Some?
    requires end < |ranges| ==> ranges[end].Some?
    ensures forall i | start <= i < end :: RunStart(ranges, i) == start && RunEnd(ranges, i) == end
  {
  }

  /** Retiming: without a timed line the lines come back as they were, otherwise every line is matched
      in turn and takes the time of its range or its share of a gap. */
  ghost predicate Retimes(apple: seq<Line>, word: seq<Line>, norm: string -> string, sim: Similarity, ranges: Ranges,
                          result: seq<Line>) {
    var timed := TimedLines(word);
    if timed == [] then result == apple
    else
      && |ranges| == |apple| && Increasing(ranges, |timed|)
      && (forall i | 0 <= i < |apple| :: Chosen(norm(apple[i].text), Norms(timed, norm), ranges, i, sim))
      && RetimedUpto(apple, result, timed, ranges, |apple|)
  }

  /** RetimeAppleLinesFromQQ. */
  method RetimeLines(apple: seq<Line>, word: seq<Line>, norm: string -> string, sim: Similarity)
    returns (result: seq<Line>, ghost ranges: Ranges)
    ensures Retimes(apple, word, norm, sim, ranges, result)
    ensures Orderly(TimedLines(word)) && TimedLines(word) != [] ==>
              forall i | 0 < i < |result| :: result[i - 1].time <= result[i].time
  {
    hide NewTiming, Increasing, Orderly, Chosen;
    var timed: seq<Line> := [];
    for i := 0 to |word|
      invariant timed == TimedLines(word[..i])
    {
      assert word[..i + 1][..i] == word[..i];
      if word[i].Timed() { timed := timed + [word[i]]; }
    }
    assert word[..|word|] == word;
    ranges := [];
    if |timed| == 0 {
      return apple, ranges;
    }
    var found := MatchLines(apple, timed, norm, sim);
    ranges := found;
    result := FillRuns(apple, timed, found);
    if Orderly(timed) {
      forall i | 0 < i < |result| ensures result[i - 1].time <= result[i].time {
        Monotone(timed, ranges, i - 1);
      }
    }
  }

  // ---- retiming depends on the texts only ---------------------------------------------------

  lemma OneGoodRange(aNorm: string, norms: seq<string>, cursor: nat, r: Option<Range>, r': Option<Range>,
                     sim: Similarity)
    requires GoodRange(aNorm, norms, cursor, r, sim) && GoodRange(aNorm, norms, cursor, r', sim)
    ensures r == r'
  {
    hide Swallows;
    if r.Some? && r'.Some? {
      assert sim(aNorm, norms[r.value.best]) == sim(aNorm, norms[r'.value.best]);
    }
  }

  lemma OneChoice(aNorm: string, norms: seq<string>, xs: Ranges, ys: Ranges, i: nat, sim: Similarity)
    requires i < |xs| && i < |ys| && xs[..i] == ys[..i]
    requires Chosen(aNorm, norms, xs, i, sim) && Chosen(aNorm, norms, ys, i, sim)
    ensures xs[i] == ys[i]
  {
    hide GoodRange, Cursor;
    CursorSame(xs, ys, i);
    if aNorm != "" { OneGoodRange(aNorm, norms, Cursor(xs, i), xs[i], ys[i], sim); }
  }

  predicate SameTexts(a: seq<Line>, b: seq<Line>) { |a| == |b| && forall i | 0 <= i < |a| :: a[i].text == b[i].text }

  lemma {:induction false} OneMatching(a: seq<Line>, b: seq<Line>, norms: seq<string>, norm: string -> string,
                                       xs: Ranges, ys: Ranges,
                                       sim: Similarity, n: nat)
    requires SameTexts(a, b) && |xs| == |ys| == |a| && n <= |a|
    requires forall i | 0 <= i < |a| ::
            Chosen(norm(a[i].text), norms, xs, i, sim) && Chosen(norm(b[i].text), norms, ys, i, sim)
    ensures xs[..n] == ys[..n]
  {
    hide Chosen;
    if n > 0 {
      OneMatching(a, b, norms, norm, xs, ys, sim, n - 1);
      OneChoice(norm(a[n - 1].text), norms, xs, ys, n - 1, sim);
      assert xs[..n] == xs[..n - 1] + [xs[n - 1]] && ys[..n] == ys[..n - 1] + [ys[n - 1]];
    }
  }

  /** Lines with the same texts are retimed to the same times, whatever times they had. */
  lemma RetimesOnce(a: seq<Line>, b: seq<Line>, word: seq<Line>, norm: string -> string, sim: Similarity,
                    xs: Ranges, ys: Ranges, a': seq<Line>, b': seq<Line>)
    requires SameTexts(a, b) && TimedLines(word) != []
    requires Retimes(a, word, norm, sim, xs, a') && Retimes(b, word, norm, sim, ys, b')
    ensures a' == b'
  {
    hide Chosen, Increasing, NewTiming, Norms;
    var timed := TimedLines(word);
    OneMatching(a, b, Norms(timed, norm), norm, xs, ys, sim, |a|);
    assert xs[..|a|] == xs && ys[..|a|] == ys;
    forall i | 0 <= i < |a| ensures a'[i] == b'[i] {
      assert a'[i] == NewLine(a, timed, xs, i) && b'[i] == NewLine(b, timed, ys, i);
    }
  }

  /** Retiming what was retimed changes nothing, so a merge that retries once retries for good. */
  lemma RetimingSettles(apple: seq<Line>, word: seq<Line>, norm: string -> string, sim: Similarity,
                        xs: Ranges, ys: Ranges, once: seq<Line>, twice: seq<Line>)
    requires Retimes(apple, word, norm, sim, xs, once) && Retimes(once, word, norm, sim, ys, twice)
    ensures twice == once
  {
    hide Chosen, Increasing, NewTiming, Norms;
    var timed := TimedLines(word);
    if timed != [] {
      forall i | 0 <= i < |apple| ensures once[i].text == apple[i].text {
        assert once[i] == NewLine(apple, timed, xs, i);
      }
      RetimesOnce(apple, once, word, norm, sim, xs, ys, once, twice);
    }
  }

  // ---- the caller's retry -------------------------------------------------------------------

  predicate HasValidTiming(lines: seq<Line>) { exists i | 0 <= i < |lines| :: lines[i].Timed() }

  // Exactly when retiming leaves every line without a time

  /** A matched range that gives no time: its first line starts at or before zero, its best line has no duration, and
      its last line ends where the first one starts, or before. */
  predicate GivesNoTime(timed: seq<Line>, r: Range)
    requires r.first < |timed| && r.best < |timed| && r.last < |timed|
  {
    timed[r.first].time <= 0 && timed[r.best].duration <= 0 && timed[r.last].End() <= timed[r.first].time
  }

  /** A gap that gives no time to a run of n lines: it ends at or before zero, and an even share of it is less than half
      a millisecond. */
  predicate GapGivesNoTime(prevEnd: int, nextStart: int, n: nat) { nextStart <= 0 && 2 * (nextStart - prevEnd) < n }

  /** The range of a matched line, or the gap around an unmatched one, gives no time. */
  predicate NoTimeAt(timed: seq<Line>, ranges: Ranges, i: nat)
    requires i < |ranges| && timed != [] && Increasing(ranges, |timed|)
  {
    match ranges[i]
    case Some(r) => GivesNoTime(timed, r)
    case None =>
      var start, end := RunStart(ranges, i), RunEnd(ranges, i);
      GapGivesNoTime(PrevEnd(timed, ranges, start), NextStart(timed, ranges, end), end - start)
  }

  /** Neither a matched range nor the gap around an unmatched line gives a time. */
  predicate NoTimeToGive(timed: seq<Line>, ranges: Ranges)
    requires timed != [] && Increasing(ranges, |timed|)
  {
    forall i | 0 <= i < |ranges| :: NoTimeAt(timed, ranges, i)
  }

  lemma MatchedUntimed(timed: seq<Line>, r: Range)
    requires r.first < |timed| && r.best < |timed| && r.last < |timed|
    ensures GivesNoTime(timed, r) <==> MatchedTime(timed, r) <= 0 && MatchedDuration(timed, r) <= 0
  {
  }

  lemma {:induction false} PrevEndUntimed(timed: seq<Line>, ranges: Ranges, i: nat)
    requires i <= |ranges| && Increasing(ranges, |timed|)
    requires timed != [] && forall k | 0 <= k < i && ranges[k].Some? :: NoTimeAt(timed, ranges, k)
    ensures PrevEnd(timed, ranges, i) <= 0
  {
    hide MatchedTime, MatchedDuration, GivesNoTime, GapGivesNoTime, NextStart, RunStart, RunEnd;
    if i > 0 {
      if ranges[i - 1].Some? {
        assert NoTimeAt(timed, ranges, i - 1);
        MatchedUntimed(timed, ranges[i - 1].value);
      } else {
        PrevEndUntimed(timed, ranges, i - 1);
      }
    }
  }

  lemma OneLess(n: nat, slot: real)
    requires n > 0
    ensures (n - 1) as real * slot == slot * n as real - slot
  {
    var m := n as real;
    assert (n - 1) as real == m - 1.0;
    assert (m - 1.0) * slot == m * slot - slot;
  }

  /** The last of n even shares starts one share before the end of the gap. */
  lemma LastShareIs(prevEnd: int, nextStart: int, n: nat)
    requires prevEnd <= nextStart && n > 0
    ensures ShareTime(prevEnd, nextStart, n, n - 1) == Round(nextStart as real - SlotLength(prevEnd, nextStart, n))
  {
    var slot := SlotLength(prevEnd, nextStart, n);
    hide SlotLength, Round;
    SlotTotal(prevEnd, nextStart, n);
    OneLess(n, slot);
    assert prevEnd as real + (n - 1) as real * slot == nextStart as real - slot;
  }

  lemma HalfRounds(x: real)
    ensures x >= 0.0 ==> (Round(x) <= 0 <==> x < 0.5)
    ensures x >= 0.5 ==> Round(x) > 0
  {
    if x >= 0.0 {
      assert Round(x) == (x + 0.5).Floor;
      if x < 0.5 { assert (x + 0.5).Floor < 1; } else { assert (x + 0.5).Floor >= 1; }
    }
  }

  lemma TimesPositive(a: real, b: real, m: real)
    requires m > 0.0
    ensures a < b ==> a * m < b * m
    ensures a <= b ==> a * m <= b * m
  {
    assert b * m - a * m == (b - a) * m;
  }

  lemma LessThanHalf(slot: real, n: nat, gap: int)
    requires n > 0 && slot * n as real == gap as real
    ensures slot < 0.5 <==> 2 * gap < n
  {
    var m := n as real;
    TimesPositive(slot, 0.5, m);
    TimesPositive(0.5, slot, m);
    assert (2 * gap) as real == 2.0 * gap as real;
  }

  /** The share of a gap is rounded away exactly when it is less than half a millisecond. */
  lemma SlotUntimed(prevEnd: int, nextStart: int, n: nat)
    requires n > 0
    ensures Round(SlotLength(prevEnd, nextStart, n)) <= 0 <==> 2 * (nextStart - prevEnd) < n
  {
    var slot := SlotLength(prevEnd, nextStart, n);
    HalfRounds(slot);
    hide Round;
    if nextStart > prevEnd {
      SlotTotal(prevEnd, nextStart, n);
      LessThanHalf(slot, n, nextStart - prevEnd);
      hide SlotLength;
    } else {
      assert slot == 0.0;
    }
  }

  /** In a gap that gives no time no share gets one. */
  lemma SharesUntimed(prevEnd: int, nextStart: int, n: nat, k: nat)
    requires k < n && prevEnd <= 0 && GapGivesNoTime(prevEnd, nextStart, n)
    ensures ShareTime(prevEnd, nextStart, n, k) <= 0 && Round(SlotLength(prevEnd, nextStart, n)) <= 0
  {
    SlotUntimed(prevEnd, nextStart, n);
    if prevEnd <= nextStart {
      ShareRounded(prevEnd, nextStart, n, k);
    } else {
      NoSlot(prevEnd, nextStart, n, k);
    }
  }

  lemma NoSlot(prevEnd: int, nextStart: int, n: nat, k: nat)
    requires n > 0 && nextStart <= prevEnd
    ensures ShareTime(prevEnd, nextStart, n, k) == prevEnd
  {
    assert SlotLength(prevEnd, nextStart, n) == 0.0;
    assert k as real * 0.0 == 0.0;
    RoundInt(prevEnd);
    hide Round;
  }

  /** In any other gap the last share gets a time. */
  lemma SomeShareTimed(prevEnd: int, nextStart: int, n: nat)
    requires n > 0 && prevEnd <= 0 && !GapGivesNoTime(prevEnd, nextStart, n)
    ensures ShareTime(prevEnd, nextStart, n, n - 1) > 0 || Round(SlotLength(prevEnd, nextStart, n)) > 0
  {
    SlotUntimed(prevEnd, nextStart, n);
    var slot := SlotLength(prevEnd, nextStart, n);
    HalfRounds(slot);
    if nextStart > 0 {
      LastShareIs(prevEnd, nextStart, n);
      SlotTotal(prevEnd, nextStart, n);
      HalfRounds(nextStart as real - slot);
      hide Round, SlotLength, ShareTime;
    }
  }

  predicate Untimed(t: (int, int)) { t.0 <= 0 && t.1 <= 0 }

  lemma RunTimes(timed: seq<Line>, ranges: Ranges, i: nat)
    requires i < |ranges| && timed != [] && Increasing(ranges, |timed|) && ranges[i].None?
    ensures var start, end := RunStart(ranges, i), RunEnd(ranges, i);
            var prevEnd, nextStart := PrevEnd(timed, ranges, start), NextStart(timed, ranges, end);
            && start <= i < end <= |ranges| && ranges[end - 1].None?
            && RunStart(ranges, end - 1) == start && RunEnd(ranges, end - 1) == end
            && forall k | start <= k < end ::
                 NewTiming(timed, ranges, k) == (ShareTime(prevEnd, nextStart, end - start, k - start),
                                                 Round(SlotLength(prevEnd, nextStart, end - start)))
  {
    hide ShareTime, SlotLength, Round, PrevEnd, NextStart, Increasing;
    var start, end := RunStart(ranges, i), RunEnd(ranges, i);
    RunBounds(ranges, start, end);
  }

  lemma {:induction false} AllUntimed(timed: seq<Line>, ranges: Ranges, i: nat)
    requires i < |ranges| && timed != [] && Increasing(ranges, |timed|) && NoTimeToGive(timed, ranges)
    ensures Untimed(NewTiming(timed, ranges, i))
  {
    hide ShareTime, SlotLength, Round, PrevEnd, NextStart, RunStart, RunEnd, MatchedTime, MatchedDuration;
    hide GivesNoTime, GapGivesNoTime;
    assert NoTimeAt(timed, ranges, i);
    if ranges[i].Some? {
      MatchedUntimed(timed, ranges[i].value);
    } else {
      var start, end := RunStart(ranges, i), RunEnd(ranges, i);
      RunTimes(timed, ranges, i);
      PrevEndUntimed(timed, ranges, start);
      SharesUntimed(PrevEnd(timed, ranges, start), NextStart(timed, ranges, end), end - start, i - start);
    }
  }

  lemma {:induction false} SourceGives(timed: seq<Line>, ranges: Ranges, i: nat)
    requires i < |ranges| && timed != [] && Increasing(ranges, |timed|)
    requires forall k | 0 <= k < |ranges| :: Untimed(NewTiming(timed, ranges, k))
    ensures NoTimeAt(timed, ranges, i)
    decreases if ranges[i].Some? then 0 else 1
  {
    hide ShareTime, SlotLength, Round, PrevEnd, NextStart, RunStart, RunEnd, MatchedTime, MatchedDuration;
    hide GivesNoTime, GapGivesNoTime;
    assert Untimed(NewTiming(timed, ranges, i));
    if ranges[i].Some? {
      MatchedUntimed(timed, ranges[i].value);
    } else {
      var start, end := RunStart(ranges, i), RunEnd(ranges, i);
      RunTimes(timed, ranges, i);
      forall k | 0 <= k < start && ranges[k].Some? ensures NoTimeAt(timed, ranges, k) {
        SourceGives(timed, ranges, k);
      }
      PrevEndUntimed(timed, ranges, start);
      assert Untimed(NewTiming(timed, ranges, end - 1));
      var prevEnd, nextStart := PrevEnd(timed, ranges, start), NextStart(timed, ranges, end);
      if !GapGivesNoTime(prevEnd, nextStart, end - start) { SomeShareTimed(prevEnd, nextStart, end - start); }
    }
  }

  /** The new times leave every line untimed exactly when neither a range nor a gap has a time to give. */
  lemma UntimedExactly(timed: seq<Line>, ranges: Ranges)
    requires timed != [] && Increasing(ranges, |timed|)
    ensures (forall i | 0 <= i < |ranges| :: Untimed(NewTiming(timed, ranges, i))) <==> NoTimeToGive(timed, ranges)
  {
    hide NewTiming, Increasing, Untimed, NoTimeAt;
    if NoTimeToGive(timed, ranges) {
      forall i | 0 <= i < |ranges| ensures Untimed(NewTiming(timed, ranges, i)) { AllUntimed(timed, ranges, i); }
    }
    if forall i | 0 <= i < |ranges| :: Untimed(NewTiming(timed, ranges, i)) {
      forall i | 0 <= i < |ranges| ensures NoTimeAt(timed, ranges, i) { SourceGives(timed, ranges, i); }
    }
  }

  /** When no line is matched there is a time to give exactly when the last timed line ends after zero. */
  lemma NothingMatched(timed: seq<Line>, ranges: Ranges)
    requires ranges != [] && timed != [] && Increasing(ranges, |timed|)
    requires forall k | 0 <= k < |ranges| :: ranges[k].None?
    ensures NoTimeToGive(timed, ranges) <==> timed[|timed| - 1].End() <= 0
  {
    hide PrevEnd, NextStart, RunStart, RunEnd, Increasing;
    forall i | 0 <= i < |ranges| ensures NoTimeAt(timed, ranges, i) <==> timed[|timed| - 1].End() <= 0 {
      AllUnmatched(timed, ranges, i);
    }
    assert NoTimeToGive(timed, ranges) ==> NoTimeAt(timed, ranges, 0);
  }

  /** Retiming yields no time exactly when there is none to give: a condition on the timed lines and on which of them
      each text is matched with. */
  lemma RetimesToNothing(apple: seq<Line>, word: seq<Line>, norm: string -> string, sim: Similarity, ranges: Ranges,
                         retimed: seq<Line>)
    requires Retimes(apple, word, norm, sim, ranges, retimed) && TimedLines(word) != []
    ensures Increasing(ranges, |TimedLines(word)|)
    ensures !HasValidTiming(retimed) <==> NoTimeToGive(TimedLines(word), ranges)
  {
    hide Chosen, NewTiming, Increasing, NoTimeToGive, Norms, TimedLines;
    var timed := TimedLines(word);
    UntimedExactly(timed, ranges);
    forall i | 0 <= i < |ranges| ensures Untimed(NewTiming(timed, ranges, i)) <==> !retimed[i].Timed() {
      assert retimed[i] == NewLine(apple, timed, ranges, i);
    }
    if NoTimeToGive(timed, ranges) {
      forall i | 0 <= i < |retimed| ensures !retimed[i].Timed() { assert Untimed(NewTiming(timed, ranges, i)); }
    } else {
      var i :| 0 <= i < |ranges| && !Untimed(NewTiming(timed, ranges, i));
      assert retimed[i].Timed();
    }
  }

  datatype Prepared = Ready(lines: seq<Line>) | RetriesForever

  /** The head of MergeAppleMetadataIntoWordSync: lines without timing are retimed and the merge
      starts over on the result.  A result that is still untimed is retimed again, without end. */
  method PrepareLines(apple: seq<Line>, word: seq<Line>, norm: string -> string, sim: Similarity)
    returns (p: Prepared, ghost ranges: Ranges, ghost retimed: seq<Line>)
    requires apple != []
    ensures HasValidTiming(apple) ==> p == Ready(apple)
    ensures !HasValidTiming(apple) ==>
              Retimes(apple, word, norm, sim, ranges, retimed)
              && p == if HasValidTiming(retimed) then Ready(retimed) else RetriesForever
    ensures !HasValidTiming(apple) && TimedLines(word) == [] ==> p.RetriesForever?
    ensures !HasValidTiming(apple) && TimedLines(word) != [] ==>
              Increasing(ranges, |TimedLines(word)|)
              && (p.RetriesForever? <==> NoTimeToGive(TimedLines(word), ranges))
    ensures !HasValidTiming(apple) && NonNegative(TimedLines(word)) ==> (p.RetriesForever? <==> TimedLines(word) == [])
  {
    hide Chosen, NewTiming, Increasing, NonNegative, NoTimeToGive;
    ranges, retimed := [], [];
    if HasValidTiming(apple) {
      return Ready(apple), ranges, retimed;
    }
    var result;
    result, ranges := RetimeLines(apple, word, norm, sim);
    retimed := result;
    if TimedLines(word) != [] { RetimesToNothing(apple, word, norm, sim, ranges, retimed); }
    if NonNegative(TimedLines(word)) && TimedLines(word) != [] {
      var i := SomeLineTimed(TimedLines(word), ranges);
      assert result[i] == NewLine(apple, TimedLines(word), ranges, i);
      assert result[i].Timed();
    }
    p := if HasValidTiming(result) then Ready(result) else RetriesForever;
  }

  const BEFORE_ZERO := [Line(-10, 5, "")]
  const UNTIMED := [Line(0, 0, "")]

  /** With a timed line before zero the merge can start over for ever: the song ends before zero, and a line that
      matches nothing gets no time. */
  lemma NegativeTimesStick(norm: string -> string, sim: Similarity)
    requires norm("") == ""
    ensures TimedLines(BEFORE_ZERO) != [] && !HasValidTiming(UNTIMED)
    ensures Retimes(UNTIMED, BEFORE_ZERO, norm, sim, [None], UNTIMED)
    ensures forall ranges, retimed | Retimes(UNTIMED, BEFORE_ZERO, norm, sim, ranges, retimed) ::
              retimed == UNTIMED && !HasValidTiming(retimed)
  {
  }
}
