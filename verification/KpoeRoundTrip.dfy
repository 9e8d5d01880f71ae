/** What survives the way from version 1 to version 2 and back (internal/parsers/kpoe.go). */
module KpoeRoundTrip {

  import opened Wrappers
  import opened Kpoe
  import opened KpoeParts
  import opened KpoeVersions
  import Ttml

  /** The first segment of the group that segment `k` is in. */
  function Head(segs: seq<Segment>, k: nat): (h: nat)
    requires k < |segs|
    ensures h <= k
  {
    if k == 0 || segs[k - 1].isLineEnding == 1 then k else Head(segs, k - 1)
  }

  /** A segment after the way back: it takes key, singer and song part from the head of its group, and ends the
      line when it did or when it is the last. */
  function Returned(segs: seq<Segment>, k: nat): Segment
    requires k < |segs|
  {
    var s, head := segs[k], segs[Head(segs, k)];
    Segment(s.time, s.duration, s.text, if s.isLineEnding == 1 || k == |segs| - 1 then 1 else 0,
            head.key, head.songPart, head.singer, s.isBackground)
  }

  function Canonical(segs: seq<Segment>): (r: seq<Segment>)
    ensures |r| == |segs|
  {
    seq(|segs|, k requires 0 <= k < |segs| => Returned(segs, k))
  }

  /** The length of the first group. */
  function FirstGroup(segs: seq<Segment>): (n: nat)
    requires segs != []
    ensures 0 < n <= |segs|
    ensures forall k | 0 <= k < n - 1 :: segs[k].isLineEnding != 1
    ensures n < |segs| ==> segs[n - 1].isLineEnding == 1
  {
    if segs[0].isLineEnding == 1 || |segs| == 1 then 1
    else
      var n := FirstGroup(segs[1..]);
      assert forall k | 0 < k < |segs| :: segs[k] == segs[1..][k - 1];
      n + 1
  }

  // ---- groups from the front ----

  lemma {:induction false} GroupedAppend(a: seq<Line>, b: seq<Line>)
    requires Grouped(a).open == []
    ensures Grouped(a + b) == Grouping(Grouped(a).done + Grouped(b).done, Grouped(b).open)
  {
    if b == [] {
      assert a + b == a;
    } else {
      var front, last := b[..|b| - 1], b[|b| - 1];
      GroupedAppend(a, front);
      assert a + b == (a + front) + [last] && b == front + [last];
      GroupedSnoc(a + front, last);
      GroupedSnoc(front, last);
      hide Grouped, Ends;
    }
  }

  lemma {:induction false} GroupedOpen(a: seq<Line>)
    requires NoneEnds(a)
    ensures Grouped(a) == Grouping([], a)
  {
    if a != [] {
      var front, last := a[..|a| - 1], a[|a| - 1];
      assert a == front + [last] && NoneEnds(front) && !Ends(last);
      GroupedOpen(front);
      GroupedSnoc(front, last);
    }
  }

  lemma GroupsAre(lines: seq<Line>)
    ensures var g := Grouped(lines); Groups(lines) == if g.open == [] then g.done else g.done + [g.open]
  {
    hide Grouped;
  }

  /** A segment that ends its line closes the group of those before it. */
  lemma ClosedGroup(front: seq<Line>, last: Line, rest: seq<Line>)
    requires NoneEnds(front) && Ends(last)
    ensures Groups(front + [last] + rest) == [front + [last]] + Groups(rest)
  {
    hide *;
    var group := front + [last];
    GroupedOpen(front);
    GroupedSnoc(front, last);
    assert [] + [group] == [group];
    GroupedAppend(group, rest);
    GroupsAre(group + rest);
    GroupsAre(rest);
    var g := Grouped(rest);
    assert [group] + (g.done + [g.open]) == [group] + g.done + [g.open];
  }

  lemma OpenGroup(front: seq<Line>, last: Line)
    requires NoneEnds(front) && !Ends(last)
    ensures Groups(front + [last]) == [front + [last]] + Groups([])
  {
    hide *;
    var group := front + [last];
    GroupedOpen(front);
    GroupedSnoc(front, last);
    GroupsAre(group);
    GroupsAre([]);
    NothingGrouped();
    assert [] + [group] == [group] + [];
  }

  lemma NothingGrouped()
    ensures Grouped([]) == Grouping([], [])
  {
  }

  lemma FlatParts(segs: seq<Segment>, n: nat)
    requires 0 < n <= |segs|
    ensures FlatLines(segs) == FlatLines(segs[..n - 1]) + [FlatLine(segs[n - 1])] + FlatLines(segs[n..])
    ensures FlatLines(segs[..n]) == FlatLines(segs[..n - 1]) + [FlatLine(segs[n - 1])]
  {
  }

  lemma FirstGroupIs(segs: seq<Segment>)
    requires segs != []
    ensures var n := FirstGroup(segs);
            && 0 < n <= |segs| && NoneEnds(FlatLines(segs[..n - 1]))
            && (Ends(FlatLine(segs[n - 1])) || (n == |segs| && !Ends(FlatLine(segs[n - 1]))))
  {
  }

  lemma {:induction false} GroupsFront(segs: seq<Segment>)
    requires segs != []
    ensures var n := FirstGroup(segs);
            Groups(FlatLines(segs)) == [FlatLines(segs[..n])] + Groups(FlatLines(segs[n..]))
  {
    hide *;
    var n := FirstGroup(segs);
    FirstGroupIs(segs);
    FlatParts(segs, n);
    var front, last, rest := FlatLines(segs[..n - 1]), FlatLine(segs[n - 1]), FlatLines(segs[n..]);
    if Ends(last) {
      ClosedGroup(front, last, rest);
    } else {
      assert segs[n..] == [];
      NoFlatLines();
      assert front + [last] + [] == front + [last];
      OpenGroup(front, last);
    }
  }

  // ---- one group ----

  lemma {:induction false} CanonicalFront(segs: seq<Segment>)
    requires segs != []
    ensures var n := FirstGroup(segs); Canonical(segs) == Canonical(segs[..n]) + Canonical(segs[n..])
    ensures forall k: nat | k < FirstGroup(segs) :: Head(segs[..FirstGroup(segs)], k) == 0
  {
    var n := FirstGroup(segs);
    forall k: nat | k < |segs| ensures Canonical(segs)[k] == (Canonical(segs[..n]) + Canonical(segs[n..]))[k] {
      if k < n {
        HeadFront(segs, n, k);
        HeadFront(segs[..n], n, k);
      } else {
        HeadBack(segs, n, k);
      }
    }
    forall k: nat | k < n ensures Head(segs[..n], k) == 0 { HeadFront(segs[..n], n, k); }
  }

  lemma {:induction false} HeadFront(segs: seq<Segment>, n: nat, k: nat)
    requires k < n <= |segs| && forall j | 0 <= j < n - 1 :: segs[j].isLineEnding != 1
    ensures Head(segs, k) == 0
  {
    if k > 0 { HeadFront(segs, n, k - 1); }
  }

  lemma {:induction false} HeadBack(segs: seq<Segment>, n: nat, k: nat)
    requires 0 < n <= k < |segs| && segs[n - 1].isLineEnding == 1
    ensures Head(segs, k) == n + Head(segs[n..], k - n)
  {
    if k > n && segs[k - 1].isLineEnding != 1 { HeadBack(segs, n, k - 1); }
  }

  /** The segments of the line made of a group, once the line has been placed in the part table. */
  lemma {:induction false} GroupReturns(segs: seq<Segment>, existing: nat, parts: seq<Part>, after: Line)
    requires segs != [] && forall k | 0 <= k < |segs| - 1 :: segs[k].isLineEnding != 1
    requires Placed(existing, parts, GroupLine(FlatLines(segs)), after)
    ensures SegmentsOf(parts, false, after) == Canonical(segs)
  {
    var line := GroupLine(FlatLines(segs));
    SyllablesHas(FlatLines(segs));
    GroupLineHas(FlatLines(segs));
    assert after.syllabus == line.syllabus && |line.syllabus| == |segs|;
    assert ResolvePart(parts, after.element) == segs[0].songPart;
    hide GroupLine, Placed, ResolvePart, Syllables;
    var out := SegmentsOf(parts, false, after);
    forall k: nat | k < |segs| ensures out[k] == Canonical(segs)[k] {
      HeadFront(segs, |segs|, k);
      assert line.syllabus[k] == SyllableOf(FlatLine(segs[k]));
    }
  }

  lemma GroupLineHas(group: seq<Line>)
    requires group != []
    ensures GroupLine(group).syllabus == Syllables(group) && GroupLine(group).element == group[0].element
  {
    hide Earliest, LatestEnd, Joined, Syllables;
  }

  // ---- all groups ----

  function FrontLines(segs: seq<Segment>): seq<Line>
    decreases |segs|
  {
    if segs == [] then [] else [GroupLine(FlatLines(segs[..FirstGroup(segs)]))] + FrontLines(segs[FirstGroup(segs)..])
  }

  lemma {:induction false} GroupLinesFront(group: seq<Line>, groups: seq<seq<Line>>)
    requires group != [] && forall g | 0 <= g < |groups| :: groups[g] != []
    ensures GroupLines([group] + groups) == [GroupLine(group)] + GroupLines(groups)
  {
    hide GroupLine;
    var all := [group] + groups;
    if groups == [] {
      assert all[..|all| - 1] == [];
    } else {
      var front, last := groups[..|groups| - 1], groups[|groups| - 1];
      GroupLinesFront(group, front);
      assert all[..|all| - 1] == [group] + front && all[|all| - 1] == last;
    }
  }

  lemma {:induction false} NestedFront(segs: seq<Segment>)
    ensures Nested(FlatLines(segs)) == FrontLines(segs)
    decreases |segs|
  {
    if segs == [] {
      assert FlatLines(segs) == [] && Groups([]) == [];
    } else {
      var n := FirstGroup(segs);
      NestedFront(segs[n..]);
      GroupsFront(segs);
      GroupsNotEmpty(FlatLines(segs));
      GroupsNotEmpty(FlatLines(segs[n..]));
      hide Groups, GroupLine;
      GroupLinesFront(FlatLines(segs[..n]), Groups(FlatLines(segs[n..])));
    }
  }

  lemma {:induction false} FlattenedFront(parts: seq<Part>, byLine: bool, line: Line, rest: seq<Line>)
    ensures Flattened(parts, byLine, [line] + rest) == SegmentsOf(parts, byLine, line) + Flattened(parts, byLine, rest)
  {
    hide SegmentsOf;
    var all := [line] + rest;
    if rest == [] {
      assert all[..|all| - 1] == [];
      assert Flattened(parts, byLine, []) == [];
    } else {
      var front, last := rest[..|rest| - 1], rest[|rest| - 1];
      FlattenedFront(parts, byLine, line, front);
      assert all[..|all| - 1] == [line] + front && all[|all| - 1] == last;
    }
  }

  lemma {:induction false} AllReturn(segs: seq<Segment>, existing: nat, parts: seq<Part>, placed: seq<Line>)
    requires |placed| == |FrontLines(segs)|
    requires forall k | 0 <= k < |placed| :: Placed(existing, parts, FrontLines(segs)[k], placed[k])
    ensures Flattened(parts, false, placed) == Canonical(segs)
    decreases |segs|
  {
    hide *;
    if segs == [] {
      FrontNotEmpty(segs);
      NothingReturns(parts);
    } else {
      var n := FirstGroup(segs);
      var lines := FrontLines(segs);
      FrontStep(segs);
      forall k | 0 <= k < |placed[1..]| ensures Placed(existing, parts, lines[1..][k], placed[1..][k]) {
        assert Placed(existing, parts, lines[k + 1], placed[k + 1]);
      }
      AllReturn(segs[n..], existing, parts, placed[1..]);
      assert Placed(existing, parts, lines[0], placed[0]);
      GroupReturns(segs[..n], existing, parts, placed[0]);
      CanonicalFront(segs);
      assert placed == [placed[0]] + placed[1..];
      FlattenedFront(parts, false, placed[0], placed[1..]);
    }
  }

  lemma FrontStep(segs: seq<Segment>)
    requires segs != []
    ensures FrontLines(segs) != [] && FrontLines(segs)[0] == GroupLine(FlatLines(segs[..FirstGroup(segs)]))
    ensures FrontLines(segs)[1..] == FrontLines(segs[FirstGroup(segs)..])
  {
    hide GroupLine, FlatLines, FirstGroup;
  }

  lemma NothingReturns(parts: seq<Part>)
    ensures Flattened(parts, false, []) == Canonical([])
  {
  }

  /** For every response that is not line-synced, going to version 2 and back keeps times, durations, texts and
      background flags of all segments in order; key, singer and song part become those of the first segment of
      the group. */
  lemma {:induction false} WordRoundTrip(fold: Fold, v1: V1)
    requires fold(v1.kind) != fold("Line")
    ensures Downgraded(fold, Upgraded(fold, v1)).lyrics == Canonical(v1.lyrics)
  {
    var segs := v1.lyrics;
    NestedFront(segs);
    NestedUnflat(segs);
    var before := Regrouped(fold, v1);
    assert before.lyrics == FrontLines(segs) && before.kind != "Line";
    assert Unflattened(fold, before) == before;
    NormalParts(fold, before);
    NormalKind(fold, before);
    var after := Upgraded(fold, v1);
    hide *;
    DowngradedIs(fold, after);
    UpgradedNormal(fold, v1);
    if segs == [] {
      NoSegments(fold, v1);
    } else {
      FrontNotEmpty(segs);
      AllReturn(segs, |before.parts|, after.parts, after.lyrics);
    }
  }

  lemma FrontNotEmpty(segs: seq<Segment>)
    ensures FrontLines(segs) == [] <==> segs == []
  {
  }

  lemma NestedUnflat(segs: seq<Segment>)
    ensures !IsFlat(Nested(FlatLines(segs)))
  {
    GroupsNotEmpty(FlatLines(segs));
    GroupLinesUnmarked(Groups(FlatLines(segs)));
  }

  lemma NormalKind(fold: Fold, v: V2)
    requires Unflattened(fold, v) == v
    ensures Normal(fold, v).kind == v.kind
  {
  }

  lemma DowngradedIs(fold: Fold, v2: V2)
    ensures Downgraded(fold, v2).lyrics == Flattened(v2.parts, v2.kind == "Line", v2.lyrics)
  {
  }

  lemma UpgradedNormal(fold: Fold, v1: V1)
    ensures Upgraded(fold, v1) == Normal(fold, Regrouped(fold, v1))
  {
  }

  lemma NoSegments(fold: Fold, v1: V1)
    requires v1.lyrics == []
    ensures var v2 := Upgraded(fold, v1); Flattened(v2.parts, v2.kind == "Line", v2.lyrics) == Canonical([])
  {
    assert FlatLines([]) == [];
    if fold(v1.kind) != fold("Line") { NestedFront([]); }
    assert Regrouped(fold, v1).lyrics == [];
  }

  // ---- consequences ----

  /** Nothing about the segments themselves is lost or moved, and groups are kept together. */
  lemma {:induction false} SegmentsKept(segs: seq<Segment>, k: nat)
    requires k < |segs|
    ensures var s, r := segs[k], Canonical(segs)[k];
            && s.time == r.time && s.duration == r.duration && s.text == r.text && s.isBackground == r.isBackground
            && r.key == segs[Head(segs, k)].key && r.singer == segs[Head(segs, k)].singer
            && r.songPart == segs[Head(segs, k)].songPart
  {
  }

  /** Line endings come back exactly when they are 0 or 1 and the last one is 1. */
  lemma {:induction false} EndingsKept(segs: seq<Segment>)
    ensures (forall k | 0 <= k < |segs| :: Canonical(segs)[k].isLineEnding == segs[k].isLineEnding)
       <==> (forall k | 0 <= k < |segs| :: segs[k].isLineEnding in {0, 1})
            && (segs != [] ==> segs[|segs| - 1].isLineEnding == 1)
  {
    hide Head;
    if forall k | 0 <= k < |segs| :: Canonical(segs)[k].isLineEnding == segs[k].isLineEnding {
      forall k | 0 <= k < |segs| ensures segs[k].isLineEnding in {0, 1} {
        assert Canonical(segs)[k].isLineEnding in {0, 1};
      }
      if segs != [] { assert Canonical(segs)[|segs| - 1].isLineEnding == 1; }
    }
  }

  /** Once there and back, going again changes nothing more. */
  lemma {:induction false} ReturnsOnce(segs: seq<Segment>)
    ensures Canonical(Canonical(segs)) == Canonical(segs)
  {
    var c := Canonical(segs);
    forall k: nat | k < |segs| ensures Canonical(c)[k] == c[k] {
      SameHead(segs, k);
      HeadOfHead(segs, k);
      assert c[k] == Returned(segs, k) && c[Head(segs, k)] == Returned(segs, Head(segs, k));
    }
  }

  lemma {:induction false} SameHead(segs: seq<Segment>, k: nat)
    requires k < |segs|
    ensures Head(Canonical(segs), k) == Head(segs, k)
  {
    if k > 0 {
      SameHead(segs, k - 1);
      assert Canonical(segs)[k - 1].isLineEnding == 1 <==> segs[k - 1].isLineEnding == 1;
    }
  }

  lemma {:induction false} HeadOfHead(segs: seq<Segment>, k: nat)
    requires k < |segs|
    ensures Head(segs, Head(segs, k)) == Head(segs, k)
  {
    if k > 0 { HeadOfHead(segs, k - 1); }
  }

  /** A line-synced response comes back line by line, each marked as a line ending; background flags are lost. */
  lemma {:induction false} LineRoundTrip(fold: Fold, v1: V1)
    requires fold(v1.kind) == fold("Line")
    ensures Downgraded(fold, Upgraded(fold, v1)).lyrics
         == seq(|v1.lyrics|, k requires 0 <= k < |v1.lyrics| => v1.lyrics[k].(isLineEnding := 1, isBackground := false))
  {
    var before, after := Regrouped(fold, v1), Upgraded(fold, v1);
    assert !IsFlat(before.lyrics) && before.kind == "Line" && |before.lyrics| == |v1.lyrics|;
    assert Unflattened(fold, before) == before;
    NormalParts(fold, before);
    NormalKind(fold, before);
    UpgradedNormal(fold, v1);
    hide Upgraded, Normal, Unflattened;
    assert |after.lyrics| == |before.lyrics| by { if v1.lyrics == [] { EmptyNormal(fold, before); } }
    forall k | 0 <= k < |v1.lyrics| ensures Placed(|before.parts|, after.parts, before.lyrics[k], after.lyrics[k]) {
    }
    FlattenedLines(after.parts, |before.parts|, v1.lyrics, after.lyrics, before.lyrics);
  }

  lemma BackgroundLost(fold: Fold, s: Segment)
    requires s.isBackground
    ensures var back := Downgraded(fold, Upgraded(fold, V1("Line", [], [s]))).lyrics;
            |back| == 1 && !back[0].isBackground
  {
    hide *;
    LineRoundTrip(fold, V1("Line", [], [s]));
  }

  lemma EmptyNormal(fold: Fold, v: V2)
    requires v.lyrics == []
    ensures Normal(fold, v) == v
  {
  }

  lemma {:induction false} FlattenedLines(parts: seq<Part>, existing: nat, segs: seq<Segment>, placed: seq<Line>,
                                          lines: seq<Line>)
    requires |placed| == |segs| == |lines| && lines == Unmarked(FlatLines(segs))
    requires forall k | 0 <= k < |segs| :: Placed(existing, parts, lines[k], placed[k])
    ensures Flattened(parts, true, placed)
         == seq(|segs|, k requires 0 <= k < |segs| => segs[k].(isLineEnding := 1, isBackground := false))
  {
    if segs != [] {
      var n := |segs| - 1;
      assert lines[..n] == Unmarked(FlatLines(segs[..n]));
      forall k | 0 <= k < n ensures Placed(existing, parts, lines[..n][k], placed[..n][k]) {
        assert Placed(existing, parts, lines[k], placed[k]);
      }
      FlattenedLines(parts, existing, segs[..n], placed[..n], lines[..n]);
      assert Placed(existing, parts, lines[n], placed[n]);
      assert SegmentsOf(parts, true, placed[n]) == [segs[n].(isLineEnding := 1, isBackground := false)];
    }
  }
}
