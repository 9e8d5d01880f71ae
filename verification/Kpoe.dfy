/** Flat and nested lyrics, and the part table (internal/parsers/kpoe.go). */
module Kpoe {

  import opened Wrappers
  import opened Unicode
  import Ttml

  type Syllable = Ttml.Syllable
  type Part = Ttml.Part

  datatype Element = Element(key: string, singer: string, index: Option<int>, songPart: string, isBackground: bool)

  /** `lineEnding` is only there in flat lyrics. */
  datatype Line = Line(time: int, duration: int, text: string, lineEnding: Option<int>, syllabus: seq<Syllable>,
                       element: Element)

  /** A segment of the first version of the format. */
  datatype Segment = Segment(time: int, duration: int, text: string, isLineEnding: int,
                             key: string, songPart: string, singer: string, isBackground: bool)

  // ---- nesting: segments are collected until one ends the line ----

  predicate Ends(l: Line) { l.lineEnding == Some(1) }

  datatype Grouping = Grouping(done: seq<seq<Line>>, open: seq<Line>)

  /** The groups that are complete and the one still open. */
  function Grouped(lines: seq<Line>): Grouping {
    if lines == [] then Grouping([], [])
    else
      var before, last := Grouped(lines[..|lines| - 1]), lines[|lines| - 1];
      var open := before.open + [last];
      if Ends(last) then Grouping(before.done + [open], []) else Grouping(before.done, open)
  }

  function Groups(lines: seq<Line>): seq<seq<Line>> {
    var g := Grouped(lines);
    if g.open == [] then g.done else g.done + [g.open]
  }

  function SyllableOf(l: Line): Syllable {
    Ttml.Syllable(l.time, l.duration, l.text, l.element.isBackground)
  }

  function Syllables(group: seq<Line>): seq<Syllable> {
    if group == [] then [] else Syllables(group[..|group| - 1]) + [SyllableOf(group[|group| - 1])]
  }

  function Joined(group: seq<Line>): string {
    if group == [] then "" else Joined(group[..|group| - 1]) + group[|group| - 1].text
  }

  function Earliest(s: seq<Syllable>): int
    requires s != []
  {
    if |s| == 1 then s[0].time
    else
      var e, last := Earliest(s[..|s| - 1]), s[|s| - 1];
      if last.time < e then last.time else e
  }

  /** The latest end, but never before 0. */
  function LatestEnd(s: seq<Syllable>): int {
    if s == [] then 0
    else
      var e, last := LatestEnd(s[..|s| - 1]), s[|s| - 1];
      if last.time + last.duration > e then last.time + last.duration else e
  }

  /** A group before it is finished. */
  function Pending(group: seq<Line>): Line
    requires group != []
  {
    Line(group[0].time, group[0].duration, Joined(group), None, Syllables(group), group[0].element)
  }

  function Finished(current: Line): Line
    requires current.syllabus != []
  {
    var earliest := Earliest(current.syllabus);
    current.(time := earliest, duration := LatestEnd(current.syllabus) - earliest, text := Trim(current.text),
             lineEnding := None)
  }

  lemma {:induction false} SyllablesHas(group: seq<Line>)
    ensures |Syllables(group)| == |group|
    ensures forall i | 0 <= i < |group| :: Syllables(group)[i] == SyllableOf(group[i])
  {
    if group != [] { SyllablesHas(group[..|group| - 1]); }
  }

  function GroupLine(group: seq<Line>): Line
    requires group != []
  {
    SyllablesHas(group);
    Finished(Pending(group))
  }

  function GroupLines(groups: seq<seq<Line>>): seq<Line>
    requires forall g | 0 <= g < |groups| :: groups[g] != []
  {
    if groups == [] then [] else GroupLines(groups[..|groups| - 1]) + [GroupLine(groups[|groups| - 1])]
  }

  function Concat(groups: seq<seq<Line>>): seq<Line> {
    if groups == [] then [] else Concat(groups[..|groups| - 1]) + groups[|groups| - 1]
  }

  /** A complete group: only its last segment ends the line. */
  predicate Complete(group: seq<Line>) {
    group != [] && Ends(group[|group| - 1]) && forall k | 0 <= k < |group| - 1 :: !Ends(group[k])
  }

  ghost predicate AllComplete(groups: seq<seq<Line>>) { forall g | 0 <= g < |groups| :: Complete(groups[g]) }

  ghost predicate NoneEnds(group: seq<Line>) { forall k | 0 <= k < |group| :: !Ends(group[k]) }

  /** Grouping loses and moves nothing. */
  lemma {:induction false} GroupedKeeps(lines: seq<Line>)
    ensures Concat(Grouped(lines).done) + Grouped(lines).open == lines
    ensures AllComplete(Grouped(lines).done) && NoneEnds(Grouped(lines).open)
  {
    if lines == [] {
      assert Concat([]) + [] == [];
    } else {
      hide *;
      var front, last := lines[..|lines| - 1], lines[|lines| - 1];
      assert lines == front + [last];
      GroupedKeeps(front);
      GroupedSnoc(front, last);
      var before := Grouped(front);
      ConcatSnoc(before.done, before.open + [last]);
      CompleteSnoc(before.done, before.open, last);
      assert Concat(before.done) + (before.open + [last]) == Concat(before.done) + before.open + [last];
      if Ends(last) { assert Grouped(lines).open == []; }
    }
  }

  lemma CompleteSnoc(done: seq<seq<Line>>, open: seq<Line>, last: Line)
    requires AllComplete(done) && NoneEnds(open)
    ensures Ends(last) ==> AllComplete(done + [open + [last]]) && NoneEnds([])
    ensures !Ends(last) ==> NoneEnds(open + [last])
  {
    hide Ends;
    if Ends(last) { assert Complete(open + [last]); }
  }

  lemma {:induction false} ConcatSnoc(groups: seq<seq<Line>>, group: seq<Line>)
    ensures Concat(groups + [group]) == Concat(groups) + group
  {
    assert (groups + [group])[..|groups|] == groups;
  }

  lemma {:induction false} GroupLinesSnoc(groups: seq<seq<Line>>, group: seq<Line>)
    requires (forall g | 0 <= g < |groups| :: groups[g] != []) && group != []
    ensures GroupLines(groups + [group]) == GroupLines(groups) + [GroupLine(group)]
  {
    assert (groups + [group])[..|groups|] == groups;
    hide GroupLine;
  }

  lemma GroupsNotEmpty(lines: seq<Line>)
    ensures forall g | 0 <= g < |Groups(lines)| :: Groups(lines)[g] != []
  {
    GroupedKeeps(lines);
    hide Grouped;
  }

  function Nested(lines: seq<Line>): seq<Line> {
    GroupsNotEmpty(lines);
    GroupLines(Groups(lines))
  }

  lemma {:induction false} GroupedSnoc(lines: seq<Line>, last: Line)
    ensures Grouped(lines + [last])
         == (var open := Grouped(lines).open + [last];
             if Ends(last) then Grouping(Grouped(lines).done + [open], []) else Grouping(Grouped(lines).done, open))
  {
    assert (lines + [last])[..|lines|] == lines;
  }

  lemma {:induction false} PendingSnoc(group: seq<Line>, last: Line)
    requires group != []
    ensures Pending(group + [last])
         == Pending(group).(text := Pending(group).text + last.text,
                            syllabus := Pending(group).syllabus + [SyllableOf(last)])
  {
    assert (group + [last])[..|group|] == group;
  }

  lemma PendingOne(l: Line)
    ensures Pending([l]) == Line(l.time, l.duration, l.text, None, [SyllableOf(l)], l.element)
  {
    assert [l][..0] == [];
    assert Syllables([]) == [] && Joined([]) == "" && "" + l.text == l.text;
  }

  /** The spread of a group's times, found in one pass. */
  method FinalizeGroup(current: Line) returns (line: Line)
    requires current.syllabus != []
    ensures line == Finished(current)
  {
    var s := current.syllabus;
    var earliest, latestEnd := s[0].time, 0;
    for i := 0 to |s|
      invariant earliest == if i == 0 then s[0].time else Earliest(s[..i])
      invariant latestEnd == LatestEnd(s[..i])
    {
      assert s[..i + 1][..i] == s[..i];
      if s[i].time < earliest { earliest := s[i].time; }
      if s[i].time + s[i].duration > latestEnd { latestEnd := s[i].time + s[i].duration; }
    }
    assert s[..|s|] == s;
    line := current.(time := earliest, duration := latestEnd - earliest, text := Trim(current.text),
                     lineEnding := None);
  }

  /** What has been collected of the lines so far. */
  ghost predicate Collected(lines: seq<Line>, nested: seq<Line>, current: Option<Line>) {
    var g := Grouped(lines);
    && (forall k | 0 <= k < |g.done| :: g.done[k] != [])
    && nested == GroupLines(g.done)
    && current == (if g.open == [] then None else Some(Pending(g.open)))
    && (current.Some? ==> current.value.syllabus != [])
  }

  lemma CollectedNothing()
    ensures Collected([], [], None)
  {
  }

  lemma {:induction false} CollectedAll(lines: seq<Line>, nested: seq<Line>, current: Option<Line>)
    requires Collected(lines, nested, current)
    ensures Nested(lines) == if current.None? then nested else nested + [Finished(current.value)]
  {
    GroupsNotEmpty(lines);
    var g := Grouped(lines);
    if g.open != [] {
      GroupLinesSnoc(g.done, g.open);
      hide Grouped, GroupLines, Pending, Finished;
    }
  }

  /** One more segment joins the open group, or opens one. */
  function Joining(current: Option<Line>, seg: Line): Line {
    if current.None? then Line(seg.time, seg.duration, seg.text, None, [SyllableOf(seg)], seg.element)
    else current.value.(text := current.value.text + seg.text, syllabus := current.value.syllabus + [SyllableOf(seg)])
  }

  lemma {:induction false} CollectedSnoc(lines: seq<Line>, nested: seq<Line>, current: Option<Line>, seg: Line)
    requires Collected(lines, nested, current)
    ensures Joining(current, seg).syllabus != []
    ensures Ends(seg) ==> Collected(lines + [seg], nested + [Finished(Joining(current, seg))], None)
    ensures !Ends(seg) ==> Collected(lines + [seg], nested, Some(Joining(current, seg)))
  {
    var g := Grouped(lines);
    var open := g.open + [seg];
    GroupedSnoc(lines, seg);
    if g.open == [] { PendingOne(seg); } else { PendingSnoc(g.open, seg); }
    assert Pending(open) == Joining(current, seg) by { if g.open == [] { assert open == [seg]; } }
    assert Joining(current, seg).syllabus != [];
    GroupLinesSnoc(g.done, open);
    assert GroupLine(open) == Finished(Pending(open));
    hide Pending, Finished, Joining, GroupLines, Ends;
  }

  /** NestFlatLyrics: flat lyrics become lines with syllables. */
  method NestFlatLyrics(lyrics: seq<Line>) returns (nested: seq<Line>)
    ensures nested == Nested(lyrics)
  {
    hide *;
    nested := [];
    var current: Option<Line> := None;
    CollectedNothing();
    for i := 0 to |lyrics|
      invariant Collected(lyrics[..i], nested, current)
      invariant current.Some? ==> current.value.syllabus != []
    {
      var seg := lyrics[i];
      assert lyrics[..i + 1] == lyrics[..i] + [seg];
      CollectedSnoc(lyrics[..i], nested, current, seg);
      var joined := Joining(current, seg);
      if Ends(seg) {
        var line := FinalizeGroup(joined);
        nested := nested + [line];
        current := None;
      } else {
        current := Some(joined);
      }
    }
    assert lyrics[..|lyrics|] == lyrics;
    CollectedAll(lyrics, nested, current);
    if current.Some? {
      var line := FinalizeGroup(current.value);
      nested := nested + [line];
    }
  }
}
