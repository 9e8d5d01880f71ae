/** The normal form of a response: nested lines, each with an index into the part table
    (internal/parsers/kpoe.go, NormalizeV2). */
module KpoeParts {

  import opened Wrappers
  import opened Kpoe
  import Ttml

  /** `fold` is the folding strings.EqualFold compares by. */
  type Fold = string -> string

  datatype V2 = V2(kind: string, parts: seq<Part>, lyrics: seq<Line>)

  predicate IsFlat(lyrics: seq<Line>) { exists k :: 0 <= k < |lyrics| && lyrics[k].lineEnding.Some? }

  predicate Indexed(lyrics: seq<Line>) { forall k | 0 <= k < |lyrics| :: lyrics[k].element.index.Some? }

  function Unmarked(lyrics: seq<Line>): seq<Line> {
    seq(|lyrics|, i requires 0 <= i < |lyrics| => lyrics[i].(lineEnding := None))
  }

  function Unflattened(fold: Fold, v: V2): V2 {
    if !IsFlat(v.lyrics) then v
    else if fold(v.kind) == fold("Line") then V2("Line", v.parts, Unmarked(v.lyrics))
    else V2("Word", v.parts, Nested(v.lyrics))
  }

  // ---- assigning parts ----

  datatype Table = Table(parts: seq<Part>, current: Option<string>, lyrics: seq<Line>)

  function NewPart(name: string): Part { Ttml.Part(name, None, None, None) }

  function AssignOne(t: Table, line: Line): Table {
    if line.element.index.Some? then Table(t.parts, None, t.lyrics + [line])
    else
      var name := line.element.songPart;
      var parts := if t.current == Some(name) then t.parts else t.parts + [NewPart(name)];
      Table(parts, Some(name), t.lyrics + [line.(element := line.element.(songPart := "", index := Some(|parts| - 1)))])
  }

  /** Neighbouring lines without an index that name the same part share a new part. */
  function Assigned(existing: seq<Part>, lines: seq<Line>): Table {
    if lines == [] then Table(existing, None, [])
    else AssignOne(Assigned(existing, lines[..|lines| - 1]), lines[|lines| - 1])
  }

  datatype Span = Span(minTime: int, maxEnd: int)

  function Widened(o: Option<Span>, line: Line): Span {
    var end := line.time + line.duration;
    if o.None? then Span(line.time, end)
    else Span(if line.time < o.value.minTime then line.time else o.value.minTime,
              if end > o.value.maxEnd then end else o.value.maxEnd)
  }

  /** The spread of the lines of a part. */
  function SpanOf(lines: seq<Line>, p: int): Option<Span> {
    if lines == [] then None
    else
      var before, last := SpanOf(lines[..|lines| - 1], p), lines[|lines| - 1];
      if last.element.index == Some(p) then Some(Widened(before, last)) else before
  }

  function Timed(part: Part, span: Option<Span>): Part {
    if span.None? then part
    else part.(time := Some(span.value.minTime), duration := Some(span.value.maxEnd - span.value.minTime))
  }

  /** The table with the times of the new parts filled in. */
  function WithSpans(parts: seq<Part>, existing: nat, lines: seq<Line>): (r: seq<Part>)
    ensures |r| == |parts|
  {
    seq(|parts|, p requires 0 <= p < |parts| => if p < existing then parts[p] else Timed(parts[p], SpanOf(lines, p)))
  }

  function Normal(fold: Fold, v: V2): V2 {
    if v.lyrics == [] then v
    else
      var u := Unflattened(fold, v);
      if Indexed(u.lyrics) then u
      else
        var t := Assigned(u.parts, u.lyrics);
        V2(u.kind, WithSpans(t.parts, |u.parts|, t.lyrics), t.lyrics)
  }

  /** The name a line's part goes by. */
  function ResolvePart(parts: seq<Part>, el: Element): string {
    if el.songPart != "" then el.songPart
    else if el.index.Some? && 0 <= el.index.value < |parts| then parts[el.index.value].name
    else ""
  }

  // ---- what assigning does ----

  /** A line as it comes out of the table: untouched with an index of its own, else pointing to a part of its name. */
  ghost predicate Placed(existing: nat, parts: seq<Part>, line: Line, after: Line) {
    if line.element.index.Some? then after == line
    else
      var i := after.element.index;
      && i.Some? && existing <= i.value < |parts| && parts[i.value].name == line.element.songPart
      && after == line.(element := line.element.(songPart := "", index := i))
  }

  ghost predicate Tabled(existing: seq<Part>, lines: seq<Line>, t: Table) {
    && |existing| <= |t.parts| && t.parts[..|existing|] == existing
    && |t.lyrics| == |lines|
    && (t.current.Some? ==> |t.parts| > |existing| && t.parts[|t.parts| - 1].name == t.current.value)
    && (forall k | 0 <= k < |lines| :: Placed(|existing|, t.parts, lines[k], t.lyrics[k]))
    && (forall p | |existing| <= p < |t.parts| :: HasLine(t.lyrics, p))
  }

  ghost predicate HasLine(lyrics: seq<Line>, p: int) {
    exists k :: 0 <= k < |lyrics| && lyrics[k].element.index == Some(p)
  }

  lemma {:induction false} AssignedTables(existing: seq<Part>, lines: seq<Line>)
    ensures Tabled(existing, lines, Assigned(existing, lines))
  {
    if lines == [] {
      hide AssignOne;
      assert existing[..|existing|] == existing;
    } else {
      var front, last := lines[..|lines| - 1], lines[|lines| - 1];
      assert lines == front + [last];
      AssignedTables(existing, front);
      TabledSnoc(existing, front, Assigned(existing, front), last);
    }
  }

  lemma {:induction false} TabledSnoc(existing: seq<Part>, lines: seq<Line>, t: Table, last: Line)
    requires Tabled(existing, lines, t)
    ensures Tabled(existing, lines + [last], AssignOne(t, last))
  {
    var u := AssignOne(t, last);
    var all := lines + [last];
    assert t.parts <= u.parts && u.lyrics[..|lines|] == t.lyrics && |u.lyrics| == |all|;
    assert Placed(|existing|, u.parts, last, u.lyrics[|lines|]);
    assert |u.parts| > |t.parts| ==> u.lyrics[|lines|].element.index == Some(|t.parts|) && |u.parts| == |t.parts| + 1;
    assert u.current.Some? ==> |u.parts| > |existing| && u.parts[|u.parts| - 1].name == u.current.value;
    hide AssignOne;
    forall k | 0 <= k < |lines| ensures Placed(|existing|, u.parts, all[k], u.lyrics[k]) {
      assert Placed(|existing|, t.parts, lines[k], t.lyrics[k]) && u.lyrics[k] == u.lyrics[..|lines|][k];
      assert all[k] == lines[k];
    }
    forall p | |existing| <= p < |u.parts| ensures HasLine(u.lyrics, p) {
      if p < |t.parts| {
        assert HasLine(t.lyrics, p);
        var k :| 0 <= k < |t.lyrics| && t.lyrics[k].element.index == Some(p);
        assert u.lyrics[..|lines|][k] == u.lyrics[k];
      } else {
        assert u.lyrics[|lines|].element.index == Some(p);
      }
    }
  }

  /** A part spans exactly its lines: every line lies inside, one starts at the start and one ends at the end. */
  ghost predicate Spans(lines: seq<Line>, p: int, span: Span) {
    && (forall k | 0 <= k < |lines| && lines[k].element.index == Some(p) ::
          span.minTime <= lines[k].time && lines[k].time + lines[k].duration <= span.maxEnd)
    && (exists k :: 0 <= k < |lines| && lines[k].element.index == Some(p) && lines[k].time == span.minTime)
    && (exists k ::
          0 <= k < |lines| && lines[k].element.index == Some(p) && lines[k].time + lines[k].duration == span.maxEnd)
  }

  lemma {:induction false} SpanIs(lines: seq<Line>, p: int)
    ensures SpanOf(lines, p).Some? <==> HasLine(lines, p)
    ensures SpanOf(lines, p).Some? ==> Spans(lines, p, SpanOf(lines, p).value)
  {
    if lines != [] {
      var front, last := lines[..|lines| - 1], lines[|lines| - 1];
      SpanIs(front, p);
      assert lines == front + [last] && lines[|front|] == last;
      SpanSnoc(front, last, p);
    }
  }

  lemma {:induction false} SpanSnoc(front: seq<Line>, last: Line, p: int)
    requires SpanOf(front, p).Some? <==> HasLine(front, p)
    requires SpanOf(front, p).Some? ==> Spans(front, p, SpanOf(front, p).value)
    ensures var lines := front + [last];
            && (SpanOf(lines, p).Some? <==> HasLine(lines, p))
            && (SpanOf(lines, p).Some? ==> Spans(lines, p, SpanOf(lines, p).value))
  {
    var lines := front + [last];
    var before := SpanOf(front, p);
    assert lines[..|lines| - 1] == front && lines[|front|] == last;
    assert SpanOf(lines, p) == if last.element.index == Some(p) then Some(Widened(before, last)) else before;
    hide SpanOf;
    assert HasLine(lines, p) <==> HasLine(front, p) || last.element.index == Some(p) by {
      if HasLine(front, p) {
        var k :| 0 <= k < |front| && front[k].element.index == Some(p);
        assert lines[k].element.index == Some(p);
      }
    }
    if before.Some? {
      var a :| 0 <= a < |front| && front[a].element.index == Some(p) && front[a].time == before.value.minTime;
      var b :| 0 <= b < |front| && front[b].element.index == Some(p)
               && front[b].time + front[b].duration == before.value.maxEnd;
      assert lines[a] == front[a] && lines[b] == front[b];
    }
  }

  /** Normalising a normalised response changes nothing. */
  lemma {:induction false} NormalTwice(fold: Fold, v: V2)
    ensures Normal(fold, Normal(fold, v)) == Normal(fold, v)
  {
    if v.lyrics != [] {
      var u, n := Unflattened(fold, v), Normal(fold, v);
      UnflattenedIsNot(fold, v);
      if !Indexed(u.lyrics) {
        AssignedTables(u.parts, u.lyrics);
        AssignedNormal(u.parts, u.lyrics);
      }
      hide Unflattened, Assigned, WithSpans;
      assert !IsFlat(n.lyrics) && Indexed(n.lyrics);
      assert Unflattened(fold, n) == n by { StaysUnflattened(fold, n); }
    }
  }

  lemma StaysUnflattened(fold: Fold, v: V2)
    requires !IsFlat(v.lyrics)
    ensures Unflattened(fold, v) == v
  {
  }

  lemma {:induction false} UnflattenedIsNot(fold: Fold, v: V2)
    ensures !IsFlat(Unflattened(fold, v).lyrics)
  {
    GroupsNotEmpty(v.lyrics);
    GroupLinesUnmarked(Groups(v.lyrics));
    hide Groups, GroupLines;
  }

  lemma {:induction false} GroupLinesUnmarked(groups: seq<seq<Line>>)
    requires forall g | 0 <= g < |groups| :: groups[g] != []
    ensures !IsFlat(GroupLines(groups)) && |GroupLines(groups)| == |groups|
  {
    if groups != [] { GroupLinesUnmarked(groups[..|groups| - 1]); }
  }

  lemma AssignedNormal(existing: seq<Part>, lines: seq<Line>)
    requires Tabled(existing, lines, Assigned(existing, lines)) && !IsFlat(lines)
    ensures var t := Assigned(existing, lines); Indexed(t.lyrics) && !IsFlat(t.lyrics)
  {
    var t := Assigned(existing, lines);
    forall k | 0 <= k < |lines| ensures t.lyrics[k].element.index.Some? && t.lyrics[k].lineEnding.None? {
      assert Placed(|existing|, t.parts, lines[k], t.lyrics[k]);
    }
  }

  /** What normalising does to the part table: the old entries stay, every new one spans exactly its lines, and
      every line without an index points to an entry of the name it had. */
  lemma {:induction false} NormalParts(fold: Fold, v: V2)
    ensures var u, n := Unflattened(fold, v), Normal(fold, v);
            v.lyrics != [] ==>
              && |n.lyrics| == |u.lyrics| && |v.parts| <= |n.parts| && n.parts[..|v.parts|] == v.parts
              && (forall k | 0 <= k < |u.lyrics| :: Placed(|v.parts|, n.parts, u.lyrics[k], n.lyrics[k]))
              && (forall p | |v.parts| <= p < |n.parts| ::
                    && n.parts[p].time.Some? && n.parts[p].duration.Some?
                    && var t := n.parts[p].time.value; Spans(n.lyrics, p, Span(t, t + n.parts[p].duration.value)))
  {
    if v.lyrics != [] {
      var u, n := Unflattened(fold, v), Normal(fold, v);
      assert u.parts == v.parts;
      if Indexed(u.lyrics) {
        assert n == u && n.parts[..|v.parts|] == v.parts;
      } else {
        AssignedTables(u.parts, u.lyrics);
        TableSpans(u.parts, u.lyrics, Assigned(u.parts, u.lyrics));
        hide Unflattened, Assigned;
      }
    }
  }

  lemma {:induction false} TableSpans(existing: seq<Part>, lines: seq<Line>, t: Table)
    requires Tabled(existing, lines, t)
    ensures var parts := WithSpans(t.parts, |existing|, t.lyrics);
            && parts[..|existing|] == existing
            && (forall k | 0 <= k < |lines| :: Placed(|existing|, parts, lines[k], t.lyrics[k]))
            && (forall p | |existing| <= p < |parts| ::
                  && parts[p].time.Some? && parts[p].duration.Some?
                  && Spans(t.lyrics, p, Span(parts[p].time.value, parts[p].time.value + parts[p].duration.value)))
  {
    var parts := WithSpans(t.parts, |existing|, t.lyrics);
    assert forall p | 0 <= p < |parts| :: parts[p].name == t.parts[p].name;
    forall p | 0 <= p < |existing| ensures parts[p] == existing[p] { assert t.parts[p] == t.parts[..|existing|][p]; }
    hide SpanOf, Spans;
    forall k | 0 <= k < |lines| ensures Placed(|existing|, parts, lines[k], t.lyrics[k]) {
      assert Placed(|existing|, t.parts, lines[k], t.lyrics[k]);
    }
    forall p | |existing| <= p < |parts|
      ensures parts[p].time.Some? && parts[p].duration.Some?
      ensures Spans(t.lyrics, p, Span(parts[p].time.value, parts[p].time.value + parts[p].duration.value))
    {
      SpanIs(t.lyrics, p);
      assert HasLine(t.lyrics, p);
    }
  }
}
