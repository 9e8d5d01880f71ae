/** Between the two versions of the response format (internal/parsers/kpoe.go, NormalizeV2, V1ToV2, V2ToV1). */
module KpoeVersions {

  import opened Orders
  import opened Wrappers
  import opened Kpoe
  import opened KpoeParts
  import Ttml

  class Response {
    var kind: string
    var parts: seq<Part>
    var lyrics: seq<Line>

    function Value(): V2
      reads this
    {
      V2(kind, parts, lyrics)
    }

    constructor (v: V2)
      ensures Value() == v
    {
      kind, parts, lyrics := v.kind, v.parts, v.lyrics;
    }

    /** NormalizeV2 */
    method Normalize(fold: Fold)
      modifies this
      ensures Value() == Normal(fold, old(Value()))
    {
      hide *;
      ghost var v := Value();
      ValueIs();
      NormalIs(fold, v);
      if |lyrics| == 0 {
        return;
      }
      if IsFlat(lyrics) {
        if fold(kind) == fold("Line") {
          lyrics := Unmarked(lyrics);
          kind := "Line";
        } else {
          lyrics := NestFlatLyrics(lyrics);
          kind := "Word";
        }
      }
      ValueIs();
      assert Value() == Unflattened(fold, v);
      if Indexed(lyrics) {
        return;
      }
      var songParts, normalized := AssignParts(parts, lyrics);
      songParts := FillSpans(songParts, |parts|, normalized);
      parts, lyrics := songParts, normalized;
      ValueIs();
    }

    lemma ValueIs()
      ensures Value() == V2(kind, parts, lyrics)
    {
    }
  }

  lemma NormalIs(fold: Fold, v: V2)
    ensures v.lyrics == [] ==> Normal(fold, v) == v
    ensures Unflattened(fold, v)
         == if !IsFlat(v.lyrics) then v
            else if fold(v.kind) == fold("Line") then V2("Line", v.parts, Unmarked(v.lyrics))
            else V2("Word", v.parts, Nested(v.lyrics))
    ensures var u := Unflattened(fold, v);
            v.lyrics != [] ==>
              && (Indexed(u.lyrics) ==> Normal(fold, v) == u)
              && (!Indexed(u.lyrics) ==>
                    var t := Assigned(u.parts, u.lyrics);
                    Normal(fold, v) == V2(u.kind, WithSpans(t.parts, |u.parts|, t.lyrics), t.lyrics))
  {
    hide IsFlat, Unmarked, Nested, Indexed, Assigned, WithSpans;
  }

  /** Walks over the lines, opening a new part whenever the name changes. */
  method AssignParts(existing: seq<Part>, lines: seq<Line>) returns (songParts: seq<Part>, normalized: seq<Line>)
    ensures songParts == Assigned(existing, lines).parts && normalized == Assigned(existing, lines).lyrics
  {
    songParts, normalized := existing, [];
    var currentPartName: Option<string> := None;
    for i := 0 to |lines|
      invariant Table(songParts, currentPartName, normalized) == Assigned(existing, lines[..i])
    {
      var line := lines[i];
      assert lines[..i + 1][..i] == lines[..i];
      if line.element.index.Some? {
        currentPartName := None;
        normalized := normalized + [line];
      } else {
        var partName := line.element.songPart;
        if currentPartName != Some(partName) {
          currentPartName := Some(partName);
          songParts := songParts + [NewPart(partName)];
        }
        var idx := |songParts| - 1;
        line := line.(element := line.element.(songPart := "", index := Some(idx)));
        normalized := normalized + [line];
      }
    }
    assert lines[..|lines|] == lines;
  }

  predicate InTable(existing: nat, parts: seq<Part>, index: Option<int>) {
    index.Some? && existing <= index.value < |parts|
  }

  ghost predicate Bounded(bounds: map<int, Span>, existing: nat, parts: seq<Part>, lines: seq<Line>) {
    forall p :: (p in bounds <==> existing <= p < |parts| && SpanOf(lines, p).Some?)
                && (p in bounds ==> SpanOf(lines, p) == Some(bounds[p]))
  }

  /** Collects the spread of every new part, then fills it in; the parts are visited in no particular order. */
  method FillSpans(parts: seq<Part>, existing: nat, lines: seq<Line>) returns (filled: seq<Part>)
    ensures filled == WithSpans(parts, existing, lines)
  {
    var bounds: map<int, Span> := map[];
    for i := 0 to |lines|
      invariant Bounded(bounds, existing, parts, lines[..i])
    {
      var idx := lines[i].element.index;
      SpanStep(lines, i);
      if InTable(existing, parts, idx) {
        var b: Option<Span> := if idx.value in bounds then Some(bounds[idx.value]) else None;
        bounds := bounds[idx.value := Widened(b, lines[i])];
      }
    }
    assert lines[..|lines|] == lines;
    filled := parts;
    var order := InAnyOrder(bounds.Keys);
    for i := 0 to |order|
      invariant |filled| == |parts|
      invariant forall p | 0 <= p < |parts| ::
                  filled[p] == if p in order[..i] then Timed(parts[p], Some(bounds[p])) else parts[p]
    {
      var idx := order[i];
      assert idx in bounds && idx !in order[..i];
      assert order[..i + 1] == order[..i] + [idx];
      filled := filled[idx := Timed(filled[idx], Some(bounds[idx]))];
    }
    assert order[..|order|] == order;
    forall p | 0 <= p < |parts| ensures filled[p] == WithSpans(parts, existing, lines)[p] {
      assert p in bounds <==> existing <= p && SpanOf(lines, p).Some?;
    }
  }

  lemma SpanStep(lines: seq<Line>, i: nat)
    requires i < |lines|
    ensures forall p :: SpanOf(lines[..i + 1], p)
                     == if lines[i].element.index == Some(p) then Some(Widened(SpanOf(lines[..i], p), lines[i]))
                        else SpanOf(lines[..i], p)
  {
    assert lines[..i + 1][..i] == lines[..i];
    hide Widened;
  }

  // ---- version 1 ----

  datatype V1 = V1(kind: string, parts: seq<Part>, lyrics: seq<Segment>)

  /** A segment as a flat line. */
  function FlatLine(s: Segment): Line {
    Line(s.time, s.duration, s.text, Some(s.isLineEnding), [],
         Element(s.key, s.singer, None, s.songPart, s.isBackground))
  }

  function FlatLines(segs: seq<Segment>): seq<Line> {
    seq(|segs|, i requires 0 <= i < |segs| => FlatLine(segs[i]))
  }

  function UpgradedKind(fold: Fold, kind: string): string {
    if fold(kind) == fold("Line") then "Line"
    else if fold(kind) == fold("Word") || fold(kind) == fold("syllable") then "Word"
    else kind
  }

  /** Before it is normalised. */
  function Regrouped(fold: Fold, v1: V1): V2 {
    V2(UpgradedKind(fold, v1.kind), v1.parts,
       if fold(v1.kind) == fold("Line") then Unmarked(FlatLines(v1.lyrics)) else Nested(FlatLines(v1.lyrics)))
  }

  function Upgraded(fold: Fold, v1: V1): V2 { Normal(fold, Regrouped(fold, v1)) }

  method V1ToV2(fold: Fold, v1: V1) returns (v2: Response)
    ensures fresh(v2) && v2.Value() == Upgraded(fold, v1)
  {
    hide *;
    UpgradedIs(fold, v1);
    var grouped: seq<Line> := [];
    if fold(v1.kind) == fold("Line") {
      grouped := Unmarked(FlatLines(v1.lyrics));
    } else {
      var current: Option<Line> := None;
      CollectedNothing();
      NoFlatLines();
      for i := 0 to |v1.lyrics|
        invariant Collected(FlatLines(v1.lyrics[..i]), grouped, current)
        invariant current.Some? ==> current.value.syllabus != []
      {
        var seg := v1.lyrics[i];
        FlatStep(v1.lyrics, i);
        CollectedSnoc(FlatLines(v1.lyrics[..i]), grouped, current, FlatLine(seg));
        var joined := Joining(current, FlatLine(seg));
        if seg.isLineEnding == 1 {
          var line := FinalizeGroup(joined);
          grouped := grouped + [line];
          current := None;
        } else {
          current := Some(joined);
        }
      }
      assert v1.lyrics[..|v1.lyrics|] == v1.lyrics;
      CollectedAll(FlatLines(v1.lyrics), grouped, current);
      if current.Some? {
        var line := FinalizeGroup(current.value);
        grouped := grouped + [line];
      }
    }
    v2 := new Response(V2(UpgradedKind(fold, v1.kind), v1.parts, grouped));
    v2.Normalize(fold);
  }

  lemma UpgradedIs(fold: Fold, v1: V1)
    ensures Upgraded(fold, v1)
         == Normal(fold, V2(UpgradedKind(fold, v1.kind), v1.parts,
                            if fold(v1.kind) == fold("Line") then Unmarked(FlatLines(v1.lyrics))
                            else Nested(FlatLines(v1.lyrics))))
  {
    hide Normal, UpgradedKind, Unmarked, FlatLines, Nested;
  }

  lemma NoFlatLines()
    ensures FlatLines([]) == []
  {
  }

  lemma FlatStep(segs: seq<Segment>, i: nat)
    requires i < |segs|
    ensures FlatLines(segs[..i + 1]) == FlatLines(segs[..i]) + [FlatLine(segs[i])]
    ensures Ends(FlatLine(segs[i])) <==> segs[i].isLineEnding == 1
  {
  }

  function Spread(part: string, line: Line): (s: seq<Segment>)
    ensures |s| == |line.syllabus|
  {
    seq(|line.syllabus|, i requires 0 <= i < |line.syllabus| =>
      var syl := line.syllabus[i];
      Segment(syl.time, syl.duration, syl.text, if i == |line.syllabus| - 1 then 1 else 0,
              line.element.key, part, line.element.singer, syl.isBackground))
  }

  function SegmentsOf(parts: seq<Part>, byLine: bool, line: Line): seq<Segment> {
    var part := ResolvePart(parts, line.element);
    if byLine || line.syllabus == [] then
      [Segment(line.time, line.duration, line.text, 1, line.element.key, part, line.element.singer, false)]
    else
      Spread(part, line)
  }

  function Flattened(parts: seq<Part>, byLine: bool, lyrics: seq<Line>): seq<Segment> {
    if lyrics == [] then []
    else Flattened(parts, byLine, lyrics[..|lyrics| - 1]) + SegmentsOf(parts, byLine, lyrics[|lyrics| - 1])
  }

  function DowngradedKind(fold: Fold, kind: string): string {
    if fold(kind) == fold("Word") || fold(kind) == fold("syllable") then "syllable"
    else if fold(kind) == fold("Line") then "Line"
    else kind
  }

  function Downgraded(fold: Fold, v2: V2): V1 {
    V1(DowngradedKind(fold, v2.kind), v2.parts, Flattened(v2.parts, v2.kind == "Line", v2.lyrics))
  }

  method V2ToV1(fold: Fold, v2: V2) returns (v1: V1)
    ensures v1 == Downgraded(fold, v2)
  {
    var flat := [];
    for i := 0 to |v2.lyrics|
      invariant flat == Flattened(v2.parts, v2.kind == "Line", v2.lyrics[..i])
    {
      var line := v2.lyrics[i];
      assert v2.lyrics[..i + 1][..i] == v2.lyrics[..i];
      var part := ResolvePart(v2.parts, line.element);
      if v2.kind == "Line" || |line.syllabus| == 0 {
        flat := flat + [Segment(line.time, line.duration, line.text, 1, line.element.key, part, line.element.singer,
                                false)];
      } else {
        var some := SpreadLine(part, line);
        flat := flat + some;
      }
    }
    assert v2.lyrics[..|v2.lyrics|] == v2.lyrics;
    v1 := V1(DowngradedKind(fold, v2.kind), v2.parts, flat);
  }

  method SpreadLine(part: string, line: Line) returns (segs: seq<Segment>)
    ensures segs == Spread(part, line)
  {
    segs := [];
    for i := 0 to |line.syllabus|
      invariant segs == Spread(part, line)[..i]
    {
      var syl := line.syllabus[i];
      var isEnd := 0;
      if i == |line.syllabus| - 1 { isEnd := 1; }
      var seg := Segment(syl.time, syl.duration, syl.text, isEnd, line.element.key, part, line.element.singer,
                         syl.isBackground);
      assert Spread(part, line)[..i + 1] == Spread(part, line)[..i] + [seg];
      segs := segs + [seg];
    }
    assert Spread(part, line)[..|line.syllabus|] == Spread(part, line);
  }
}
