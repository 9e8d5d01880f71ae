/** The song parts of a TTML document: how they come back, and that a document that has been read once is stable
    (internal/parsers/ttml.go). */
module TtmlParts {

  import opened Wrappers
  import opened Unicode
  import opened TtmlTime
  import opened Ttml
  import opened TtmlRoundTrip

  // ---- the first trip ----

  /** What the part of some neighbouring lines comes back as. */
  function PartBack(doc: Doc, group: seq<Line>, index: int): Part
    requires group != []
  {
    var start, end := ClampZero(PartStart(doc, group)), ClampZero(PartEnd(doc, group));
    Part(PartName(doc, group[0]), Some(start), Some(ClampZero(end - start)), Some(index))
  }

  function PartsBack(doc: Doc, lines: seq<Line>, index: int): seq<Part>
    decreases |lines|
  {
    if lines == [] then []
    else
      var n := PartRun(doc, lines);
      [PartBack(doc, lines[..n], index)] + PartsBack(doc, lines[n..], index + 1)
  }

  lemma DivAttrs(doc: Doc, group: seq<Line>, children: seq<Node>)
    requires group != []
    ensures var d := DivOf(doc, group, children);
            && d.Elem? && Attr(d, "begin") == FormatTime(PartStart(doc, group)) && Attr(d, "begin") != ""
            && Attr(d, "end") == FormatTime(PartEnd(doc, group)) && Attr(d, "end") != "" && Attr(d, "dur") == ""
            && Attr(d, "song-part") == "" && Attr(d, "songPart") == PartName(doc, group[0])
  {
    StampNotEmpty(PartStart(doc, group));
    StampNotEmpty(PartEnd(doc, group));
    hide FormatTime, PartStart, PartEnd, PartName;
  }

  lemma SpanIs(f: Float, div: Node, ps: seq<Node>)
    requires div.Elem? && Attr(div, "begin") != "" && Attr(div, "end") != "" && Attr(div, "dur") == ""
    ensures var time := TimeToMs(f, Attr(div, "begin")); PartSpan(f, div, ps) == (time, StatedDuration(f, div, time))
  {
    hide TimeToMs, Attr, Decimal;
  }

  lemma ReadPartIs(f: Float, div: Node, index: int, time: int, duration: int, name: string)
    requires div.Elem? && PartSpan(f, div, Descendants(div.children, "p")) == (time, duration)
    requires Attr(div, "song-part") == "" && Attr(div, "songPart") == name
    ensures ReadPart(f, div, index) == Part(name, Some(time), Some(duration), Some(index))
  {
    hide PartSpan, Descendants, Attr;
  }

  lemma PartReads(doc: Doc, f: Float, group: seq<Line>, children: seq<Node>, index: int)
    requires group != [] && ReadsDecimals(f)
    ensures DivOf(doc, group, children).Elem?
    ensures ReadPart(f, DivOf(doc, group, children), index) == PartBack(doc, group, index)
  {
    hide *;
    var d, start, end := DivOf(doc, group, children), PartStart(doc, group), PartEnd(doc, group);
    DivAttrs(doc, group, children);
    SpanIs(f, d, Descendants(d.children, "p"));
    TimesRead(f, d, start, end - start);
    PartBackIs(doc, group, index);
    ReadPartIs(f, d, index, ClampZero(start), ClampZero(ClampZero(end) - ClampZero(start)), PartName(doc, group[0]));
  }

  lemma PartBackIs(doc: Doc, group: seq<Line>, index: int)
    requires group != []
    ensures var start, end := ClampZero(PartStart(doc, group)), ClampZero(PartEnd(doc, group));
            PartBack(doc, group, index)
            == Part(PartName(doc, group[0]), Some(start), Some(ClampZero(end - start)), Some(index))
  {
    hide PartStart, PartEnd, PartName;
  }

  /** Each run of lines of the same part comes back as one part, with its name and its bounds. */
  lemma {:induction false} PartsRoundTrip(doc: Doc, f: Float, lines: seq<Line>, index: int)
    requires ReadsDecimals(f)
    ensures Elems(Divs(doc, lines))
    ensures ReadParts(f, Divs(doc, lines), index) == PartsBack(doc, lines, index)
    decreases |lines|
  {
    hide *;
    DivsFound(doc, lines);
    if lines == [] {
      NoParts(doc, f, index);
    } else {
      var n := PartRun(doc, lines);
      PartsRoundTrip(doc, f, lines[n..], index + 1);
      DivsAre(doc, lines, n);
      PartReads(doc, f, lines[..n], Paragraphs(doc, lines[..n]), index);
      FirstPart(f, DivOf(doc, lines[..n], Paragraphs(doc, lines[..n])), Divs(doc, lines[n..]), index);
      PartsBackIs(doc, lines, index);
    }
  }

  lemma NoParts(doc: Doc, f: Float, index: int)
    ensures Divs(doc, []) == [] && Elems([]) && ReadParts(f, [], index) == [] && PartsBack(doc, [], index) == []
  {
  }

  lemma FirstPart(f: Float, d: Node, rest: seq<Node>, index: int)
    requires d.Elem? && Elems(rest)
    ensures Elems([d] + rest)
    ensures ReadParts(f, [d] + rest, index) == [ReadPart(f, d, index)] + ReadParts(f, rest, index + 1)
  {
    assert ([d] + rest)[1..] == rest;
    hide ReadPart;
  }

  lemma PartsBackIs(doc: Doc, lines: seq<Line>, index: int)
    requires lines != []
    ensures var n := PartRun(doc, lines);
            PartsBack(doc, lines, index)
            == [PartBack(doc, lines[..n], index)] + PartsBack(doc, lines[n..], index + 1)
  {
    hide PartBack, PartRun;
  }

  // ---- the second trip ----

  /** Raising a letter that is raised already changes nothing, and no name gets lost. */
  ghost predicate Settled(capitalize: string -> string) {
    forall s :: capitalize(capitalize(s)) == capitalize(s) && (s != "" ==> capitalize(s) != "")
  }

  lemma {:induction false} OwnEntry(entries: seq<Part>, base: int, j: nat)
    requires j < |entries| && forall k | 0 <= k < |entries| :: entries[k].divIndex == Some(base + k)
    ensures FirstWith(entries, base + j) == Some(entries[j])
  {
    if j > 0 {
      assert forall k | 0 <= k < |entries[1..]| :: entries[1..][k] == entries[k + 1];
      OwnEntry(entries[1..], base + 1, j - 1);
    }
  }

  lemma {:induction false} PartsIndexed(doc: Doc, lines: seq<Line>, index: int)
    ensures forall k | 0 <= k < |PartsBack(doc, lines, index)| ::
              PartsBack(doc, lines, index)[k].divIndex == Some(index + k)
    decreases |lines|
  {
    hide PartRun, PartName, PartStart, PartEnd;
    if lines != [] { PartsIndexed(doc, lines[PartRun(doc, lines)..], index + 1); }
  }

  /** Every part is found under its own number. */
  ghost predicate OwnParts(doc2: Doc, parts: seq<Part>, index: int) {
    doc2.newFormat && forall j: nat | j < |parts| :: FirstWith(doc2.entries, index + j) == Some(parts[j])
  }

  lemma PartAgain(doc: Doc, doc2: Doc, group: seq<Line>, back: seq<Line>, index: int)
    requires group != [] && back != [] && Settled(doc.capitalize) && doc2.capitalize == doc.capitalize
    requires back[0].index == Some(index) && back[0].songPart == ""
    requires FirstWith(doc2.entries, index) == Some(PartBack(doc, group, index))
    ensures PartBack(doc2, back, index) == PartBack(doc, group, index)
  {
    var entry := PartBack(doc, group, index);
    assert FindPart(doc2, back[0].index) == Some(entry);
    NameSettles(doc, group[0]);
    hide PartStart, PartEnd, FirstWith, PartName;
    StartAndEnd(doc2, back, entry);
    NameIs(doc2, back[0], entry);
  }

  lemma StartAndEnd(doc2: Doc, back: seq<Line>, entry: Part)
    requires back != [] && FindPart(doc2, back[0].index) == Some(entry) && entry.time.Some? && entry.duration.Some?
    ensures PartStart(doc2, back) == entry.time.value
    ensures PartEnd(doc2, back) == entry.time.value + entry.duration.value
  {
    hide FindPart;
  }

  lemma NameIs(doc2: Doc, line: Line, entry: Part)
    requires line.songPart == "" && FindPart(doc2, line.index) == Some(entry)
    ensures PartName(doc2, line) == if entry.name == "" then "" else doc2.capitalize(entry.name)
  {
    hide FindPart;
  }

  lemma NameSettles(doc: Doc, line: Line)
    requires Settled(doc.capitalize)
    ensures var name := PartName(doc, line); name == "" || doc.capitalize(name) == name
  {
    hide FindPart;
  }

  lemma RunAgain(doc: Doc, doc2: Doc, c: Reader, lines: seq<Line>, once: seq<Line>, index: int)
    requires lines != [] && CameBack(doc, c, lines, once, index) && doc2.newFormat
    ensures PartRun(doc2, once) == PartRun(doc, lines)
  {
    var n := PartRun(doc, lines);
    hide PartRun, PartNo, JoinTexts, Lookup;
    forall k: nat | k < |lines| ensures once[k].index == Some(index + PartNo(doc, lines, k)) {
      assert once[k] == Returned(c, lines[k], index + PartNo(doc, lines, k));
    }
    forall k: nat | k < n ensures PartNo(doc, lines, k) == 0 { PartNoSplit(doc, lines, n, k); }
    if n < |lines| { PartNoSplit(doc, lines, n, n); }
    var group, rest := once[..n], once[n..];
    assert once == group + rest && Together(doc2, group);
    GroupRunIs(doc2, group, rest);
  }

  lemma RestBack(doc: Doc, c: Reader, lines: seq<Line>, once: seq<Line>, index: int)
    requires lines != [] && CameBack(doc, c, lines, once, index)
    ensures var n := PartRun(doc, lines); CameBack(doc, c, lines[n..], once[n..], index + 1)
  {
    var n := PartRun(doc, lines);
    hide PartRun, PartNo, Returned;
    var rest := lines[n..];
    forall k: nat | k < |rest| ensures once[n..][k] == Returned(c, rest[k], index + 1 + PartNo(doc, rest, k)) {
      PartNoSplit(doc, lines, n, n + k);
      assert once[n..][k] == once[n + k] && rest[k] == lines[n + k];
    }
  }

  lemma FirstBack(doc: Doc, c: Reader, lines: seq<Line>, once: seq<Line>, index: int)
    requires lines != [] && CameBack(doc, c, lines, once, index)
    ensures |once| == |lines| && once[0].index == Some(index) && once[0].songPart == ""
  {
    hide JoinTexts, Lookup;
    assert PartNo(doc, lines, 0) == 0;
  }

  lemma OwnPartsSplit(doc2: Doc, first: Part, rest: seq<Part>, index: int)
    requires OwnParts(doc2, [first] + rest, index)
    ensures FirstWith(doc2.entries, index) == Some(first) && OwnParts(doc2, rest, index + 1)
  {
    hide FirstWith;
    var all := [first] + rest;
    assert all[0] == first && FirstWith(doc2.entries, index + 0) == Some(all[0]);
    forall j: nat | j < |rest| ensures FirstWith(doc2.entries, index + 1 + j) == Some(rest[j]) {
      assert all[j + 1] == rest[j] && FirstWith(doc2.entries, index + (j + 1)) == Some(all[j + 1]);
    }
  }

  /** Lines numbered by their parts have the same parts again. */
  lemma {:induction false} PartsAgain(doc: Doc, doc2: Doc, c: Reader, lines: seq<Line>, once: seq<Line>, index: int)
    requires CameBack(doc, c, lines, once, index) && Settled(doc.capitalize) && doc2.capitalize == doc.capitalize
    requires OwnParts(doc2, PartsBack(doc, lines, index), index)
    ensures PartsBack(doc2, once, index) == PartsBack(doc, lines, index)
    decreases |lines|
  {
    hide *;
    SameLengthBack(doc, c, lines, once, index);
    if lines == [] {
      NothingBack(doc, doc2, index);
    } else {
      var n := PartRun(doc, lines);
      NewFormat(doc2, PartsBack(doc, lines, index), index);
      RunAgain(doc, doc2, c, lines, once, index);
      RestBack(doc, c, lines, once, index);
      FirstBack(doc, c, lines, once, index);
      PartsBackIs(doc, lines, index);
      PartsBackIs(doc2, once, index);
      OwnPartsSplit(doc2, PartBack(doc, lines[..n], index), PartsBack(doc, lines[n..], index + 1), index);
      PartsAgain(doc, doc2, c, lines[n..], once[n..], index + 1);
      PartAgain(doc, doc2, lines[..n], once[..n], index);
    }
  }

  lemma SameLengthBack(doc: Doc, c: Reader, lines: seq<Line>, once: seq<Line>, index: int)
    requires CameBack(doc, c, lines, once, index)
    ensures |once| == |lines|
  {
  }

  lemma NothingBack(doc: Doc, doc2: Doc, index: int)
    ensures PartsBack(doc, [], index) == [] == PartsBack(doc2, [], index)
  {
  }

  lemma NewFormat(doc2: Doc, parts: seq<Part>, index: int)
    requires OwnParts(doc2, parts, index)
    ensures doc2.newFormat
  {
  }

  /** Reading a returned line again changes nothing more. */
  lemma ReturnedAgain(c: Reader, l: Line, index: int)
    ensures Returned(c, Returned(c, l, index), index) == Returned(c, l, index)
  {
  }

  lemma KeptAgain(doc: Doc, doc2: Doc, c: Reader, l: Line, index: int)
    requires LineKept(doc, l) && doc2.timing == ReadAs(doc.timing) && SingerKept(doc2, l.singer)
    ensures LineKept(doc2, Returned(c, l, index))
  {
    hide AllKept, Trimmed, JoinTexts, SingerKept, Lookup;
  }

  lemma KeysByIndex(doc: Doc, a: Line, b: Line)
    requires doc.newFormat
    ensures KeyOf(doc, a) == KeyOf(doc, b) <==> a.index == b.index
  {
  }

  lemma {:induction false} SamePartNo(doc: Doc, doc2: Doc, c: Reader, lines: seq<Line>, once: seq<Line>, k: nat)
    requires CameBack(doc, c, lines, once, 0) && doc2.newFormat && k < |lines|
    ensures |once| == |lines| && PartNo(doc2, once, k) == PartNo(doc, lines, k)
  {
    hide *;
    Neighbours(doc, c, lines, once);
    PartNoStep(doc, lines, k);
    PartNoStep(doc2, once, k);
    if k > 0 {
      SamePartNo(doc, doc2, c, lines, once, k - 1);
      KeysByIndex(doc2, once[k - 1], once[k]);
    }
  }

  lemma LinesAgain(doc: Doc, doc2: Doc, c: Reader, lines: seq<Line>, once: seq<Line>, twice: seq<Line>)
    requires CameBack(doc, c, lines, once, 0) && doc2.newFormat && CameBack(doc2, c, once, twice, 0)
    ensures twice == once
  {
    hide PartNo, Returned;
    forall k: nat | k < |lines| ensures twice[k] == once[k] {
      SamePartNo(doc, doc2, c, lines, once, k);
      ReturnedAgain(c, lines[k], 0 + PartNo(doc, lines, k));
    }
  }

  lemma AllKeptAgain(doc: Doc, doc2: Doc, c: Reader, lines: seq<Line>, once: seq<Line>)
    requires CameBack(doc, c, lines, once, 0) && AllLinesKept(doc, lines) && doc2.timing == ReadAs(doc.timing)
    requires forall l | l in lines :: SingerKept(doc2, l.singer)
    ensures AllLinesKept(doc2, once)
  {
    hide PartNo, Returned, LineKept, SingerKept;
    forall k | 0 <= k < |once| ensures LineKept(doc2, once[k]) {
      KeptAgain(doc, doc2, c, lines[k], 0 + PartNo(doc, lines, k));
    }
  }

  /** The document that is written from what was read. */
  function Rewritten(doc: Doc, c: Reader, body: Node, agentId: string -> string): Node
    requires body.Elem?
  {
    var once, entries := ReadDivs(c, DivsIn(body), 0), ReadParts(c.f, DivsIn(body), 0);
    BodyOf(Doc(c.timing, entries, SomeIndexed(once), doc.capitalize, agentId), Attr(body, "dur"), once)
  }

  lemma DurationStays(stated: string, lines: seq<Line>, once: seq<Line>)
    ensures TotalDuration(TotalDuration(stated, lines), once) == TotalDuration(stated, lines)
  {
    if lines != [] { StampNotEmpty(lines[|lines| - 1].time + lines[|lines| - 1].duration); }
    hide FormatTime;
  }

  lemma EmptyAgain(doc: Doc, doc2: Doc, stated: string, once: seq<Line>)
    requires once == []
    ensures BodyOf(doc2, TotalDuration(stated, []), once) == BodyOf(doc, stated, [])
  {
    DurationStays(stated, [], []);
    hide TotalDuration;
  }

  lemma DivsInBody(doc: Doc, stated: string, lines: seq<Line>)
    requires lines != []
    ensures BodyOf(doc, stated, lines).Elem? && DivsIn(BodyOf(doc, stated, lines)) == Divs(doc, lines)
  {
    hide *;
    BodyIs(doc, stated, lines);
    DivsFound(doc, lines);
    DivsNotEmpty(doc, lines);
    DivsInIs(BodyOf(doc, stated, lines));
  }

  lemma Indexed(once: seq<Line>)
    requires once != [] && once[0].index.Some?
    ensures SomeIndexed(once)
  {
  }

  lemma SecondLines(doc: Doc, doc2: Doc, c: Reader, lines: seq<Line>)
    requires Fits(doc, c) && AllLinesKept(doc, lines) && doc2.newFormat && doc2.timing == c.timing
    requires forall l | l in lines :: SingerKept(doc2, l.singer)
    ensures Elems(Divs(doc, lines)) && Elems(Divs(doc2, ReadDivs(c, Divs(doc, lines), 0)))
    ensures var once := ReadDivs(c, Divs(doc, lines), 0);
            CameBack(doc, c, lines, once, 0) && ReadDivs(c, Divs(doc2, once), 0) == once
  {
    hide *;
    DivsRoundTrip(doc, c, lines, 0);
    var once := ReadDivs(c, Divs(doc, lines), 0);
    FitsAgain(doc, doc2, c);
    AllKeptAgain(doc, doc2, c, lines, once);
    DivsRoundTrip(doc2, c, once, 0);
    LinesAgain(doc, doc2, c, lines, once, ReadDivs(c, Divs(doc2, once), 0));
  }

  lemma FitsAgain(doc: Doc, doc2: Doc, c: Reader)
    requires Fits(doc, c) && doc2.timing == c.timing
    ensures Fits(doc2, c) && ReadsDecimals(c.f) && doc2.timing == ReadAs(doc.timing)
  {
    hide ReadsDecimals;
  }

  lemma OwnPartsFound(doc: Doc, doc2: Doc, lines: seq<Line>)
    requires doc2.newFormat && doc2.entries == PartsBack(doc, lines, 0)
    ensures OwnParts(doc2, PartsBack(doc, lines, 0), 0)
  {
    hide PartsBack, FirstWith;
    var parts := PartsBack(doc, lines, 0);
    PartsIndexed(doc, lines, 0);
    forall j: nat | j < |parts| ensures FirstWith(doc2.entries, 0 + j) == Some(parts[j]) { OwnEntry(parts, 0, j); }
  }

  lemma SingersKept(doc2: Doc, lines: seq<Line>)
    requires forall l | l in lines && l.singer != "" :: Voice(doc2.agentId(l.singer)) == l.singer
    ensures forall l | l in lines :: SingerKept(doc2, l.singer)
  {
  }

  /** A document whose lines come back is read, once it has been written from what was read, as the same lines and the
      same parts. */
  lemma SecondTrip(doc: Doc, c: Reader, stated: string, lines: seq<Line>, agentId: string -> string)
    requires Fits(doc, c) && AllLinesKept(doc, lines) && Settled(doc.capitalize)
    requires forall l | l in lines && l.singer != "" :: Voice(agentId(l.singer)) == l.singer
    ensures BodyOf(doc, stated, lines).Elem? && Rewritten(doc, c, BodyOf(doc, stated, lines), agentId).Elem?
    ensures var body := BodyOf(doc, stated, lines);
            var again := Rewritten(doc, c, body, agentId);
            && ReadDivs(c, DivsIn(again), 0) == ReadDivs(c, DivsIn(body), 0)
            && ReadParts(c.f, DivsIn(again), 0) == ReadParts(c.f, DivsIn(body), 0)
            && Attr(again, "dur") == Attr(body, "dur")
  {
    hide *;
    var body := BodyOf(doc, stated, lines);
    BodyIs(doc, stated, lines);
    var once, entries := ReadDivs(c, DivsIn(body), 0), ReadParts(c.f, DivsIn(body), 0);
    var doc2 := Doc(c.timing, entries, SomeIndexed(once), doc.capitalize, agentId);
    RewrittenIs(doc, c, body, agentId);
    if lines == [] {
      NoBody(doc, c, 0);
      EmptyBody(c, body);
      EmptyAgain(doc, doc2, stated, once);
    } else {
      DurationStays(stated, lines, once);
      BodyIs(doc2, Attr(body, "dur"), once);
      DivsInBody(doc, stated, lines);
      FitsMeans(doc, c);
      PartsRoundTrip(doc, c.f, lines, 0);
      DivsRoundTrip(doc, c, lines, 0);
      FirstBack(doc, c, lines, once, 0);
      Indexed(once);
      SingersKept(doc2, lines);
      SecondLines(doc, doc2, c, lines);
      OwnPartsFound(doc, doc2, lines);
      PartsAgain(doc, doc2, c, lines, once, 0);
      PartsRoundTrip(doc2, c.f, once, 0);
      DivsInBody(doc2, Attr(body, "dur"), once);
    }
  }

  lemma RewrittenIs(doc: Doc, c: Reader, body: Node, agentId: string -> string)
    requires body.Elem?
    ensures var once, entries := ReadDivs(c, DivsIn(body), 0), ReadParts(c.f, DivsIn(body), 0);
            Rewritten(doc, c, body, agentId)
            == BodyOf(Doc(c.timing, entries, SomeIndexed(once), doc.capitalize, agentId), Attr(body, "dur"), once)
  {
  }
}
