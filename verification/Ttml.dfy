/** TTML as a tree of elements: what is read from it and what is written into it
    (internal/parsers/ttml.go). */
module Ttml {

  import opened Wrappers
  import opened Unicode
  import opened TtmlTime

  datatype Node = Text(data: string) | Elem(name: string, attrs: map<string, string>, children: seq<Node>)

  datatype Syllable = Syllable(time: int, duration: int, text: string, isBackground: bool)

  /** `index` is the song part index, nil in the old format. */
  datatype Line = Line(time: int, duration: int, text: string, syllabus: seq<Syllable>, key: string,
                       index: Option<int>, songPart: string, singer: string,
                       translation: Option<string>, transliteration: Option<string>)

  datatype Part = Part(name: string, time: Option<int>, duration: Option<int>, divIndex: Option<int>)

  /** How finely a response is timed. */
  datatype Timing = ByWord | BySyllable | ByLine | NoTiming

  function Stamp(t: Timing): string {
    match t case ByWord => "Word" case BySyllable => "syllable" case ByLine => "Line" case NoTiming => "None"
  }

  /** What a timing attribute, compared without case, is read as; without one a timed span makes the difference. */
  function TimingOf(raw: string, timedSpan: bool): Timing {
    var name := Lower(raw);
    if name == "line" then ByLine
    else if name == "none" then NoTiming
    else if name == "" && !timedSpan then ByLine
    else ByWord
  }

  lemma StampReads(t: Timing, timedSpan: bool)
    ensures TimingOf(Stamp(t), timedSpan) == if t == BySyllable then ByWord else t
  {
    assert Lower("Word") == "word" && Lower("syllable") == "syllable" && Lower("Line") == "line"
        && Lower("None") == "none";
  }

  // ---- reading ----

  function Attr(n: Node, name: string): string {
    if n.Elem? && name in n.attrs then n.attrs[name] else ""
  }

  function DirectText(nodes: seq<Node>): string {
    if nodes == [] then ""
    else (if nodes[0].Text? then nodes[0].data else "") + DirectText(nodes[1..])
  }

  /** The text that follows a node up to the next element. */
  function Tail(after: seq<Node>): string {
    if after == [] || after[0].Elem? then "" else after[0].data + Tail(after[1..])
  }

  function TextContent(nodes: seq<Node>): string {
    if nodes == [] then ""
    else (match nodes[0] case Text(data) => data case Elem(_, _, children) => TextContent(children))
         + TextContent(nodes[1..])
  }

  /** The descendants with a name, in document order. */
  function Descendants(nodes: seq<Node>, name: string): seq<Node> {
    if nodes == [] then []
    else
      (match nodes[0]
       case Text(_) => []
       case Elem(local, _, children) => (if local == name then [nodes[0]] else []) + Descendants(children, name))
      + Descendants(nodes[1..], name)
  }

  /** A timed span, the text after it, and whether an element between it and its paragraph has the
      background role. */
  datatype Span = Span(node: Node, tail: string, isBg: bool)

  /** The timed spans that are looked at: not those inside a timed background span. */
  function TimedSpans(nodes: seq<Node>, inBg: bool): seq<Span> {
    if nodes == [] then []
    else
      (match nodes[0]
       case Text(_) => []
       case Elem(name, _, children) =>
         var timed := name == "span" && Attr(nodes[0], "begin") != "";
         (if timed then [Span(nodes[0], Tail(nodes[1..]), inBg)] else [])
         + if timed && inBg then [] else TimedSpans(children, inBg || Attr(nodes[0], "role") == "x-bg"))
      + TimedSpans(nodes[1..], inBg)
  }

  /** The duration an element states, by its own attribute or by its end. */
  function StatedDuration(f: Float, n: Node, begin: int): int {
    var d := if Attr(n, "dur") != "" then TimeToMs(f, Attr(n, "dur"))
             else if Attr(n, "end") != "" then TimeToMs(f, Attr(n, "end")) - begin else 0;
    if d < 0 then 0 else d
  }

  /** What a timed span is read as; a blank one only counts when a space follows it. */
  function ReadSpan(f: Float, sp: Span): Option<Syllable>
    requires sp.node.Elem?
  {
    var begin := TimeToMs(f, Attr(sp.node, "begin"));
    var text := DirectText(sp.node.children) + sp.tail;
    if Trim(text) == "" && (sp.tail == "" || ' ' !in sp.tail) then None
    else Some(Syllable(begin, StatedDuration(f, sp.node, begin), text, sp.isBg))
  }

  ghost predicate AllElems(spans: seq<Span>) { forall i | 0 <= i < |spans| :: spans[i].node.Elem? }

  lemma {:induction false} TimedAreElems(nodes: seq<Node>, inBg: bool)
    ensures AllElems(TimedSpans(nodes, inBg))
    decreases nodes
  {
    if nodes != [] {
      if nodes[0].Elem? { TimedAreElems(nodes[0].children, inBg || Attr(nodes[0], "role") == "x-bg"); }
      TimedAreElems(nodes[1..], inBg);
    }
  }

  function ReadSpans(f: Float, spans: seq<Span>): seq<Syllable>
    requires AllElems(spans)
  {
    if spans == [] then []
    else
      (match ReadSpan(f, spans[0]) case None => [] case Some(s) => [s]) + ReadSpans(f, spans[1..])
  }

  function JoinTexts(syllabus: seq<Syllable>): string {
    if syllabus == [] then "" else syllabus[0].text + JoinTexts(syllabus[1..])
  }

  /** What a reader knows besides the body: the timing and, by line key, the texts from the head. */
  datatype Reader = Reader(f: Float, timing: Timing, translations: map<string, string>,
                           transliterations: map<string, string>)

  function Lookup(texts: map<string, string>, key: string): Option<string> {
    if key != "" && key in texts then Some(texts[key]) else None
  }

  /** strings.Replace(id, "voice", "v", 1) */
  function Voice(id: string): string {
    if |id| < 5 then id else if id[..5] == "voice" then "v" + id[5..] else [id[0]] + Voice(id[1..])
  }

  function LineRead(c: Reader, p: Node, index: int, time: int, duration: int, text: string, syllabus: seq<Syllable>)
    : Line
  {
    var key := Attr(p, "key");
    Line(time, duration, text, syllabus, key, Some(index), "", Voice(Attr(p, "agent")),
         Lookup(c.translations, key), Lookup(c.transliterations, key))
  }

  /** What a paragraph is read as, if anything. */
  function Reading(c: Reader, p: Node, index: int): Option<Line>
    requires p.Elem?
  {
    var begin := Attr(p, "begin");
    var time := if begin == "" then 0 else TimeToMs(c.f, begin);
    var duration := if begin == "" then 0 else StatedDuration(c.f, p, time);
    var spans := if c.timing == ByWord then TimedSpans(p.children, false) else [];
    if spans == [] then
      var text := Trim(TextContent(p.children));
      if text == "" then None
      else if c.timing == NoTiming then Some(LineRead(c, p, index, 0, 0, text, []))
      else Some(LineRead(c, p, index, time, duration, text, []))
    else
      TimedAreElems(p.children, false);
      var syllabus := ReadSpans(c.f, spans);
      if syllabus == [] then None
      else
        var first, last := syllabus[0], syllabus[|syllabus| - 1];
        var ends := last.time + last.duration - first.time;
        if time == 0 && duration == 0 then
          Some(LineRead(c, p, index, first.time, if ends < 0 then 0 else ends, JoinTexts(syllabus), syllabus))
        else
          Some(LineRead(c, p, index, time, duration, JoinTexts(syllabus), syllabus))
  }

  // ---- writing ----

  function SpanOf(s: Syllable): Node {
    var core := Trim(s.text);
    Elem("span", map["begin" := FormatTime(s.time), "end" := FormatTime(s.time + s.duration)],
         if core == "" then [] else [Text(core)])
  }

  function Spaces(s: string): seq<Node> { if s == "" then [] else [Text(s)] }

  /** A syllable: its leading white space, the span, its trailing white space.  All white space counts as leading. */
  function Marked(s: Syllable): seq<Node> {
    var n := Lead(s.text);
    var rest := s.text[n..];
    Spaces(s.text[..n]) + [SpanOf(s)] + Spaces(rest[TrailStart(rest)..])
  }

  function MarkedAll(syllabus: seq<Syllable>): seq<Node> {
    if syllabus == [] then [] else Marked(syllabus[0]) + MarkedAll(syllabus[1..])
  }

  function Wrapper(children: seq<Node>): Node { Elem("span", map["role" := "x-bg"], children) }

  /** How many background syllables come first. */
  function BackgroundRun(syllabus: seq<Syllable>): (n: nat)
    ensures n <= |syllabus| && (forall i | 0 <= i < n :: syllabus[i].isBackground)
    ensures n < |syllabus| ==> !syllabus[n].isBackground
  {
    if syllabus == [] || !syllabus[0].isBackground then 0 else 1 + BackgroundRun(syllabus[1..])
  }

  /** The children of a paragraph: each run of background syllables goes into one wrapper. */
  function Paragraph(syllabus: seq<Syllable>): seq<Node> {
    if syllabus == [] then []
    else if !syllabus[0].isBackground then Marked(syllabus[0]) + Paragraph(syllabus[1..])
    else
      var n := BackgroundRun(syllabus);
      [Wrapper(MarkedAll(syllabus[..n]))] + Paragraph(syllabus[n..])
  }

  lemma {:induction false} MarkedAllSnoc(syllabus: seq<Syllable>, s: Syllable)
    ensures MarkedAll(syllabus + [s]) == MarkedAll(syllabus) + Marked(s)
  {
    hide Marked;
    var all := syllabus + [s];
    if syllabus == [] {
      assert all[0] == s && all[1..] == [];
      assert Marked(s) + [] == Marked(s) == [] + Marked(s);
    } else {
      assert all[0] == syllabus[0] && all[1..] == syllabus[1..] + [s];
      MarkedAllSnoc(syllabus[1..], s);
    }
  }

  /** A pending run of background syllables is flushed when a foreground syllable or the end comes. */
  lemma {:induction false} FlushRun(run: seq<Syllable>, rest: seq<Syllable>)
    requires forall i | 0 <= i < |run| :: run[i].isBackground
    requires rest == [] || !rest[0].isBackground
    ensures Paragraph(run + rest) == (if run == [] then [] else [Wrapper(MarkedAll(run))]) + Paragraph(rest)
  {
    if run == [] {
      assert run + rest == rest;
    } else {
      RunIs(run, rest);
      assert (run + rest)[..|run|] == run && (run + rest)[|run|..] == rest;
    }
  }

  lemma {:induction false} RunIs(run: seq<Syllable>, rest: seq<Syllable>)
    requires forall i | 0 <= i < |run| :: run[i].isBackground
    requires rest == [] || !rest[0].isBackground
    ensures BackgroundRun(run + rest) == |run|
  {
    if run == [] {
      assert run + rest == rest;
    } else {
      assert (run + rest)[1..] == run[1..] + rest;
      RunIs(run[1..], rest);
    }
  }

  /** The open wrapper, if any, is closed. */
  method FlushBg(out: seq<Node>, bgBuffer: seq<Syllable>) returns (flushed: seq<Node>)
    ensures flushed == out + if bgBuffer == [] then [] else [Wrapper(MarkedAll(bgBuffer))]
  {
    hide *;
    if |bgBuffer| == 0 {
      return out;
    }
    var inner := [];
    EmptyMarked();
    for i := 0 to |bgBuffer|
      invariant inner == MarkedAll(bgBuffer[..i])
    {
      MarkedNext(bgBuffer, i);
      inner := inner + Marked(bgBuffer[i]);
    }
    assert bgBuffer[..|bgBuffer|] == bgBuffer;
    flushed := out + [Wrapper(inner)];
  }

  lemma MarkedNext(syllabus: seq<Syllable>, i: nat)
    requires i < |syllabus|
    ensures MarkedAll(syllabus[..i + 1]) == MarkedAll(syllabus[..i]) + Marked(syllabus[i])
  {
    hide *;
    MarkedAllSnoc(syllabus[..i], syllabus[i]);
    assert syllabus[..i + 1] == syllabus[..i] + [syllabus[i]];
  }

  lemma EmptyMarked()
    ensures MarkedAll([]) == [] && Paragraph([]) == []
  {
  }

  lemma ForegroundFirst(syllabus: seq<Syllable>)
    requires syllabus != [] && !syllabus[0].isBackground
    ensures Paragraph(syllabus) == Marked(syllabus[0]) + Paragraph(syllabus[1..])
  {
  }

  /** Writes the syllables of a line, collecting background syllables until a foreground one comes. */
  method WriteSyllabus(syllabus: seq<Syllable>) returns (out: seq<Node>)
    ensures out == Paragraph(syllabus)
  {
    hide *;
    out := [];
    var bgBuffer := [];
    assert bgBuffer + syllabus[0..] == syllabus;
    for i := 0 to |syllabus|
      invariant forall k | 0 <= k < |bgBuffer| :: bgBuffer[k].isBackground
      invariant out + Paragraph(bgBuffer + syllabus[i..]) == Paragraph(syllabus)
    {
      var s, rest := syllabus[i], syllabus[i + 1..];
      assert syllabus[i..] == [s] + rest;
      if s.isBackground {
        assert bgBuffer + ([s] + rest) == bgBuffer + [s] + rest;
        bgBuffer := bgBuffer + [s];
      } else {
        FlushRun(bgBuffer, [s] + rest);
        ForegroundFirst([s] + rest);
        assert ([s] + rest)[1..] == rest;
        out := FlushBg(out, bgBuffer);
        out := out + Marked(s);
        bgBuffer := [];
        assert [] + rest == rest;
      }
    }
    assert syllabus[|syllabus|..] == [];
    EmptyMarked();
    FlushRun(bgBuffer, []);
    out := FlushBg(out, bgBuffer);
  }

  // ---- paragraphs and divisions ----

  /** What is said about a response besides its lines: how it is timed, its parts, whether lines refer to parts by
      index, how a first letter is raised, and the agent each singer is found under. */
  datatype Doc = Doc(timing: Timing, entries: seq<Part>, newFormat: bool, capitalize: string -> string,
                     agentId: string -> string)

  function AgentOf(doc: Doc, singer: string): string { if singer == "" then "" else doc.agentId(singer) }

  function ParagraphOf(doc: Doc, line: Line, children: seq<Node>): Node {
    var times := map["begin" := FormatTime(line.time), "end" := FormatTime(line.time + line.duration)];
    var keyed := if line.key == "" then times else times["key" := line.key];
    var agent := AgentOf(doc, line.singer);
    Elem("p", if agent == "" then keyed else keyed["agent" := agent], children)
  }

  function Inside(doc: Doc, line: Line): seq<Node> {
    if doc.timing == ByWord && line.syllabus != [] then Paragraph(line.syllabus) else Spaces(line.text)
  }

  function FirstWith(entries: seq<Part>, index: int): Option<Part> {
    if entries == [] then None
    else if entries[0].divIndex == Some(index) then Some(entries[0])
    else FirstWith(entries[1..], index)
  }

  function FindPart(doc: Doc, index: Option<int>): Option<Part> {
    if index.None? then None
    else if FirstWith(doc.entries, index.value).Some? then FirstWith(doc.entries, index.value)
    else if 0 <= index.value < |doc.entries| then Some(doc.entries[index.value])
    else None
  }

  function PartName(doc: Doc, line: Line): string {
    if line.songPart != "" then doc.capitalize(line.songPart)
    else
      var entry := FindPart(doc, line.index);
      if entry.Some? && entry.value.name != "" then doc.capitalize(entry.value.name) else ""
  }

  datatype PartKey = ByIndex(index: Option<int>) | ByName(name: string)

  /** What makes two lines belong to the same part. */
  function KeyOf(doc: Doc, line: Line): PartKey {
    if doc.newFormat then ByIndex(line.index) else ByName(PartName(doc, line))
  }

  /** A response is in the new format as soon as one line has an index. */
  predicate SomeIndexed(lines: seq<Line>) { exists k :: 0 <= k < |lines| && lines[k].index.Some? }

  function PartStart(doc: Doc, lines: seq<Line>): int
    requires lines != []
  {
    var entry := FindPart(doc, lines[0].index);
    if entry.Some? && entry.value.time.Some? then entry.value.time.value else lines[0].time
  }

  function PartEnd(doc: Doc, lines: seq<Line>): int
    requires lines != []
  {
    var entry, last := FindPart(doc, lines[0].index), lines[|lines| - 1];
    if entry.Some? && entry.value.time.Some? && entry.value.duration.Some?
    then entry.value.time.value + entry.value.duration.value
    else last.time + last.duration
  }

  function DivOf(doc: Doc, lines: seq<Line>, children: seq<Node>): Node
    requires lines != []
  {
    var times := map["begin" := FormatTime(PartStart(doc, lines)), "end" := FormatTime(PartEnd(doc, lines))];
    var name := PartName(doc, lines[0]);
    Elem("div", if name == "" then times else times["songPart" := name], children)
  }

  function Paragraphs(doc: Doc, lines: seq<Line>): seq<Node> {
    if lines == [] then []
    else [ParagraphOf(doc, lines[0], Inside(doc, lines[0]))] + Paragraphs(doc, lines[1..])
  }

  /** How many lines from the front belong to the same part. */
  function PartRun(doc: Doc, lines: seq<Line>): (n: nat)
    ensures n <= |lines| && (lines != [] ==> n > 0)
    ensures forall k | 0 <= k < n :: KeyOf(doc, lines[k]) == KeyOf(doc, lines[0])
    ensures n < |lines| ==> KeyOf(doc, lines[n]) != KeyOf(doc, lines[0])
  {
    if |lines| <= 1 || KeyOf(doc, lines[1]) != KeyOf(doc, lines[0]) then (if lines == [] then 0 else 1)
    else
      var n := PartRun(doc, lines[1..]);
      assert forall k | 0 <= k < n :: lines[1..][k] == lines[k + 1];
      n + 1
  }

  /** One division for each run of lines of the same part. */
  function Divs(doc: Doc, lines: seq<Line>): seq<Node> {
    if lines == [] then []
    else
      var n := PartRun(doc, lines);
      [DivOf(doc, lines[..n], Paragraphs(doc, lines[..n]))] + Divs(doc, lines[n..])
  }

  lemma {:induction false} ParagraphsSnoc(doc: Doc, lines: seq<Line>, line: Line)
    ensures Paragraphs(doc, lines + [line]) == Paragraphs(doc, lines) + [ParagraphOf(doc, line, Inside(doc, line))]
  {
    hide ParagraphOf, Inside;
    if lines == [] {
      assert (lines + [line])[1..] == [];
    } else {
      assert (lines + [line])[1..] == lines[1..] + [line];
      ParagraphsSnoc(doc, lines[1..], line);
    }
  }

  method WriteDiv(doc: Doc, lines: seq<Line>) returns (div: Node)
    requires lines != []
    ensures div == DivOf(doc, lines, Paragraphs(doc, lines))
  {
    hide *;
    var ps := [];
    NoParagraphs(doc);
    for i := 0 to |lines|
      invariant ps == Paragraphs(doc, lines[..i])
    {
      var line := lines[i];
      assert lines[..i + 1] == lines[..i] + [line];
      ParagraphsSnoc(doc, lines[..i], line);
      InsideIs(doc, line);
      var inside := Spaces(line.text);
      if doc.timing == ByWord && |line.syllabus| > 0 {
        inside := WriteSyllabus(line.syllabus);
      }
      ps := ps + [ParagraphOf(doc, line, inside)];
    }
    assert lines[..|lines|] == lines;
    div := DivOf(doc, lines, ps);
  }

  lemma NoParagraphs(doc: Doc)
    ensures Paragraphs(doc, []) == []
  {
  }

  lemma InsideIs(doc: Doc, line: Line)
    ensures Inside(doc, line)
         == if doc.timing == ByWord && |line.syllabus| > 0 then Paragraph(line.syllabus) else Spaces(line.text)
  {
  }

  /** All lines of a group have the key of its first line. */
  ghost predicate Together(doc: Doc, group: seq<Line>) {
    forall k | 0 <= k < |group| :: KeyOf(doc, group[k]) == KeyOf(doc, group[0])
  }

  lemma {:induction false} GroupRunIs(doc: Doc, group: seq<Line>, rest: seq<Line>)
    requires group != [] && Together(doc, group)
    requires rest != [] ==> KeyOf(doc, rest[0]) != KeyOf(doc, group[0])
    ensures PartRun(doc, group + rest) == |group|
  {
    var all := group + rest;
    assert all[0] == group[0];
    hide KeyOf;
    if |group| == 1 {
      assert rest != [] ==> all[1] == rest[0];
    } else {
      assert all[1] == group[1] && all[1..] == group[1..] + rest;
      assert forall k | 0 <= k < |group[1..]| :: group[1..][k] == group[k + 1];
      GroupRunIs(doc, group[1..], rest);
    }
  }

  lemma {:induction false} FlushGroup(doc: Doc, group: seq<Line>, rest: seq<Line>)
    requires group != [] && Together(doc, group)
    requires rest != [] ==> KeyOf(doc, rest[0]) != KeyOf(doc, group[0])
    ensures Divs(doc, group + rest) == [DivOf(doc, group, Paragraphs(doc, group))] + Divs(doc, rest)
  {
    GroupRunIs(doc, group, rest);
    assert (group + rest)[..|group|] == group && (group + rest)[|group|..] == rest;
    hide KeyOf, DivOf, Paragraphs, PartRun, Together;
  }

  /** Takes in one more line; `rest` are the lines still to come. */
  method AddLine(doc: Doc, divs: seq<Node>, current: seq<Line>, line: Line, ghost rest: seq<Line>)
    returns (more: seq<Node>, next: seq<Line>)
    requires Together(doc, current)
    ensures next != [] && Together(doc, next)
    ensures more + Divs(doc, next + rest) == divs + Divs(doc, current + ([line] + rest))
  {
    hide *;
    more, next := divs, current;
    assert current + ([line] + rest) == current + [line] + rest;
    if |current| > 0 && KeyOf(doc, line) != KeyOf(doc, current[0]) {
      FlushGroup(doc, current, [line] + rest);
      var div := WriteDiv(doc, current);
      more := divs + [div];
      next := [];
      NoDivs(doc);
      assert next + [line] + rest == [line] + rest;
    }
    TogetherSnoc(doc, next, line);
    next := next + [line];
  }

  /** The duration of the whole song, as stated or from the last line. */
  function TotalDuration(stated: string, lines: seq<Line>): string {
    if stated != "" then stated
    else if lines == [] then "00:00.000"
    else var last := lines[|lines| - 1]; FormatTime(last.time + last.duration)
  }

  /** The body of a document. */
  function BodyOf(doc: Doc, stated: string, lines: seq<Line>): Node {
    Elem("body", map["dur" := TotalDuration(stated, lines)], Divs(doc, lines))
  }

  /** Writes the body: lines are collected until one belongs to another part. */
  method WriteBody(timing: Timing, entries: seq<Part>, capitalize: string -> string, agentId: string -> string,
                   stated: string, lines: seq<Line>)
    returns (body: Node)
    ensures body == BodyOf(Doc(timing, entries, SomeIndexed(lines), capitalize, agentId), stated, lines)
  {
    var doc := Doc(timing, entries, SomeIndexed(lines), capitalize, agentId);
    hide Divs, TotalDuration, KeyOf, DivOf, Paragraphs, Together;
    var divs: seq<Node> := [];
    NoDivs(doc);
    if |lines| > 0 {
      var current: seq<Line> := [];
      assert current + lines[0..] == lines;
      for i := 0 to |lines|
        invariant i > 0 ==> current != []
        invariant Together(doc, current)
        invariant divs + Divs(doc, current + lines[i..]) == Divs(doc, lines)
      {
        assert lines[i..] == [lines[i]] + lines[i + 1..];
        divs, current := AddLine(doc, divs, current, lines[i], lines[i + 1..]);
      }
      assert lines[|lines|..] == [];
      FlushGroup(doc, current, []);
      var div := WriteDiv(doc, current);
      divs := divs + [div];
    }
    body := Elem("body", map["dur" := TotalDuration(stated, lines)], divs);
  }

  lemma TogetherSnoc(doc: Doc, group: seq<Line>, line: Line)
    requires Together(doc, group) && (group != [] ==> KeyOf(doc, line) == KeyOf(doc, group[0]))
    ensures Together(doc, group + [line])
  {
    hide KeyOf;
  }

  lemma NoDivs(doc: Doc)
    ensures Divs(doc, []) == [] && Together(doc, [])
  {
  }

  // ---- reading a body ----

  ghost predicate Elems(nodes: seq<Node>) { forall i | 0 <= i < |nodes| :: nodes[i].Elem? }

  lemma {:induction false} DescendantsAreElems(nodes: seq<Node>, name: string)
    ensures Elems(Descendants(nodes, name))
    decreases nodes
  {
    if nodes != [] {
      if nodes[0].Elem? { DescendantsAreElems(nodes[0].children, name); }
      DescendantsAreElems(nodes[1..], name);
    }
  }

  function ReadParagraphs(c: Reader, ps: seq<Node>, index: int): seq<Line>
    requires Elems(ps)
  {
    if ps == [] then []
    else (match Reading(c, ps[0], index) case None => [] case Some(line) => [line]) + ReadParagraphs(c, ps[1..], index)
  }

  /** Every line gets the number of its division as song part index. */
  function ReadDivs(c: Reader, divs: seq<Node>, index: int): seq<Line>
    requires Elems(divs)
  {
    if divs == [] then []
    else
      DescendantsAreElems(divs[0].children, "p");
      ReadParagraphs(c, Descendants(divs[0].children, "p"), index) + ReadDivs(c, divs[1..], index + 1)
  }

  /** The divisions of a body, or the body itself when it has none. */
  function DivsIn(body: Node): (divs: seq<Node>)
    requires body.Elem?
    ensures Elems(divs)
  {
    DescendantsAreElems(body.children, "div");
    var divs := Descendants(body.children, "div");
    if divs == [] then [body] else divs
  }

  function Decimal(n: int): string { if n < 0 then "-" + Padded(-n, 1) else Padded(n, 1) }

  /** Time and duration of a division; what it does not state is taken from its first and last paragraph. */
  function PartSpan(f: Float, div: Node, ps: seq<Node>): (int, int) {
    var begin := if Attr(div, "begin") == "" && ps != [] then Attr(ps[0], "begin") else Attr(div, "begin");
    var time := TimeToMs(f, begin);
    var (end, dur) :=
      if Attr(div, "end") == "" && Attr(div, "dur") == "" && ps != [] then
        var last := ps[|ps| - 1];
        (Attr(last, "end"),
         if Attr(last, "end") == "" && Attr(last, "dur") != "" && Attr(last, "begin") != ""
         then Decimal(TimeToMs(f, Attr(last, "begin")) + TimeToMs(f, Attr(last, "dur")) - time) + "ms" else "")
      else (Attr(div, "end"), Attr(div, "dur"));
    var d := if dur != "" then TimeToMs(f, dur) else if end != "" then TimeToMs(f, end) - time else 0;
    (time, if d < 0 then 0 else d)
  }

  function ReadPart(f: Float, div: Node, index: int): Part
    requires div.Elem?
  {
    var (time, duration) := PartSpan(f, div, Descendants(div.children, "p"));
    var name := if Attr(div, "song-part") == "" then Attr(div, "songPart") else Attr(div, "song-part");
    Part(name, Some(time), Some(duration), Some(index))
  }

  function ReadParts(f: Float, divs: seq<Node>, index: int): seq<Part>
    requires Elems(divs)
  {
    if divs == [] then [] else [ReadPart(f, divs[0], index)] + ReadParts(f, divs[1..], index + 1)
  }

  method ReadDiv(c: Reader, ps: seq<Node>, index: int) returns (lyrics: seq<Line>)
    requires Elems(ps)
    ensures lyrics == ReadParagraphs(c, ps, index)
  {
    hide *;
    lyrics := [];
    assert ps[0..] == ps;
    for j := 0 to |ps|
      invariant Elems(ps[j..]) && lyrics + ReadParagraphs(c, ps[j..], index) == ReadParagraphs(c, ps, index)
    {
      ParagraphsStep(c, ps, index, j);
      var read := Reading(c, ps[j], index);
      if read.Some? {
        lyrics := lyrics + [read.value];
      }
    }
    NothingLeft(c, ps[|ps|..], index);
  }

  /** The lines and the parts of a body, division after division. */
  method ReadBody(c: Reader, body: Node) returns (lyrics: seq<Line>, entries: seq<Part>)
    requires body.Elem?
    ensures lyrics == ReadDivs(c, DivsIn(body), 0)
    ensures entries == ReadParts(c.f, DivsIn(body), 0)
  {
    hide *;
    var divs := DivsIn(body);
    lyrics, entries := [], [];
    assert divs[0..] == divs;
    for i := 0 to |divs|
      invariant Elems(divs[i..]) && lyrics + ReadDivs(c, divs[i..], i) == ReadDivs(c, divs, 0)
      invariant entries + ReadParts(c.f, divs[i..], i) == ReadParts(c.f, divs, 0)
    {
      DivsStep(c, divs, i);
      var some := ReadDiv(c, Descendants(divs[i].children, "p"), i);
      entries := entries + [ReadPart(c.f, divs[i], i)];
      lyrics := lyrics + some;
    }
    NothingMore(c, divs[|divs|..], |divs|);
  }

  lemma DivsStep(c: Reader, divs: seq<Node>, i: nat)
    requires i < |divs| && Elems(divs[i..])
    ensures divs[i].Elem? && Elems(divs[i + 1..]) && Elems(Descendants(divs[i].children, "p"))
    ensures ReadDivs(c, divs[i..], i)
         == ReadParagraphs(c, Descendants(divs[i].children, "p"), i) + ReadDivs(c, divs[i + 1..], i + 1)
    ensures ReadParts(c.f, divs[i..], i) == [ReadPart(c.f, divs[i], i)] + ReadParts(c.f, divs[i + 1..], i + 1)
  {
    var here := divs[i..];
    assert here[0] == divs[i] && here[1..] == divs[i + 1..];
    DescendantsAreElems(divs[i].children, "p");
    hide Descendants, ReadParagraphs, ReadPart;
  }

  lemma ParagraphsStep(c: Reader, ps: seq<Node>, index: int, j: nat)
    requires j < |ps| && Elems(ps[j..])
    ensures ps[j].Elem? && Elems(ps[j + 1..])
    ensures ReadParagraphs(c, ps[j..], index)
         == (match Reading(c, ps[j], index) case None => [] case Some(line) => [line])
            + ReadParagraphs(c, ps[j + 1..], index)
  {
    var here := ps[j..];
    assert here[0] == ps[j] && here[1..] == ps[j + 1..];
    hide Reading;
  }

  lemma NothingLeft(c: Reader, ps: seq<Node>, index: int)
    requires ps == []
    ensures Elems(ps) && ReadParagraphs(c, ps, index) == []
  {
  }

  lemma NothingMore(c: Reader, divs: seq<Node>, index: int)
    requires divs == []
    ensures Elems(divs) && ReadDivs(c, divs, index) == [] && ReadParts(c.f, divs, index) == []
  {
  }
}
