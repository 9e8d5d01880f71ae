/** What survives being written to TTML and read back (internal/parsers/ttml.go). */
module TtmlRoundTrip {

  import opened Wrappers
  import opened Unicode
  import opened TtmlTime
  import opened Ttml

  function Pre(s: Syllable): string { s.text[..Lead(s.text)] }

  function Post(s: Syllable): string {
    var rest := s.text[Lead(s.text)..];
    rest[TrailStart(rest)..]
  }

  lemma ThreePieces(t: string, n: nat, k: nat)
    requires n <= |t| && k <= |t| - n
    ensures t[..n] + t[n..][..k] + t[n..][k..] == t
  {
  }

  lemma CoreFirst(t: string)
    ensures TrailStart(t[Lead(t)..]) == 0 ==> Lead(t) == |t|
  {
    var rest := t[Lead(t)..];
    if rest != "" { assert rest[0..][0] == rest[0] == t[Lead(t)]; }
  }

  lemma PreCorePost(s: Syllable)
    ensures Pre(s) + Trim(s.text) + Post(s) == s.text
    ensures Trim(s.text) == "" ==> Post(s) == ""
    ensures Pre(s) == "" <==> s.text == "" || !IsSpace(s.text[0])
  {
    CoreFirst(s.text);
    hide TrailStart, IsSpace, Blank;
    ThreePieces(s.text, Lead(s.text), TrailStart(s.text[Lead(s.text)..]));
  }

  lemma StampNotEmpty(ms: int)
    ensures FormatTime(ms) != ""
  {
  }

  lemma MarkedIs(s: Syllable)
    ensures Marked(s) == Spaces(Pre(s)) + ([SpanOf(s)] + Spaces(Post(s)))
  {
    hide Lead, TrailStart, Spaces, SpanOf;
  }

  /** A written syllable is seen as one timed span; its leading white space belongs to what came before. */
  lemma {:induction false} MarkedReads(s: Syllable, more: seq<Node>, inBg: bool)
    ensures TimedSpans(Marked(s) + more, inBg) == [Span(SpanOf(s), Post(s) + Tail(more), inBg)] + TimedSpans(more, inBg)
    ensures Tail(Marked(s) + more) == Pre(s)
  {
    hide *;
    MarkedIs(s);
    var behind := Spaces(Post(s)) + more;
    var one := [SpanOf(s)] + behind;
    assert Marked(s) + more == Spaces(Pre(s)) + one;
    assert one[1..] == behind && one[0] == SpanOf(s);
    SpacesRead(Pre(s), one, inBg);
    SpacesRead(Post(s), more, inBg);
    SpanReads(s, one, inBg);
  }

  lemma {:induction false} SpacesRead(text: string, more: seq<Node>, inBg: bool)
    ensures TimedSpans(Spaces(text) + more, inBg) == TimedSpans(more, inBg)
    ensures Tail(Spaces(text) + more) == text + Tail(more)
  {
    if text == "" {
      assert Spaces(text) + more == more;
    } else {
      assert (Spaces(text) + more)[1..] == more;
    }
  }

  lemma SpanOfIs(s: Syllable)
    ensures var n := SpanOf(s);
            && n.Elem? && n.name == "span" && Attr(n, "begin") == FormatTime(s.time) && Attr(n, "begin") != ""
            && Attr(n, "end") == FormatTime(s.time + s.duration) && Attr(n, "end") != "" && Attr(n, "dur") == ""
            && DirectText(n.children) == Trim(s.text) && OneText(n.children)
  {
    StampNotEmpty(s.time);
    StampNotEmpty(s.time + s.duration);
    hide FormatTime, Trim;
    var n, core := SpanOf(s), Trim(s.text);
    if core != "" { assert n.children[1..] == []; }
  }

  predicate OneText(nodes: seq<Node>) { nodes == [] || (|nodes| == 1 && nodes[0].Text?) }

  lemma {:induction false} SpanReads(s: Syllable, nodes: seq<Node>, inBg: bool)
    requires nodes != [] && nodes[0] == SpanOf(s)
    ensures TimedSpans(nodes, inBg) == [Span(SpanOf(s), Tail(nodes[1..]), inBg)] + TimedSpans(nodes[1..], inBg)
    ensures Tail(nodes) == ""
  {
    hide *;
    SpanOfIs(s);
    LeafReads(nodes, inBg);
  }

  lemma {:induction false} LeafReads(nodes: seq<Node>, inBg: bool)
    requires nodes != [] && nodes[0].Elem? && nodes[0].name == "span" && Attr(nodes[0], "begin") != ""
    requires OneText(nodes[0].children)
    ensures TimedSpans(nodes, inBg) == [Span(nodes[0], Tail(nodes[1..]), inBg)] + TimedSpans(nodes[1..], inBg)
    ensures Tail(nodes) == ""
  {
    hide Attr;
    TextsHoldNone(nodes[0].children, inBg || Attr(nodes[0], "role") == "x-bg");
  }

  lemma TextsHoldNone(nodes: seq<Node>, inBg: bool)
    requires OneText(nodes)
    ensures TimedSpans(nodes, inBg) == []
  {
    if |nodes| == 1 { assert TimedSpans(nodes[1..], inBg) == []; }
  }

  lemma {:induction false} WrapperReads(inner: seq<Node>, more: seq<Node>)
    ensures TimedSpans([Wrapper(inner)] + more, false) == TimedSpans(inner, true) + TimedSpans(more, false)
    ensures Tail([Wrapper(inner)] + more) == ""
  {
    var nodes := [Wrapper(inner)] + more;
    assert nodes[1..] == more;
    assert Attr(nodes[0], "begin") == "" && Attr(nodes[0], "role") == "x-bg";
  }

  /** The white space that ends up behind a syllable besides its own: what the next one starts with. */
  function Borrowed(s: Syllable, rest: seq<Syllable>): string {
    if rest != [] && rest[0].isBackground == s.isBackground then Pre(rest[0]) else ""
  }

  /** What the reader sees of the written syllables. */
  function Seen(syllabus: seq<Syllable>): seq<Span> {
    if syllabus == [] then []
    else
      var s, rest := syllabus[0], syllabus[1..];
      [Span(SpanOf(s), Post(s) + Borrowed(s, rest), s.isBackground)] + Seen(rest)
  }

  lemma {:induction false} RunSeen(run: seq<Syllable>)
    requires forall i | 0 <= i < |run| :: run[i].isBackground
    ensures TimedSpans(MarkedAll(run), true) == Seen(run)
    ensures Tail(MarkedAll(run)) == if run == [] then "" else Pre(run[0])
  {
    if run != [] {
      hide SpanOf, Marked, Pre, Post;
      RunSeen(run[1..]);
      MarkedReads(run[0], MarkedAll(run[1..]), true);
    }
  }

  lemma SeenStep(s: Syllable, rest: seq<Syllable>)
    ensures Seen([s] + rest) == [Span(SpanOf(s), Post(s) + Borrowed(s, rest), s.isBackground)] + Seen(rest)
  {
    assert ([s] + rest)[1..] == rest;
    hide SpanOf, Post, Borrowed;
  }

  lemma BorrowedInRun(s: Syllable, run: seq<Syllable>, rest: seq<Syllable>)
    requires s.isBackground && (rest == [] || !rest[0].isBackground)
    ensures Borrowed(s, run + rest) == Borrowed(s, run)
  {
    if run == [] { assert run + rest == rest; } else { assert (run + rest)[0] == run[0]; }
  }

  lemma SeenAppendStep(s: Syllable, run: seq<Syllable>, rest: seq<Syllable>)
    requires s.isBackground && (rest == [] || !rest[0].isBackground)
    requires Seen(run + rest) == Seen(run) + Seen(rest)
    ensures Seen([s] + run + rest) == Seen([s] + run) + Seen(rest)
  {
    hide *;
    BorrowedInRun(s, run, rest);
    SeenStep(s, run);
    SeenStep(s, run + rest);
    var h, a, b := Span(SpanOf(s), Post(s) + Borrowed(s, run), s.isBackground), Seen(run), Seen(rest);
    assert [s] + run + rest == [s] + (run + rest);
    assert [h] + (a + b) == [h] + a + b;
  }

  /** A run of background syllables does not lend its white space to what follows. */
  lemma {:induction false} SeenAppend(run: seq<Syllable>, rest: seq<Syllable>)
    requires forall i | 0 <= i < |run| :: run[i].isBackground
    requires rest == [] || !rest[0].isBackground
    ensures Seen(run + rest) == Seen(run) + Seen(rest)
  {
    if run == [] {
      assert run + rest == rest && Seen(run) == [];
      hide *;
    } else {
      var s, others := run[0], run[1..];
      assert run == [s] + others && forall i | 0 <= i < |others| :: others[i].isBackground;
      hide *;
      SeenAppend(others, rest);
      SeenAppendStep(s, others, rest);
    }
  }

  lemma NothingSeen()
    ensures Paragraph([]) == [] && TimedSpans([], false) == [] && Seen([]) == [] && Tail([]) == ""
  {
  }

  lemma BorrowedIs(s: Syllable, rest: seq<Syllable>)
    ensures Borrowed(s, rest) == if rest != [] && rest[0].isBackground == s.isBackground then Pre(rest[0]) else ""
  {
    hide Pre;
  }

  lemma BackgroundFirst(syllabus: seq<Syllable>)
    requires syllabus != [] && syllabus[0].isBackground
    ensures var n := BackgroundRun(syllabus);
            n > 0 && Paragraph(syllabus) == [Wrapper(MarkedAll(syllabus[..n]))] + Paragraph(syllabus[n..])
  {
    hide Wrapper, MarkedAll;
  }

  /** What is read of a written line: each syllable once, inside or outside a wrapper as it was. */
  lemma {:induction false} ParagraphSeen(syllabus: seq<Syllable>)
    ensures TimedSpans(Paragraph(syllabus), false) == Seen(syllabus)
    ensures Tail(Paragraph(syllabus)) == if syllabus == [] || syllabus[0].isBackground then "" else Pre(syllabus[0])
    decreases |syllabus|
  {
    hide *;
    if syllabus == [] {
      NothingSeen();
    } else if !syllabus[0].isBackground {
      var s, rest := syllabus[0], syllabus[1..];
      assert syllabus == [s] + rest;
      ParagraphSeen(rest);
      ForegroundFirst(syllabus);
      MarkedReads(s, Paragraph(rest), false);
      SeenStep(s, rest);
      BorrowedIs(s, rest);
    } else {
      var n := BackgroundRun(syllabus);
      var run, rest := syllabus[..n], syllabus[n..];
      BackgroundFirst(syllabus);
      ParagraphSeen(rest);
      RunSeen(run);
      WrapperReads(MarkedAll(run), Paragraph(rest));
      SeenAppend(run, rest);
      assert run + rest == syllabus;
    }
  }

  lemma {:induction false} SeenAreElems(syllabus: seq<Syllable>)
    ensures AllElems(Seen(syllabus)) && |Seen(syllabus)| == |syllabus|
  {
    hide Post, Borrowed, FormatTime, Trim;
    if syllabus != [] { SeenAreElems(syllabus[1..]); }
  }

  // ---- which syllables come back ----

  /** Syllables that come back as they were: at a time, and starting with something visible. */
  predicate Kept(s: Syllable) {
    s.time >= 0 && s.duration >= 0 && s.text != "" && !IsSpace(s.text[0])
  }

  function ClampZero(n: int): int { if n < 0 then 0 else n }

  /** The times a written element is read with. */
  lemma {:induction false} TimesRead(f: Float, n: Node, time: int, duration: int)
    requires ReadsDecimals(f) && n.Elem? && Attr(n, "begin") == FormatTime(time)
    requires Attr(n, "end") == FormatTime(time + duration) && Attr(n, "end") != "" && Attr(n, "dur") == ""
    ensures TimeToMs(f, Attr(n, "begin")) == ClampZero(time)
    ensures StatedDuration(f, n, ClampZero(time)) == ClampZero(ClampZero(time + duration) - ClampZero(time))
  {
    TimeRoundTrip(f, time);
    TimeRoundTrip(f, time + duration);
    hide FormatTime, TimeToMs, ReadsDecimals, Attr;
  }

  lemma {:induction false} SpanMeans(f: Float, s: Syllable, tail: string, isBg: bool)
    requires ReadsDecimals(f)
    ensures SpanOf(s).Elem?
    ensures var text := Trim(s.text) + tail;
            ReadSpan(f, Span(SpanOf(s), tail, isBg))
            == if Trim(text) == "" && (tail == "" || ' ' !in tail) then None
               else Some(Syllable(ClampZero(s.time), ClampZero(ClampZero(s.time + s.duration) - ClampZero(s.time)),
                                  text, isBg))
  {
    hide *;
    SpanOfIs(s);
    TimesRead(f, SpanOf(s), s.time, s.duration);
    ReadSpanIs(f, Span(SpanOf(s), tail, isBg));
  }

  lemma ReadSpanIs(f: Float, sp: Span)
    requires sp.node.Elem?
    ensures var begin, text := TimeToMs(f, Attr(sp.node, "begin")), DirectText(sp.node.children) + sp.tail;
            ReadSpan(f, sp) == if Trim(text) == "" && (sp.tail == "" || ' ' !in sp.tail) then None
                               else Some(Syllable(begin, StatedDuration(f, sp.node, begin), text, sp.isBg))
  {
    hide Trim, DirectText, StatedDuration, TimeToMs, Attr;
  }

  /** One syllable comes back, given that nothing is borrowed, exactly when it is one that is kept. */
  lemma {:induction false} OneComesBack(f: Float, s: Syllable)
    requires ReadsDecimals(f)
    ensures SpanOf(s).Elem?
    ensures ReadSpan(f, Span(SpanOf(s), Post(s), s.isBackground)) == Some(s) <==> Kept(s)
  {
    hide *;
    SpanMeans(f, s, Post(s), s.isBackground);
    TextComesBack(s);
    KeptIs(s);
    assert forall b :: Syllable(s.time, s.duration, s.text, b) == s <==> b == s.isBackground;
  }

  lemma KeptIs(s: Syllable)
    ensures Kept(s) <==> (s.text != "" && !IsSpace(s.text[0]) && ClampZero(s.time) == s.time
                          && ClampZero(ClampZero(s.time + s.duration) - ClampZero(s.time)) == s.duration)
  {
    hide IsSpace;
  }

  lemma {:induction false} TextComesBack(s: Syllable)
    ensures var text := Trim(s.text) + Post(s);
            text == s.text && !(Trim(text) == "" && (Post(s) == "" || ' ' !in Post(s)))
            <==> s.text != "" && !IsSpace(s.text[0])
  {
    PreCorePost(s);
    TrimIs(s.text);
    var core, post, pre := Trim(s.text), Post(s), Pre(s);
    hide Trim, Post, Pre, IsSpace;
    if pre == "" {
      assert pre + core + post == core + post;
    } else {
      assert |core + post| < |s.text|;
    }
    if s.text != "" && pre == "" { assert !Blank(s.text); }
  }

  lemma {:induction false} ReadsAtMost(f: Float, spans: seq<Span>)
    requires AllElems(spans)
    ensures |ReadSpans(f, spans)| <= |spans|
  {
    hide ReadSpan;
    if spans != [] { ReadsAtMost(f, spans[1..]); }
  }

  /** The syllables of a line come back exactly when every one of them is kept. */
  lemma {:induction false} SyllabusRoundTrip(f: Float, syllabus: seq<Syllable>)
    requires ReadsDecimals(f)
    ensures AllElems(Seen(syllabus))
    ensures ReadSpans(f, Seen(syllabus)) == syllabus <==> AllKept(syllabus)
  {
    hide *;
    SeenAreElems(syllabus);
    if syllabus == [] {
      EmptyRoundTrip(f);
    } else {
      assert syllabus == [syllabus[0]] + syllabus[1..];
      SyllabusRoundTrip(f, syllabus[1..]);
      SyllabusStep(f, syllabus[0], syllabus[1..]);
    }
  }

  lemma EmptyRoundTrip(f: Float)
    ensures Seen([]) == [] && ReadSpans(f, []) == [] && AllKept([])
  {
  }

  lemma {:induction false} SyllabusStep(f: Float, s: Syllable, rest: seq<Syllable>)
    requires ReadsDecimals(f) && AllElems(Seen(rest)) && AllElems(Seen([s] + rest))
    requires ReadSpans(f, Seen(rest)) == rest <==> AllKept(rest)
    ensures ReadSpans(f, Seen([s] + rest)) == [s] + rest <==> AllKept([s] + rest)
  {
    hide *;
    SeenAreElems(rest);
    SeenAreElems([s] + rest);
    SeenStep(s, rest);
    KeptStep(s, rest);
    SpanOfIs(s);
    OneComesBack(f, s);
    var head := Span(SpanOf(s), Post(s) + Borrowed(s, rest), s.isBackground);
    HeadAndRest(f, head, Seen(rest), s, rest);
    if AllKept(rest) {
      NothingBorrowed(s, rest);
      assert Post(s) + "" == Post(s);
    }
  }

  predicate AllKept(syllabus: seq<Syllable>) { forall i | 0 <= i < |syllabus| :: Kept(syllabus[i]) }

  lemma KeptStep(s: Syllable, rest: seq<Syllable>)
    ensures AllKept([s] + rest) <==> Kept(s) && AllKept(rest)
  {
    hide Kept;
    if AllKept([s] + rest) {
      assert ([s] + rest)[0] == s;
      forall i | 0 <= i < |rest| ensures Kept(rest[i]) { assert rest[i] == ([s] + rest)[i + 1]; }
    }
  }

  lemma NothingBorrowed(s: Syllable, rest: seq<Syllable>)
    requires AllKept(rest)
    ensures Borrowed(s, rest) == ""
  {
    if rest != [] { PreCorePost(rest[0]); }
  }

  lemma HeadAndRest(f: Float, head: Span, spans: seq<Span>, s: Syllable, rest: seq<Syllable>)
    requires head.node.Elem? && AllElems(spans) && AllElems([head] + spans) && |spans| == |rest|
    ensures ReadSpans(f, [head] + spans) == [s] + rest
       <==> (ReadSpan(f, head) == Some(s) && ReadSpans(f, spans) == rest)
  {
    ReadsAtMost(f, spans);
    assert ([head] + spans)[0] == head && ([head] + spans)[1..] == spans;
    hide ReadSpan;
    var more := ReadSpans(f, spans);
    match ReadSpan(f, head) {
      case None =>
      case Some(x) =>
        assert ReadSpans(f, [head] + spans) == [x] + more;
        assert ([x] + more)[0] == x && ([x] + more)[1..] == more;
        assert ([s] + rest)[0] == s && ([s] + rest)[1..] == rest;
    }
  }

  // ---- lines ----

  /** The timing a document is read with. */
  function ReadAs(t: Timing): Timing { if t == BySyllable then ByWord else t }

  /** Documents and readers that fit together: time stamps are read exactly, and the timing is the one written. */
  ghost predicate Fits(doc: Doc, c: Reader) { ReadsDecimals(c.f) && c.timing == ReadAs(doc.timing) }

  predicate SingerKept(doc: Doc, singer: string) { Voice(AgentOf(doc, singer)) == singer }

  predicate TimesKept(doc: Doc, l: Line) {
    if doc.timing == NoTiming then l.time == 0 && l.duration == 0 else l.time >= 0 && l.duration >= 0
  }

  predicate TextKept(l: Line) { l.syllabus == [] && l.text != "" && Trimmed(l.text) }

  /** A line at time 0 without a duration takes its times from its syllables when it is read. */
  predicate SyllablesKept(l: Line) {
    && l.syllabus != [] && AllKept(l.syllabus)
    && (l.time == 0 && l.duration == 0 ==>
          l.syllabus[0].time == 0
          && l.syllabus[|l.syllabus| - 1].time + l.syllabus[|l.syllabus| - 1].duration == 0)
  }

  /** Lines that come back: of a singer and at a time that come back, and with a text or, timed by word, syllables that
      do. */
  predicate LineKept(doc: Doc, l: Line) {
    && SingerKept(doc, l.singer) && TimesKept(doc, l)
    && (TextKept(l) || (doc.timing == ByWord && SyllablesKept(l)))
  }

  /** The same line, up to its part; the text only counts when there are no syllables. */
  predicate SameLine(l: Line, r: Line) {
    && l.time == r.time && l.duration == r.duration && l.syllabus == r.syllabus && l.key == r.key
    && l.singer == r.singer && (l.syllabus == [] ==> l.text == r.text)
  }

  /** What a line that comes back comes back as. */
  function Returned(c: Reader, l: Line, index: int): Line {
    Line(l.time, l.duration, if l.syllabus == [] then l.text else JoinTexts(l.syllabus), l.syllabus, l.key, Some(index),
         "", l.singer, Lookup(c.translations, l.key), Lookup(c.transliterations, l.key))
  }

  lemma SpacesAreText(text: string)
    ensures TimedSpans(Spaces(text), false) == [] && TextContent(Spaces(text)) == text
  {
    if text != "" {
      assert TimedSpans(Spaces(text)[1..], false) == [] && TextContent(Spaces(text)[1..]) == "";
    }
  }

  lemma ParagraphIs(doc: Doc, line: Line, children: seq<Node>)
    ensures var p := ParagraphOf(doc, line, children);
            && p.Elem? && p.children == children && Attr(p, "begin") == FormatTime(line.time) && Attr(p, "begin") != ""
            && Attr(p, "end") == FormatTime(line.time + line.duration) && Attr(p, "end") != "" && Attr(p, "dur") == ""
            && Attr(p, "key") == line.key && Attr(p, "agent") == AgentOf(doc, line.singer)
  {
    StampNotEmpty(line.time);
    StampNotEmpty(line.time + line.duration);
    hide FormatTime, AgentOf;
  }

  /** Reading a paragraph, once its attributes and spans are known. */
  lemma ReadingIs(c: Reader, p: Node, index: int, time: int, duration: int, spans: seq<Span>)
    requires p.Elem? && Attr(p, "begin") != "" && time == TimeToMs(c.f, Attr(p, "begin"))
    requires duration == StatedDuration(c.f, p, time) && AllElems(spans)
    requires spans == if c.timing == ByWord then TimedSpans(p.children, false) else []
    ensures var syllabus := ReadSpans(c.f, spans);
            Reading(c, p, index)
            == if spans == [] then
                 if Trim(TextContent(p.children)) == "" then None
                 else Some(Untimed(c, p, index, time, duration, Trim(TextContent(p.children))))
               else if syllabus == [] then None
               else Some(Timed(c, p, index, time, duration, syllabus))
  {
    hide TimeToMs, StatedDuration, TimedSpans, ReadSpans, Trim, TextContent, Attr, LineRead;
  }

  function Untimed(c: Reader, p: Node, index: int, time: int, duration: int, text: string): Line {
    if c.timing == NoTiming then LineRead(c, p, index, 0, 0, text, [])
    else LineRead(c, p, index, time, duration, text, [])
  }

  function Timed(c: Reader, p: Node, index: int, time: int, duration: int, syllabus: seq<Syllable>): Line
    requires syllabus != []
  {
    var first, last := syllabus[0], syllabus[|syllabus| - 1];
    if time == 0 && duration == 0 then
      LineRead(c, p, index, first.time, ClampZero(last.time + last.duration - first.time), JoinTexts(syllabus),
               syllabus)
    else LineRead(c, p, index, time, duration, JoinTexts(syllabus), syllabus)
  }

  /** What a line comes back as, if anything, is itself, up to its part, exactly when it is one that is kept. */
  ghost predicate BackExactly(doc: Doc, c: Reader, l: Line, r: Option<Line>, index: int) {
    && (r.Some? && SameLine(l, r.value) <==> LineKept(doc, l))
    && (LineKept(doc, l) ==> r == Some(Returned(c, l, index)))
    && (r.Some? ==> r.value.index == Some(index))
  }

  /** A line comes back exactly when it is one that is kept. */
  lemma {:induction false} LineRoundTrip(doc: Doc, c: Reader, l: Line, index: int)
    requires Fits(doc, c)
    ensures ParagraphOf(doc, l, Inside(doc, l)).Elem?
    ensures BackExactly(doc, c, l, Reading(c, ParagraphOf(doc, l, Inside(doc, l)), index), index)
  {
    hide *;
    FitsMeans(doc, c);
    var p := ParagraphOf(doc, l, Inside(doc, l));
    ParagraphIs(doc, l, Inside(doc, l));
    TimesRead(c.f, p, l.time, l.duration);
    InsideIs(doc, l);
    var time, duration := ClampZero(l.time), ClampZero(ClampZero(l.time + l.duration) - ClampZero(l.time));
    if doc.timing == ByWord && l.syllabus != [] {
      ParagraphSeen(l.syllabus);
      SyllabusRoundTrip(c.f, l.syllabus);
      SeenAreElems(l.syllabus);
      ReadingIs(c, p, index, time, duration, Seen(l.syllabus));
      WordLine(doc, c, p, l, ReadSpans(c.f, Seen(l.syllabus)), index);
    } else {
      SpacesAreText(l.text);
      TimedAreElems([], false);
      NoElems();
      ReadingIs(c, p, index, time, duration, []);
      TextLine(doc, c, p, l, index);
    }
  }

  lemma FitsMeans(doc: Doc, c: Reader)
    requires Fits(doc, c)
    ensures ReadsDecimals(c.f) && (doc.timing == ByWord ==> c.timing == ByWord)
    ensures doc.timing == NoTiming <==> c.timing == NoTiming
  {
    hide ReadsDecimals;
  }

  /** A line at zero whose first syllable comes later does not come back. */
  lemma LineAtZeroMoves(doc: Doc, c: Reader)
    requires Fits(doc, c) && doc.timing == ByWord
    ensures var l := Line(0, 0, "", [Syllable(1000, 500, "la", false)], "", None, "", "", None, None);
            var r := Reading(c, ParagraphOf(doc, l, Inside(doc, l)), 0);
            !(r.Some? && SameLine(l, r.value))
  {
    var l := Line(0, 0, "", [Syllable(1000, 500, "la", false)], "", None, "", "", None, None);
    assert !LineKept(doc, l);
    NotBack(doc, c, l);
  }

  /** The syllables of a response of type syllable are not written. */
  lemma SyllablesNotWritten(doc: Doc, c: Reader)
    requires Fits(doc, c) && doc.timing == BySyllable
    ensures var l := Line(0, 500, "la", [Syllable(0, 500, "la", false)], "", None, "", "", None, None);
            var r := Reading(c, ParagraphOf(doc, l, Inside(doc, l)), 0);
            !(r.Some? && SameLine(l, r.value))
  {
    var l := Line(0, 500, "la", [Syllable(0, 500, "la", false)], "", None, "", "", None, None);
    assert !LineKept(doc, l);
    NotBack(doc, c, l);
  }

  lemma NotBack(doc: Doc, c: Reader, l: Line)
    requires Fits(doc, c) && !LineKept(doc, l)
    ensures ParagraphOf(doc, l, Inside(doc, l)).Elem?
    ensures var r := Reading(c, ParagraphOf(doc, l, Inside(doc, l)), 0); !(r.Some? && SameLine(l, r.value))
  {
    LineRoundTrip(doc, c, l, 0);
    hide Reading, ParagraphOf, Inside, SameLine, LineKept, Fits;
  }

  /** White space in front of a syllable does not stay there. */
  lemma LeadingSpaceMoves(f: Float)
    requires ReadsDecimals(f)
    ensures var syllabus := [Syllable(0, 500, "la", false), Syllable(500, 500, " la", false)];
            AllElems(Seen(syllabus)) && ReadSpans(f, Seen(syllabus)) != syllabus
  {
    var syllabus := [Syllable(0, 500, "la", false), Syllable(500, 500, " la", false)];
    assert !Kept(syllabus[1]);
    assert !AllKept(syllabus);
    hide *;
    SyllabusRoundTrip(f, syllabus);
  }

  lemma NoElems()
    ensures AllElems([])
  {
  }

  lemma SingerReads(doc: Doc, c: Reader, p: Node, l: Line, index: int)
    requires Attr(p, "key") == l.key && Attr(p, "agent") == AgentOf(doc, l.singer)
    ensures forall time, duration, text, syllabus :: LineRead(c, p, index, time, duration, text, syllabus)
              == Line(time, duration, text, syllabus, l.key, Some(index), "", Voice(AgentOf(doc, l.singer)),
                      Lookup(c.translations, l.key), Lookup(c.transliterations, l.key))
  {
    hide Voice, AgentOf, Lookup, Attr;
  }

  lemma TextLine(doc: Doc, c: Reader, p: Node, l: Line, index: int)
    requires doc.timing == NoTiming <==> c.timing == NoTiming
    requires doc.timing == ByWord ==> l.syllabus == []
    requires Attr(p, "key") == l.key && Attr(p, "agent") == AgentOf(doc, l.singer)
    ensures var time, duration := ClampZero(l.time), ClampZero(ClampZero(l.time + l.duration) - ClampZero(l.time));
            var r := if Trim(l.text) == "" then None
                     else Some(Untimed(c, p, index, time, duration, Trim(l.text)));
            BackExactly(doc, c, l, r, index)
  {
    TrimIs(l.text);
    SingerReads(doc, c, p, l, index);
    hide Trim, Trimmed, Blank, AllKept, Voice, AgentOf, Lookup, Attr, JoinTexts, LineRead;
  }

  lemma WordLine(doc: Doc, c: Reader, p: Node, l: Line, read: seq<Syllable>, index: int)
    requires doc.timing == c.timing == ByWord && l.syllabus != [] && (read == l.syllabus <==> AllKept(l.syllabus))
    requires Attr(p, "key") == l.key && Attr(p, "agent") == AgentOf(doc, l.singer)
    ensures var time, duration := ClampZero(l.time), ClampZero(ClampZero(l.time + l.duration) - ClampZero(l.time));
            var r := if read == [] then None else Some(Timed(c, p, index, time, duration, read));
            BackExactly(doc, c, l, r, index)
  {
    if AllKept(l.syllabus) {
      assert Kept(l.syllabus[0]) && Kept(l.syllabus[|l.syllabus| - 1]);
    }
    SingerReads(doc, c, p, l, index);
    hide AllKept, JoinTexts, Trimmed, Voice, AgentOf, Lookup, Attr, LineRead;
  }

  // ---- whole bodies ----

  predicate AllLinesKept(doc: Doc, lines: seq<Line>) { forall k | 0 <= k < |lines| :: LineKept(doc, lines[k]) }

  predicate SameLines(lines: seq<Line>, read: seq<Line>) {
    |lines| == |read| && forall k | 0 <= k < |lines| :: SameLine(lines[k], read[k])
  }

  /** Every line of one division comes back, with the number of the division. */
  predicate GroupBack(c: Reader, lines: seq<Line>, read: seq<Line>, index: int) {
    |read| == |lines| && forall k | 0 <= k < |lines| :: read[k] == Returned(c, lines[k], index)
  }

  lemma {:induction false} SameLinesAppend(a: seq<Line>, b: seq<Line>, x: seq<Line>, y: seq<Line>)
    requires |x| <= |a| && |y| <= |b|
    ensures SameLines(a + b, x + y) <==> SameLines(a, x) && SameLines(b, y)
  {
    hide SameLine;
    if SameLines(a + b, x + y) {
      forall k | 0 <= k < |a| ensures SameLine(a[k], x[k]) { assert (a + b)[k] == a[k] && (x + y)[k] == x[k]; }
      forall k | 0 <= k < |b| ensures SameLine(b[k], y[k]) {
        assert (a + b)[|a| + k] == b[k] && (x + y)[|a| + k] == y[k];
      }
    }
  }

  lemma {:induction false} AllKeptAppend(doc: Doc, a: seq<Line>, b: seq<Line>)
    ensures AllLinesKept(doc, a + b) <==> AllLinesKept(doc, a) && AllLinesKept(doc, b)
  {
    hide LineKept;
    if AllLinesKept(doc, a + b) {
      forall k | 0 <= k < |a| ensures LineKept(doc, a[k]) { assert (a + b)[k] == a[k]; }
      forall k | 0 <= k < |b| ensures LineKept(doc, b[k]) { assert (a + b)[|a| + k] == b[k]; }
    }
  }

  lemma ElemsCons(n: Node, rest: seq<Node>)
    requires n.Elem? && Elems(rest)
    ensures Elems([n] + rest)
  {
  }

  lemma {:induction false} ParagraphsAreElems(doc: Doc, lines: seq<Line>)
    ensures Elems(Paragraphs(doc, lines))
  {
    if lines == [] {
      assert Paragraphs(doc, lines) == [];
    } else {
      hide *;
      var line, rest := lines[0], lines[1..];
      assert lines == [line] + rest;
      ParagraphIs(doc, line, Inside(doc, line));
      ParagraphsAre(doc, line, rest);
      ParagraphsAreElems(doc, rest);
      ElemsCons(ParagraphOf(doc, line, Inside(doc, line)), Paragraphs(doc, rest));
    }
  }

  /** The lines of one division come back exactly when all are kept, all with the number of the division. */
  lemma {:induction false} GroupRoundTrip(doc: Doc, c: Reader, lines: seq<Line>, index: int)
    requires Fits(doc, c)
    ensures Elems(Paragraphs(doc, lines))
    ensures var read := ReadParagraphs(c, Paragraphs(doc, lines), index);
            && |read| <= |lines| && (SameLines(lines, read) <==> AllLinesKept(doc, lines))
            && (AllLinesKept(doc, lines) ==> GroupBack(c, lines, read, index))
  {
    hide *;
    ParagraphsAreElems(doc, lines);
    if lines == [] {
      NoLines(doc, c, index);
    } else {
      var line, rest := lines[0], lines[1..];
      assert lines == [line] + rest;
      var p := ParagraphOf(doc, line, Inside(doc, line));
      ParagraphsAre(doc, line, rest);
      GroupRoundTrip(doc, c, rest, index);
      ParagraphsStep(c, Paragraphs(doc, lines), index, 0);
      assert Paragraphs(doc, lines)[0..] == Paragraphs(doc, lines);
      LineRoundTrip(doc, c, line, index);
      OneMoreLine(doc, c, line, rest, Reading(c, p, index), ReadParagraphs(c, Paragraphs(doc, rest), index), index);
    }
  }

  lemma ParagraphsAre(doc: Doc, line: Line, rest: seq<Line>)
    ensures Paragraphs(doc, [line] + rest) == [ParagraphOf(doc, line, Inside(doc, line))] + Paragraphs(doc, rest)
  {
    assert ([line] + rest)[1..] == rest;
    hide ParagraphOf, Inside;
  }

  lemma NoLines(doc: Doc, c: Reader, index: int)
    ensures Paragraphs(doc, []) == [] && ReadParagraphs(c, [], index) == []
    ensures SameLines([], []) && AllLinesKept(doc, []) && GroupBack(c, [], [], index)
  {
  }

  lemma OneLine(doc: Doc, line: Line, r: Option<Line>)
    ensures SameLines([line], match r case None => [] case Some(x) => [x]) <==> (r.Some? && SameLine(line, r.value))
    ensures AllLinesKept(doc, [line]) <==> LineKept(doc, line)
  {
    hide LineKept, SameLine;
    assert [line][0] == line;
    if r.Some? { assert [r.value][0] == r.value; }
  }

  lemma GroupBackStep(c: Reader, line: Line, rest: seq<Line>, read: seq<Line>, index: int)
    requires GroupBack(c, rest, read, index)
    ensures GroupBack(c, [line] + rest, [Returned(c, line, index)] + read, index)
  {
    hide Returned;
  }

  lemma OneMoreLine(doc: Doc, c: Reader, line: Line, rest: seq<Line>, r: Option<Line>, read: seq<Line>, index: int)
    requires BackExactly(doc, c, line, r, index)
    requires |read| <= |rest| && (SameLines(rest, read) <==> AllLinesKept(doc, rest))
    requires AllLinesKept(doc, rest) ==> GroupBack(c, rest, read, index)
    ensures var all := (match r case None => [] case Some(x) => [x]) + read;
            && |all| <= |rest| + 1
            && (SameLines([line] + rest, all) <==> AllLinesKept(doc, [line] + rest))
            && (AllLinesKept(doc, [line] + rest) ==> GroupBack(c, [line] + rest, all, index))
  {
    var one := match r case None => [] case Some(x) => [x];
    OneLine(doc, line, r);
    SameLinesAppend([line], rest, one, read);
    AllKeptAppend(doc, [line], rest);
    if AllLinesKept(doc, [line] + rest) { GroupBackStep(c, line, rest, read, index); }
    hide LineKept, SameLine, Returned, GroupBack;
  }

  /** The paragraphs of a written division are exactly those found in it. */
  lemma {:induction false} ParagraphsFound(doc: Doc, lines: seq<Line>)
    ensures Descendants(Paragraphs(doc, lines), "p") == Paragraphs(doc, lines)
  {
    hide *;
    if lines == [] {
      NoFoundParagraphs(doc);
    } else {
      var line, rest := lines[0], lines[1..];
      var p := ParagraphOf(doc, line, Inside(doc, line));
      assert lines == [line] + rest;
      ParagraphsFound(doc, rest);
      InsideHolds(doc, line);
      NothingNamed(Inside(doc, line), "p");
      NamedParagraph(doc, line);
      ParagraphsAre(doc, line, rest);
      DescendFirst(p, Paragraphs(doc, rest), "p");
    }
  }

  lemma NoFoundParagraphs(doc: Doc)
    ensures Paragraphs(doc, []) == [] && Descendants([], "p") == []
  {
  }

  lemma NamedParagraph(doc: Doc, line: Line)
    ensures var p := ParagraphOf(doc, line, Inside(doc, line));
            p.Elem? && p.name == "p" && p.children == Inside(doc, line)
  {
    hide FormatTime, Inside;
  }

  /** Some node, at any depth, has the name. */
  predicate Named(nodes: seq<Node>, name: string)
    decreases nodes
  {
    && nodes != []
    && ((nodes[0].Elem? && (nodes[0].name == name || Named(nodes[0].children, name))) || Named(nodes[1..], name))
  }

  lemma {:induction false} NothingNamed(nodes: seq<Node>, name: string)
    requires !Named(nodes, name)
    ensures Descendants(nodes, name) == []
    decreases nodes
  {
    if nodes != [] {
      if nodes[0].Elem? { NothingNamed(nodes[0].children, name); }
      NothingNamed(nodes[1..], name);
    }
  }

  lemma {:induction false} NamedAppend(a: seq<Node>, b: seq<Node>, name: string)
    ensures Named(a + b, name) <==> Named(a, name) || Named(b, name)
  {
    if a == [] {
      assert a + b == b;
    } else {
      NamedAppend(a[1..], b, name);
      assert (a + b)[1..] == a[1..] + b;
    }
  }

  predicate SpanOnly(name: string) { name == "p" || name == "div" }

  lemma LeafHolds(n: Node, name: string)
    requires SpanOnly(name) && n.Elem? && n.name == "span" && OneText(n.children)
    ensures !Named([n], name)
  {
    assert !Named([], name);
    assert [n][1..] == [];
    if n.children != [] {
      assert n.children[1..] == [];
      assert !Named(n.children, name);
    }
  }

  lemma {:induction false} MarkedHolds(s: Syllable, name: string)
    requires SpanOnly(name)
    ensures !Named(Marked(s), name)
  {
    MarkedIs(s);
    SpanOfIs(s);
    hide Marked, Pre, Post, FormatTime, Trim, SpanOf, Attr, DirectText;
    var n := SpanOf(s);
    LeafHolds(n, name);
    SpacesHold(Pre(s), name);
    SpacesHold(Post(s), name);
    hide Named, Spaces, OneText;
    NamedAppend([n], Spaces(Post(s)), name);
    NamedAppend(Spaces(Pre(s)), [n] + Spaces(Post(s)), name);
  }

  lemma SpacesHold(text: string, name: string)
    ensures !Named(Spaces(text), name)
  {
    if text != "" { assert Spaces(text)[1..] == []; }
  }

  lemma {:induction false} MarkedAllHolds(syllabus: seq<Syllable>, name: string)
    requires SpanOnly(name)
    ensures !Named(MarkedAll(syllabus), name)
  {
    if syllabus != [] {
      MarkedHolds(syllabus[0], name);
      MarkedAllHolds(syllabus[1..], name);
      hide Named, Marked;
      NamedAppend(Marked(syllabus[0]), MarkedAll(syllabus[1..]), name);
    }
  }

  lemma WrapperHolds(inner: seq<Node>, name: string)
    requires SpanOnly(name) && !Named(inner, name)
    ensures !Named([Wrapper(inner)], name)
  {
    var nodes := [Wrapper(inner)];
    assert nodes[1..] == [] && nodes[0].Elem? && nodes[0].children == inner;
  }

  lemma {:induction false} ParagraphHolds(syllabus: seq<Syllable>, name: string)
    requires SpanOnly(name)
    ensures !Named(Paragraph(syllabus), name)
    decreases |syllabus|
  {
    if syllabus == [] {
    } else if !syllabus[0].isBackground {
      MarkedHolds(syllabus[0], name);
      ParagraphHolds(syllabus[1..], name);
      hide Named, Marked;
      NamedAppend(Marked(syllabus[0]), Paragraph(syllabus[1..]), name);
    } else {
      var n := BackgroundRun(syllabus);
      ParagraphHolds(syllabus[n..], name);
      MarkedAllHolds(syllabus[..n], name);
      var wrapper := Wrapper(MarkedAll(syllabus[..n]));
      WrapperHolds(MarkedAll(syllabus[..n]), name);
      hide Named, Wrapper, MarkedAll;
      NamedAppend([wrapper], Paragraph(syllabus[n..]), name);
    }
  }

  lemma InsideHolds(doc: Doc, line: Line)
    ensures !Named(Inside(doc, line), "p") && !Named(Inside(doc, line), "div")
  {
    ParagraphHolds(line.syllabus, "p");
    ParagraphHolds(line.syllabus, "div");
    SpacesHold(line.text, "p");
    SpacesHold(line.text, "div");
    hide Named, Paragraph, Spaces;
  }

  lemma {:induction false} ParagraphsHold(doc: Doc, lines: seq<Line>)
    ensures !Named(Paragraphs(doc, lines), "div")
  {
    if lines != [] {
      var p := ParagraphOf(doc, lines[0], Inside(doc, lines[0]));
      NamedParagraph(doc, lines[0]);
      InsideHolds(doc, lines[0]);
      ParagraphsHold(doc, lines[1..]);
      assert Paragraphs(doc, lines)[0] == p && Paragraphs(doc, lines)[1..] == Paragraphs(doc, lines[1..]);
      hide ParagraphOf, Inside, Paragraphs;
    }
  }

  lemma DivIs(doc: Doc, lines: seq<Line>, children: seq<Node>)
    requires lines != []
    ensures var d := DivOf(doc, lines, children); d.Elem? && d.name == "div" && d.children == children
  {
    hide FormatTime, FindPart, PartName;
  }

  /** The divisions of a written body are exactly those found in it, and each holds its paragraphs. */
  lemma {:induction false} DivsFound(doc: Doc, lines: seq<Line>)
    ensures Descendants(Divs(doc, lines), "div") == Divs(doc, lines) && Elems(Divs(doc, lines))
    decreases |lines|
  {
    hide *;
    if lines == [] {
      NoFoundDivs(doc);
    } else {
      var n := PartRun(doc, lines);
      var group, rest := lines[..n], lines[n..];
      var d := DivOf(doc, group, Paragraphs(doc, group));
      DivsFound(doc, rest);
      DivIs(doc, group, Paragraphs(doc, group));
      ParagraphsHold(doc, group);
      NothingNamed(Paragraphs(doc, group), "div");
      DivsAre(doc, lines, n);
      DescendFirst(d, Divs(doc, rest), "div");
      ElemsCons(d, Divs(doc, rest));
    }
  }

  lemma NoFoundDivs(doc: Doc)
    ensures Divs(doc, []) == [] && Descendants([], "div") == [] && Elems([])
  {
  }

  lemma DescendFirst(n: Node, rest: seq<Node>, name: string)
    requires n.Elem? && n.name == name && Descendants(n.children, name) == []
    ensures Descendants([n] + rest, name) == [n] + Descendants(rest, name)
  {
    assert ([n] + rest)[1..] == rest;
  }

  /** The number of the part a line belongs to: how often the key has changed before it. */
  function PartNo(doc: Doc, lines: seq<Line>, k: nat): nat
    requires k < |lines|
  {
    if k == 0 then 0
    else PartNo(doc, lines, k - 1) + if KeyOf(doc, lines[k - 1]) == KeyOf(doc, lines[k]) then 0 else 1
  }

  lemma PartNoStep(doc: Doc, lines: seq<Line>, k: nat)
    requires k < |lines|
    ensures k == 0 ==> PartNo(doc, lines, k) == 0
    ensures k > 0 ==>
              PartNo(doc, lines, k)
              == PartNo(doc, lines, k - 1) + if KeyOf(doc, lines[k - 1]) == KeyOf(doc, lines[k]) then 0 else 1
  {
    hide KeyOf;
  }

  lemma {:induction false} PartNoSplit(doc: Doc, lines: seq<Line>, n: nat, k: nat)
    requires n == PartRun(doc, lines) && k < |lines|
    ensures PartNo(doc, lines, k) == if k < n then 0 else 1 + PartNo(doc, lines[n..], k - n)
  {
    hide KeyOf;
    if k > 0 {
      PartNoSplit(doc, lines, n, k - 1);
      if k > n {
        assert lines[n..][k - n] == lines[k] && lines[n..][k - n - 1] == lines[k - 1];
      }
    }
  }

  /** What comes back from a body: every line, if all are kept, numbered by its part. */
  predicate CameBack(doc: Doc, c: Reader, lines: seq<Line>, read: seq<Line>, index: int) {
    |read| == |lines| && forall k: nat | k < |lines| :: read[k] == Returned(c, lines[k], index + PartNo(doc, lines, k))
  }

  lemma {:induction false} DivsRoundTrip(doc: Doc, c: Reader, lines: seq<Line>, index: int)
    requires Fits(doc, c)
    ensures Elems(Divs(doc, lines))
    ensures var read := ReadDivs(c, Divs(doc, lines), index);
            && |read| <= |lines|
            && (SameLines(lines, read) <==> AllLinesKept(doc, lines))
            && (AllLinesKept(doc, lines) ==> CameBack(doc, c, lines, read, index))
    decreases |lines|
  {
    hide *;
    DivsFound(doc, lines);
    if lines == [] {
      NoBody(doc, c, index);
    } else {
      var n := PartRun(doc, lines);
      var group, rest := lines[..n], lines[n..];
      assert lines == group + rest;
      DivsAre(doc, lines, n);
      DivIs(doc, group, Paragraphs(doc, group));
      DivsRoundTrip(doc, c, rest, index + 1);
      GroupRoundTrip(doc, c, group, index);
      ParagraphsFound(doc, group);
      FirstDiv(c, Divs(doc, lines), index);
      var one, more := ReadParagraphs(c, Paragraphs(doc, group), index), ReadDivs(c, Divs(doc, rest), index + 1);
      SameLinesAppend(group, rest, one, more);
      AllKeptAppend(doc, group, rest);
      if AllLinesKept(doc, lines) {
        NumbersAdd(doc, c, lines, n, one, more, index);
      }
    }
  }

  lemma DivsAre(doc: Doc, lines: seq<Line>, n: nat)
    requires lines != [] && n == PartRun(doc, lines)
    ensures Divs(doc, lines) == [DivOf(doc, lines[..n], Paragraphs(doc, lines[..n]))] + Divs(doc, lines[n..])
  {
    hide DivOf, Paragraphs, PartRun;
  }

  lemma NoBody(doc: Doc, c: Reader, index: int)
    ensures Divs(doc, []) == [] && ReadDivs(c, [], index) == []
    ensures SameLines([], []) && AllLinesKept(doc, []) && CameBack(doc, c, [], [], index)
  {
  }

  lemma FirstDiv(c: Reader, divs: seq<Node>, index: int)
    requires Elems(divs) && divs != []
    ensures Elems(divs[1..]) && Elems(Descendants(divs[0].children, "p"))
    ensures ReadDivs(c, divs, index)
         == ReadParagraphs(c, Descendants(divs[0].children, "p"), index) + ReadDivs(c, divs[1..], index + 1)
  {
    DescendantsAreElems(divs[0].children, "p");
    hide Descendants, ReadParagraphs;
  }

  lemma NumbersAdd(doc: Doc, c: Reader, lines: seq<Line>, n: nat, one: seq<Line>, more: seq<Line>, index: int)
    requires n == PartRun(doc, lines) && lines != []
    requires GroupBack(c, lines[..n], one, index) && CameBack(doc, c, lines[n..], more, index + 1)
    ensures CameBack(doc, c, lines, one + more, index)
  {
    hide PartNo, PartRun, Returned;
    forall k: nat | k < |lines|
      ensures (one + more)[k] == Returned(c, lines[k], index + PartNo(doc, lines, k))
    {
      PartNoSplit(doc, lines, n, k);
      if k >= n {
        assert (one + more)[k] == more[k - n] && lines[n..][k - n] == lines[k];
      } else {
        assert (one + more)[k] == one[k] && lines[..n][k] == lines[k];
      }
    }
  }

  /** Writing a body and reading it back: the lines come back exactly when all of them are kept, and then two
      neighbours share a part index exactly when they belonged to the same part before. */
  lemma {:induction false} BodyRoundTrip(doc: Doc, c: Reader, stated: string, lines: seq<Line>)
    requires Fits(doc, c)
    ensures BodyOf(doc, stated, lines).Elem?
    ensures var read := ReadDivs(c, DivsIn(BodyOf(doc, stated, lines)), 0);
            && (SameLines(lines, read) <==> AllLinesKept(doc, lines))
            && (AllLinesKept(doc, lines) ==> CameBack(doc, c, lines, read, 0) && forall k | 0 < k < |lines| ::
                    read[k - 1].index == read[k].index <==> KeyOf(doc, lines[k - 1]) == KeyOf(doc, lines[k]))
  {
    hide *;
    var body := BodyOf(doc, stated, lines);
    BodyIs(doc, stated, lines);
    DivsRoundTrip(doc, c, lines, 0);
    DivsFound(doc, lines);
    CameBackLength(doc, c, lines, ReadDivs(c, DivsIn(body), 0));
    if lines == [] {
      NoBody(doc, c, 0);
      EmptyBody(c, body);
    } else {
      DivsNotEmpty(doc, lines);
      DivsInIs(body);
      if AllLinesKept(doc, lines) {
        Neighbours(doc, c, lines, ReadDivs(c, DivsIn(body), 0));
      }
    }
  }

  lemma BodyIs(doc: Doc, stated: string, lines: seq<Line>)
    ensures var body := BodyOf(doc, stated, lines);
            body.Elem? && body.children == Divs(doc, lines) && Attr(body, "dur") == TotalDuration(stated, lines)
    ensures Attr(BodyOf(doc, stated, lines), "begin") == "" && Attr(BodyOf(doc, stated, lines), "songPart") == ""
  {
    hide Divs, TotalDuration;
  }

  lemma CameBackLength(doc: Doc, c: Reader, lines: seq<Line>, read: seq<Line>)
    ensures CameBack(doc, c, lines, read, 0) ==> |read| == |lines|
  {
  }

  lemma DivsNotEmpty(doc: Doc, lines: seq<Line>)
    requires lines != []
    ensures Divs(doc, lines) != []
  {
  }

  lemma DivsInIs(body: Node)
    requires body.Elem? && Descendants(body.children, "div") != []
    ensures DivsIn(body) == Descendants(body.children, "div")
  {
  }

  lemma Neighbours(doc: Doc, c: Reader, lines: seq<Line>, read: seq<Line>)
    requires CameBack(doc, c, lines, read, 0)
    ensures |read| == |lines|
    ensures forall k | 0 < k < |lines| ::
              read[k - 1].index == read[k].index <==> KeyOf(doc, lines[k - 1]) == KeyOf(doc, lines[k])
  {
    hide KeyOf, JoinTexts, Lookup;
    forall k | 0 < k < |lines|
      ensures read[k - 1].index == read[k].index <==> KeyOf(doc, lines[k - 1]) == KeyOf(doc, lines[k])
    {
      PartNoStep(doc, lines, k);
    }
  }

  lemma EmptyBody(c: Reader, body: Node)
    requires body.Elem? && body.children == []
    ensures DivsIn(body) == [body] && ReadDivs(c, [body], 0) == []
  {
    assert DivsIn(body) == [body];
    assert [body][1..] == [];
    assert Descendants(body.children, "p") == [];
    FirstDiv(c, [body], 0);
    assert ReadDivs(c, [], 1) == [];
  }
}
