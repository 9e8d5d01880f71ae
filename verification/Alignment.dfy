/** Aligning the tokens of one line-synced line with the timed word tokens near it
    (internal/providers/qaple.go, alignTokensToQQ).

    A forward dynamic program fills a cost table and a table of back pointers; a
    traceback turns the back pointers into one slot per line token and a list of
    unused timed tokens.  The reference notion is a Path of operations: the table
    is proved optimal over every path the transition rules allow, and the slots are
    proved to be an in-order partition of the timed tokens. */
module Alignment {
  import opened Wrappers
  import opened Utf8
  import opened GridPaths

  datatype AppleToken = AppleToken(text: string, norm: string, wordFinal: bool)

  datatype QQToken = QQToken(text: string, norm: string, time: int, duration: int, seqIdx: nat)

  const GAP_APPLE := 0.35
  const GAP_QQ := 0.20
  const SEQ_PENALTY_RATE := 0.0000001
  const INTRA_WINDOW_NUDGE := 0.05
  const MIN_MANY_SIM := 0.40

  type Similarity = (string, string) -> real

  /** One call of the aligner.  The two similarity functions are left abstract. */
  datatype Problem = Problem(
    apple: seq<AppleToken>,
    qq: seq<QQToken>,
    lineStart: int,
    lineEnd: int,
    syllable: bool,
    textSim: Similarity,
    syllableSim: Similarity)
  {
    function MaxQQMerge(): nat { if syllable then 12 else 3 }

    function CrossWordPenalty(): real { if syllable then 9999.0 else 0.20 }

    function LineDur(): (d: real)
      ensures d >= 1.0
    {
      if lineEnd - lineStart < 1 then 1.0 else (lineEnd - lineStart) as real
    }

    function Sim(x: string, y: string): real { if syllable then syllableSim(x, y) else textSim(x, y) }

    /** What the similarity functions promise: a score between 0 and 1. */
    ghost predicate Scored() {
      forall x, y :: 0.0 <= textSim(x, y) <= 1.0 && 0.0 <= syllableSim(x, y) <= 1.0
    }

    function TimePenalty(t: int): (c: real)
      ensures c >= 0.0
    {
      var rate := 1.5 / LineDur();
      if t < lineStart then (lineStart - t) as real * rate
      else if t > lineEnd then (t - lineEnd) as real * rate
      else (t - lineStart) as real / LineDur() * INTRA_WINDOW_NUDGE
    }
  }

  // ---- the transition rules -------------------------------------------------

  function JoinQQ(qq: seq<QQToken>): string {
    if qq == [] then "" else JoinQQ(qq[..|qq| - 1]) + qq[|qq| - 1].norm
  }

  function JoinApple(apple: seq<AppleToken>): string {
    if apple == [] then "" else JoinApple(apple[..|apple| - 1]) + apple[|apple| - 1].norm
  }

  function SumTime(p: Problem, qq: seq<QQToken>): (c: real)
    ensures c >= 0.0
  {
    if qq == [] then 0.0 else SumTime(p, qq[..|qq| - 1]) + p.TimePenalty(qq[|qq| - 1].time)
  }

  function SumSeq(qq: seq<QQToken>): (c: real)
    ensures c >= 0.0
  {
    if qq == [] then 0.0 else SumSeq(qq[..|qq| - 1]) + qq[|qq| - 1].seqIdx as real * SEQ_PENALTY_RATE
  }

  /** Fusing tokens across a word boundary is charged per boundary crossed. */
  function SumCross(p: Problem, apple: seq<AppleToken>): (c: real)
    ensures c >= 0.0
  {
    if |apple| <= 1 then 0.0
    else SumCross(p, apple[..|apple| - 1]) + if apple[|apple| - 2].wordFinal then p.CrossWordPenalty() else 0.0
  }

  /** The test that lets `da` line tokens share one timed token. */
  predicate ManyOk(p: Problem, a: nat, q: nat, da: nat)
    requires a + da <= |p.apple| && q < |p.qq|
  {
    var run := p.apple[a..a + da];
    && SumCross(p, run) < INF_COST
    && Utf8Len(JoinApple(run)) as real <= Utf8Len(p.qq[q].norm) as real * 1.5
    && p.textSim(JoinApple(run), p.qq[q].norm) >= MIN_MANY_SIM
  }

  /** An operation is allowed at (a, q); a failed merge also rules out every longer one. */
  predicate Allowed(p: Problem, a: nat, q: nat, op: Op) {
    && a + op.Da() <= |p.apple| && q + op.Dq() <= |p.qq|
    && match op
       case NoOp => false
       case SkipApple => true
       case SkipQQ => true
       case Match(da, dq) =>
         || (da == 1 && 1 <= dq <= p.MaxQQMerge())
         || (da >= 2 && dq == 1 && forall d :: 2 <= d <= da ==> ManyOk(p, a, q, d))
  }

  /** Giving `dq` timed tokens to line token `a`. */
  function OneToMany(p: Problem, a: nat, q: nat, dq: nat): real
    requires a < |p.apple| && 1 <= dq && q + dq <= |p.qq|
  {
    var run := p.qq[q..q + dq];
    (1.0 - p.Sim(p.apple[a].norm, JoinQQ(run))) + (dq - 1) as real * GAP_QQ + SumTime(p, run) / dq as real + SumSeq(run)
  }

  /** Giving timed token `q` to `da` line tokens. */
  function ManyToOne(p: Problem, a: nat, q: nat, da: nat): real
    requires a + da <= |p.apple| && q < |p.qq|
  {
    var run := p.apple[a..a + da];
    (1.0 - p.textSim(JoinApple(run), p.qq[q].norm)) + p.TimePenalty(p.qq[q].time)
    + SumCross(p, run) + p.qq[q].seqIdx as real * SEQ_PENALTY_RATE
  }

  function StepCost(p: Problem, a: nat, q: nat, op: Op): real
    requires Allowed(p, a, q, op)
  {
    match op
    case SkipApple => GAP_APPLE
    case SkipQQ => GAP_QQ
    case Match(da, dq) => if da == 1 then OneToMany(p, a, q, dq) else ManyToOne(p, a, q, da)
  }

  lemma StepCostNonNegative(p: Problem, a: nat, q: nat, op: Op)
    requires p.Scored() && Allowed(p, a, q, op)
    ensures StepCost(p, a, q, op) >= 0.0
  {
    if op.Match? && op.da == 1 {
      var run := p.qq[q..q + op.dq];
      var _ := p.textSim(p.apple[a].norm, JoinQQ(run));
      assert SumTime(p, run) / op.dq as real >= 0.0;
    }
  }

  /** The transition rules as a graph. */
  ghost function GraphOf(p: Problem): Graph {
    Graph(|p.apple|, |p.qq|,
          (a, q, o) => a >= 0 && q >= 0 && Allowed(p, a, q, o),
          (a, q, o) => if a >= 0 && q >= 0 && Allowed(p, a, q, o) then StepCost(p, a, q, o) else 0.0)
  }

  lemma GraphNonNegative(p: Problem)
    requires p.Scored()
    ensures GraphOf(p).NonNegative()
  {
    forall a, q, o | GraphOf(p).Allowed(a, q, o) ensures GraphOf(p).cost(a, q, o) >= 0.0 {
      StepCostNonNegative(p, a, q, o);
    }
  }

  /** Skipping everything is always legal, and it costs 0.35 A + 0.20 Q. */
  lemma {:induction false} SkipAll(p: Problem, a: nat, q: nat) returns (path: Path)
    requires a <= |p.apple| && q <= |p.qq|
    ensures Legal(GraphOf(p), path) && path.EndA() == a && path.EndQ() == q
    ensures PathCost(GraphOf(p), path) == GAP_APPLE * a as real + GAP_QQ * q as real
    decreases a + q
  {
    if a > 0 {
      var prev := SkipAll(p, a - 1, q);
      path := Step(prev, SkipApple);
    } else if q > 0 {
      var prev := SkipAll(p, a, q - 1);
      path := Step(prev, SkipQQ);
    } else {
      path := Start;
    }
  }

  /** What the rules say about one line token and several timed tokens ... */
  ghost predicate AgreeOnOneToMany(g: Graph, p: Problem, a: nat, q: nat) {
    && g.rows == |p.apple| && g.cols == |p.qq| && a < g.rows
    && (forall d: nat :: g.Allowed(a, q, Match(1, d)) <==> 1 <= d <= p.MaxQQMerge() && q + d <= g.cols)
    && (forall d | 1 <= d && q + d <= g.cols && d <= p.MaxQQMerge() ::
          g.cost(a, q, Match(1, d)) == OneToMany(p, a, q, d))
  }

  /** ... and about several line tokens and one timed token. */
  ghost predicate AgreeOnManyToOne(g: Graph, p: Problem, a: nat, q: nat) {
    && g.rows == |p.apple| && g.cols == |p.qq| && a < g.rows && q < g.cols
    && (forall da | da >= 2 :: g.Allowed(a, q, Match(da, 1))
          <==> a + da <= g.rows && forall d :: 2 <= d <= da ==> ManyOk(p, a, q, d))
    && (forall da | da >= 2 && g.Allowed(a, q, Match(da, 1)) :: g.cost(a, q, Match(da, 1)) == ManyToOne(p, a, q, da))
  }

  /** Every allowed operation is a skip or one of the two kinds of match. */
  ghost predicate AgreeOnKinds(g: Graph, p: Problem, a: nat, q: nat) {
    && g.rows == |p.apple| && g.cols == |p.qq|
    && (a < g.rows ==> g.Allowed(a, q, SkipApple) && g.cost(a, q, SkipApple) == GAP_APPLE)
    && (q < g.cols ==> g.Allowed(a, q, SkipQQ) && g.cost(a, q, SkipQQ) == GAP_QQ)
    && forall o | g.Allowed(a, q, o) ::
         match o
         case NoOp => false
         case SkipApple => a < g.rows
         case SkipQQ => q < g.cols
         case Match(da, dq) => a < g.rows && q < g.cols && (da == 1 || (da >= 2 && dq == 1))
  }

  ghost predicate CellRules(g: Graph, p: Problem, a: nat, q: nat) {
    && AgreeOnKinds(g, p, a, q)
    && (a < |p.apple| ==> AgreeOnOneToMany(g, p, a, q))
    && (a < |p.apple| && q < |p.qq| ==> AgreeOnManyToOne(g, p, a, q))
  }

  lemma RulesAgree(p: Problem, a: nat, q: nat)
    requires a <= |p.apple| && q <= |p.qq|
    ensures CellRules(GraphOf(p), p, a, q)
  {
  }

  /** Cost of giving `dq` consecutive timed tokens to one line token. */
  method OneToManyCost(p: Problem, cur: real, a: nat, q: nat, dq: nat) returns (c: real)
    requires a < |p.apple| && 1 <= dq && q + dq <= |p.qq|
    ensures c == cur + OneToMany(p, a, q, dq)
  {
    var run := p.qq[q..q + dq];
    var combined, tPenalty, seqPenalty := "", 0.0, 0.0;
    for k := 0 to dq
      invariant combined == JoinQQ(run[..k]) && tPenalty == SumTime(p, run[..k]) && seqPenalty == SumSeq(run[..k])
    {
      assert run[..k + 1][..k] == run[..k];
      combined := combined + p.qq[q + k].norm;
      tPenalty := tPenalty + p.TimePenalty(p.qq[q + k].time);
      seqPenalty := seqPenalty + p.qq[q + k].seqIdx as real * SEQ_PENALTY_RATE;
    }
    assert run[..dq] == run;
    var sim := p.Sim(p.apple[a].norm, combined);
    c := cur + (1.0 - sim) + (dq - 1) as real * GAP_QQ + tPenalty / dq as real + seqPenalty;
  }

  /** Text and word-boundary charge of `da` consecutive line tokens. */
  method FuseApple(p: Problem, a: nat, da: nat) returns (combined: string, crossing: real)
    requires a + da <= |p.apple|
    ensures combined == JoinApple(p.apple[a..a + da]) && crossing == SumCross(p, p.apple[a..a + da])
  {
    var run := p.apple[a..a + da];
    combined, crossing := "", 0.0;
    for k := 0 to da
      invariant combined == JoinApple(run[..k])
      invariant crossing == if k < da then
                              SumCross(p, run[..k])
                              + (if k > 0 && run[k - 1].wordFinal then p.CrossWordPenalty() else 0.0)
                            else SumCross(p, run)
    {
      assert run[..k + 1][..k] == run[..k];
      assert k + 1 == da ==> run[..k + 1] == run;
      combined := combined + p.apple[a + k].norm;
      if k + 1 < da && p.apple[a + k].wordFinal {
        crossing := crossing + p.CrossWordPenalty();
      }
    }
    assert run[..da] == run;
  }

  /** Lets one line token take 1, 2, ... timed tokens. */
  method SweepOneToMany(p: Problem, ghost g: Graph, t: array2<Cell>, ghost done0: set<Edge>, a: nat, q: nat)
    returns (ghost done: set<Edge>)
    requires Sweeping(g, t, done0, a, q) && AgreeOnOneToMany(g, p, a, q)
    modifies t
    ensures Sweeping(g, t, done, a, q) && done0 <= done
    ensures forall d | g.Allowed(a, q, Match(1, d)) :: Edge(a, q, Match(1, d)) in done
  {
    hide OneToMany, Relaxed, Priced, Swept;
    done := done0;
    var cur := t[a, q].cost;
    var dq := 1;
    while dq <= p.MaxQQMerge() && q + dq <= |p.qq|
      invariant dq >= 1 && Sweeping(g, t, done, a, q) && t[a, q].cost == cur && done0 <= done
      invariant forall d | 1 <= d < dq :: Edge(a, q, Match(1, d)) in done
      decreases |p.qq| - q - dq
    {
      var c := OneToManyCost(p, cur, a, q, dq);
      done := Relax(g, t, done, a, q, Match(1, dq), c);
      dq := dq + 1;
    }
  }

  /** Lets 2, 3, ... line tokens share one timed token, stopping at the first failed test. */
  method SweepManyToOne(p: Problem, ghost g: Graph, t: array2<Cell>, ghost done0: set<Edge>, a: nat, q: nat)
    returns (ghost done: set<Edge>)
    requires Sweeping(g, t, done0, a, q) && AgreeOnManyToOne(g, p, a, q)
    modifies t
    ensures Sweeping(g, t, done, a, q) && done0 <= done
    ensures forall d | d >= 2 && g.Allowed(a, q, Match(d, 1)) :: Edge(a, q, Match(d, 1)) in done
  {
    hide Relaxed, Priced, Swept;
    done := done0;
    var cur := t[a, q].cost;
    var da := 2;
    while a + da <= |p.apple|
      invariant da >= 2 && Sweeping(g, t, done, a, q) && t[a, q].cost == cur && done0 <= done
      invariant forall d | 2 <= d < da :: a + d <= |p.apple| && ManyOk(p, a, q, d) && Edge(a, q, Match(d, 1)) in done
    {
      var combined, crossing := FuseApple(p, a, da);
      if crossing >= INF_COST { break; }
      if Utf8Len(combined) as real > Utf8Len(p.qq[q].norm) as real * 1.5 { break; }
      var sim := p.textSim(combined, p.qq[q].norm);
      if sim < MIN_MANY_SIM { break; }
      var seqPenalty := p.qq[q].seqIdx as real * SEQ_PENALTY_RATE;
      var c := cur + (1.0 - sim) + p.TimePenalty(p.qq[q].time) + crossing + seqPenalty;
      done := Relax(g, t, done, a, q, Match(da, 1), c);
      da := da + 1;
    }
    forall d | d >= 2 && g.Allowed(a, q, Match(d, 1)) ensures Edge(a, q, Match(d, 1)) in done {
      assert d >= da ==> ManyOk(p, a, q, da);
    }
  }

  /** All updates out of one reached cell. */
  method SweepCell(p: Problem, ghost g: Graph, t: array2<Cell>, ghost done0: set<Edge>, a: nat, q: nat)
    returns (ghost done: set<Edge>)
    requires CellRules(g, p, a, q) && Sweeping(g, t, done0, a, q)
    modifies t
    ensures State(g, t, done)
    ensures Swept(g, t, done, a, q + 1) && forall e <- done :: Before(e, a, q + 1)
  {
    hide AgreeOnOneToMany, AgreeOnManyToOne, Relaxed, Priced, Swept;
    done := done0;
    if a < |p.apple| {
      done := SweepOneToMany(p, g, t, done, a, q);
      if q < |p.qq| {
        done := SweepManyToOne(p, g, t, done, a, q);
      }
      done := Relax(g, t, done, a, q, SkipApple, t[a, q].cost + GAP_APPLE);
    }
    if q < |p.qq| {
      done := Relax(g, t, done, a, q, SkipQQ, t[a, q].cost + GAP_QQ);
    }
    forall o | g.Allowed(a, q, o) ensures Edge(a, q, o) in done {
      assert o.Match? ==> o == Match(o.da, o.dq);
    }
    CellSwept(g, t, done, a, q);
  }

  method FillTable(p: Problem, ghost g: Graph) returns (t: array2<Cell>, ghost done: set<Edge>)
    requires g == GraphOf(p)
    ensures State(g, t, done) && Swept(g, t, done, |p.apple| + 1, 0) && fresh(t)
  {
    var A, Q := |p.apple|, |p.qq|;
    t := new Cell[A + 1, Q + 1]((_, _) => Cell(INF_COST, NoOp));
    t[0, 0] := Cell(0.0, NoOp);
    done := {};
    for a := 0 to A + 1
      invariant State(g, t, done) && fresh(t)
      invariant Swept(g, t, done, a, 0) && forall e <- done :: Before(e, a, 0)
    {
      for q := 0 to Q + 1
        invariant State(g, t, done) && fresh(t)
        invariant Swept(g, t, done, a, q) && forall e <- done :: Before(e, a, q)
      {
        if t[a, q].cost < INF_COST {
          RulesAgree(p, a, q);
          done := SweepCell(p, g, t, done, a, q);
        }
      }
    }
  }

  // ---- slots ------------------------------------------------------------------

  datatype PartTiming = PartTiming(time: int, duration: int, norm: string)

  /** Timing of one line token: its own, one part per fused timed token, the head of a
      merge over `mergeCount` line tokens, or a follower absorbed by such a head. */
  datatype MatchItem = MatchItem(time: int, duration: int, parts: seq<PartTiming>, mergeCount: nat, absorbed: bool)

  type Slot = Option<MatchItem>

  function Single(tok: QQToken): MatchItem { MatchItem(tok.time, tok.duration, [], 0, false) }

  function PartsOf(run: seq<QQToken>): seq<PartTiming> {
    seq(|run|, k requires 0 <= k < |run| => PartTiming(run[k].time, run[k].duration, run[k].norm))
  }

  const ABSORBED := MatchItem(0, 0, [], 0, true)

  /** The slots one operation contributes when it ends at timed token `q`. */
  function OpSlots(p: Problem, op: Op, q: nat): seq<Slot>
    requires op.Dq() <= q <= |p.qq|
  {
    match op
    case Match(da, dq) =>
      if da == 1 && dq == 1 then [Some(Single(p.qq[q - 1]))]
      else if da == 1 then [Some(MatchItem(0, 0, PartsOf(p.qq[q - dq..q]), 0, false))]
      else if da >= 2 && dq == 1 then [Some(Single(p.qq[q - 1]).(mergeCount := da))] + seq(da - 1, _ => Some(ABSORBED))
      else []
    case SkipApple => [None]
    case _ => []
  }

  ghost function Slots(p: Problem, path: Path): seq<Slot>
    requires path.EndQ() <= |p.qq|
  {
    if path.Start? then [] else Slots(p, path.prev) + OpSlots(p, path.op, path.EndQ())
  }

  ghost function Skipped(p: Problem, path: Path): seq<QQToken>
    requires path.EndQ() <= |p.qq|
  {
    if path.Start? then []
    else Skipped(p, path.prev) + if path.op.SkipQQ? then [p.qq[path.EndQ() - 1]] else []
  }

  function Reversed<T>(s: seq<T>): seq<T> {
    if s == [] then [] else [s[|s| - 1]] + Reversed(s[..|s| - 1])
  }

  /** The graph only has skips and the two kinds of match. */
  predicate Known(p: Problem, a: int, q: int, o: Op) {
    && a >= 0 && q >= 0 && a + o.Da() <= |p.apple| && q + o.Dq() <= |p.qq|
    && o != NoOp && (o.Match? ==> (o.da == 1 && o.dq >= 1) || (o.da >= 2 && o.dq == 1))
  }

  ghost predicate OnlyKnown(p: Problem, g: Graph) {
    g.rows == |p.apple| && g.cols == |p.qq| && forall a, q, o | g.Allowed(a, q, o) :: Known(p, a, q, o)
  }

  /** Writes the slots of one match that leads from (a, q) to (a + da, q + dq). */
  method PlaceMatch(p: Problem, matches: array<Slot>, o: Op, a: nat, q: nat)
    requires Known(p, a, q, o) && o.Match? && matches.Length == |p.apple|
    modifies matches
    ensures matches[a..a + o.da] == OpSlots(p, o, q + o.dq)
    ensures forall i | 0 <= i < matches.Length && !(a <= i < a + o.da) :: matches[i] == old(matches[i])
  {
    var last := p.qq[q + o.dq - 1];
    if o.da == 1 {
      if o.dq == 1 {
        matches[a] := Some(Single(last));
      } else {
        matches[a] := Some(MatchItem(0, 0, PartsOf(p.qq[q..q + o.dq]), 0, false));
      }
    } else {
      matches[a] := Some(Single(last).(mergeCount := o.da));
      for k := 1 to o.da
        invariant matches[a] == Some(Single(last).(mergeCount := o.da))
        invariant forall j | a < j < a + k :: matches[j] == Some(ABSORBED)
        invariant forall i | 0 <= i < matches.Length && !(a <= i < a + o.da) :: matches[i] == old(matches[i])
      {
        matches[a + k] := Some(ABSORBED);
      }
    }
  }

  /** Undoes one operation: its slots are written and a skipped timed token is handed out. */
  method UndoOp(p: Problem, matches: array<Slot>, residuals: seq<QQToken>, o: Op, a: nat, q: nat)
    returns (residuals': seq<QQToken>)
    requires Known(p, a, q, o) && matches.Length == |p.apple|
    requires forall i | 0 <= i < a + o.Da() :: matches[i] == None
    modifies matches
    ensures matches[a..] == OpSlots(p, o, q + o.Dq()) + old(matches[a + o.Da()..])
    ensures forall i | 0 <= i < a :: matches[i] == None
    ensures residuals' == if o.SkipQQ? then residuals + [p.qq[q]] else residuals
  {
    residuals' := residuals;
    if o.Match? {
      PlaceMatch(p, matches, o, a, q);
    } else if o.SkipQQ? {
      residuals' := residuals + [p.qq[q]];
    }
    assert matches[a..] == matches[a..a + o.Da()] + matches[a + o.Da()..];
    assert matches[a + o.Da()..] == old(matches[a + o.Da()..]);
  }

  /** The back pointers along a path spell out that path. */
  ghost predicate Follows(p: Problem, t: array2<Cell>, path: Path)
    requires t.Length0 == |p.apple| + 1 && t.Length1 == |p.qq| + 1
    reads t
  {
    if path.Start? then t[0, 0].op == NoOp
    else
      && Known(p, path.prev.EndA(), path.prev.EndQ(), path.op)
      && t[path.EndA(), path.EndQ()].op == path.op
      && Follows(p, t, path.prev)
  }

  lemma {:induction false} PathFollows(p: Problem, g: Graph, t: array2<Cell>, done: set<Edge>, x: nat, y: nat)
    requires OnlyKnown(p, g) && State(g, t, done) && g.InGrid(x, y) && t[x, y].cost < INF_COST
    ensures Follows(p, t, PathTo(g, t, done, x, y))
    decreases x + y
  {
    assert Priced(g, t, done, x, y);
    if x + y > 0 {
      var o := t[x, y].op;
      assert Relaxed(g, t, Edge(x - o.Da(), y - o.Dq(), o));
      PathFollows(p, g, t, done, x - o.Da(), y - o.Dq());
    }
  }

  lemma PrependSlots(front: seq<Slot>, mid: seq<Slot>, back: seq<Slot>)
    ensures (front + mid) + back == front + (mid + back)
  {
  }

  lemma ReversedSnoc<T>(s: seq<T>, x: T)
    ensures Reversed(s + [x]) == [x] + Reversed(s)
  {
    assert (s + [x])[..|s|] == s;
  }

  /** What the traceback has produced when it stands at the end of `cur`, on its way along `path`. */
  ghost predicate Traced(p: Problem, path: Path, cur: Path, slots: seq<Slot>, residuals: seq<QQToken>) {
    && path.EndQ() <= |p.qq| && cur.EndQ() <= |p.qq|
    && Slots(p, path) == Slots(p, cur) + slots
    && Reversed(Skipped(p, path)) == residuals + Reversed(Skipped(p, cur))
  }

  lemma TracedStep(p: Problem, path: Path, cur: Path, slots: seq<Slot>, slots': seq<Slot>, residuals: seq<QQToken>)
    requires cur.Step? && Traced(p, path, cur, slots, residuals)
    requires slots' == OpSlots(p, cur.op, cur.EndQ()) + slots
    ensures Traced(p, path, cur.prev, slots', if cur.op.SkipQQ? then residuals + [p.qq[cur.EndQ() - 1]] else residuals)
  {
    PrependSlots(Slots(p, cur.prev), OpSlots(p, cur.op, cur.EndQ()), slots);
    var rest := Skipped(p, cur.prev);
    if !cur.op.SkipQQ? {
      assert rest + [] == rest;
    } else {
      var x := p.qq[cur.EndQ() - 1];
      ReversedSnoc(rest, x);
      assert residuals + ([x] + Reversed(rest)) == (residuals + [x]) + Reversed(rest);
    }
  }

  lemma TracedEnds(p: Problem, path: Path, slots: seq<Slot>, residuals: seq<QQToken>)
    requires path.EndQ() <= |p.qq|
    ensures Traced(p, path, path, [], [])
    ensures Traced(p, path, Start, slots, residuals) ==>
            slots == Slots(p, path) && residuals == Reversed(Skipped(p, path))
  {
    hide OpSlots;
    assert Slots(p, Start) == [] && Skipped(p, Start) == [] && [] + slots == slots;
  }

  /** Reads the back pointers from the far corner, writing slots and collecting skipped tokens.
      An unreached corner stops it at once. */
  method Traceback(p: Problem, t: array2<Cell>, ghost path: Path)
    returns (matches: array<Slot>, residuals: seq<QQToken>)
    requires t.Length0 == |p.apple| + 1 && t.Length1 == |p.qq| + 1
    requires t[|p.apple|, |p.qq|].op != NoOp ==>
               Follows(p, t, path) && path.EndA() == |p.apple| && path.EndQ() == |p.qq|
    ensures fresh(matches) && matches.Length == |p.apple|
    ensures t[|p.apple|, |p.qq|].op != NoOp ==>
              matches[..] == Slots(p, path) && residuals == Reversed(Skipped(p, path))
    ensures t[|p.apple|, |p.qq|].op == NoOp ==> residuals == [] && forall i | 0 <= i < |p.apple| :: matches[i] == None
  {
    hide Traced, Slots, OpSlots, Skipped, Reversed;
    var a, q := |p.apple|, |p.qq|;
    matches := new Slot[a](_ => None);
    residuals := [];
    ghost var reached := t[a, q].op != NoOp;
    ghost var cur := path;
    assert matches[a..] == [];
    if reached { TracedEnds(p, path, [], []); }
    while a > 0 || q > 0
      invariant 0 <= a <= |p.apple| && 0 <= q <= |p.qq| && fresh(matches) && matches.Length == |p.apple|
      invariant forall i | 0 <= i < a :: matches[i] == None
      invariant !reached ==> (a == |p.apple| && q == |p.qq| && residuals == [])
      invariant reached ==> (cur.EndA() == a && cur.EndQ() == q && Follows(p, t, cur))
      invariant reached ==> Traced(p, path, cur, matches[a..], residuals)
      decreases a + q
    {
      var o := t[a, q].op;
      if o == NoOp { break; }
      ghost var slots, residuals0 := matches[a..], residuals;
      a, q := a - o.Da(), q - o.Dq();
      residuals := UndoOp(p, matches, residuals, o, a, q);
      TracedStep(p, path, cur, slots, matches[a..], residuals0);
      cur := cur.prev;
    }
    if reached {
      TracedEnds(p, path, matches[a..], residuals);
      assert cur == Start && matches[0..] == matches[..];
    }
  }

  // ---- what an alignment is ---------------------------------------------------

  /** Stands for the library sort by seqIdx. */
  function SortBySeq(s: seq<QQToken>): seq<QQToken> {
    if s == [] then [] else InsertBySeq(s[0], SortBySeq(s[1..]))
  }

  function InsertBySeq(x: QQToken, s: seq<QQToken>): seq<QQToken> {
    if s == [] || x.seqIdx <= s[0].seqIdx then [x] + s else [s[0]] + InsertBySeq(x, s[1..])
  }

  predicate StrictlyOrdered(s: seq<QQToken>) {
    forall i, j | 0 <= i < j < |s| :: s[i].seqIdx < s[j].seqIdx
  }

  lemma {:induction false} InsertLast(x: QQToken, s: seq<QQToken>)
    requires forall i | 0 <= i < |s| :: s[i].seqIdx < x.seqIdx
    ensures InsertBySeq(x, s) == s + [x]
  {
    if s != [] {
      InsertLast(x, s[1..]);
      assert [s[0]] + (s[1..] + [x]) == s + [x];
    }
  }

  /** Sorting undoes the reversal of the traceback. */
  lemma {:induction false} SortReversed(s: seq<QQToken>)
    requires StrictlyOrdered(s)
    ensures SortBySeq(Reversed(s)) == s
  {
    if s != [] {
      var front, x := s[..|s| - 1], s[|s| - 1];
      SortReversed(front);
      InsertLast(x, front);
      assert Reversed(s)[1..] == Reversed(front);
      assert front + [x] == s;
    }
  }

  lemma {:induction false} SkippedOrdered(p: Problem, path: Path)
    requires StrictlyOrdered(p.qq) && path.EndQ() <= |p.qq|
    ensures StrictlyOrdered(Skipped(p, path))
    ensures forall i, j | 0 <= i < |Skipped(p, path)| && path.EndQ() <= j < |p.qq| ::
              Skipped(p, path)[i].seqIdx < p.qq[j].seqIdx
  {
    if path.Step? {
      SkippedOrdered(p, path.prev);
    }
  }

  /** The timings a line of slots takes from the pool, left to right. */
  function Uses(slots: seq<Slot>): seq<(int, int)> {
    if slots == [] then [] else SlotUses(slots[0]) + Uses(slots[1..])
  }

  function SlotUses(s: Slot): seq<(int, int)> {
    match s
    case None => []
    case Some(m) =>
      if m.absorbed then []
      else if m.parts != [] then seq(|m.parts|, k requires 0 <= k < |m.parts| => (m.parts[k].time, m.parts[k].duration))
      else [(m.time, m.duration)]
  }

  /** `used` and `skipped` together are the timed tokens, each exactly once and both in pool order. */
  ghost predicate Partitions(qq: seq<QQToken>, used: seq<(int, int)>, skipped: seq<QQToken>) {
    if qq == [] then used == [] && skipped == []
    else
      var front, x := qq[..|qq| - 1], qq[|qq| - 1];
      || (used != [] && used[|used| - 1] == (x.time, x.duration) && Partitions(front, used[..|used| - 1], skipped))
      || (skipped != [] && skipped[|skipped| - 1] == x && Partitions(front, used, skipped[..|skipped| - 1]))
  }

  /** Every merge head is followed by exactly the slots it absorbs, and nothing else is absorbed. */
  ghost predicate WellFormed(slots: seq<Slot>) {
    if slots == [] then true
    else match slots[0]
      case None => WellFormed(slots[1..])
      case Some(m) =>
        && !m.absorbed
        && if m.mergeCount > 1 then
             && m.mergeCount <= |slots| && m.parts == []
             && (forall k | 1 <= k < m.mergeCount :: slots[k] == Some(ABSORBED))
             && WellFormed(slots[m.mergeCount..])
           else WellFormed(slots[1..])
  }

  lemma {:induction false} WellFormedAppend(xs: seq<Slot>, ys: seq<Slot>)
    requires WellFormed(xs) && WellFormed(ys)
    ensures WellFormed(xs + ys)
  {
    if xs == [] {
      assert xs + ys == ys;
    } else {
      var n := if xs[0].Some? && xs[0].value.mergeCount > 1 then xs[0].value.mergeCount else 1;
      WellFormedAppend(xs[n..], ys);
      assert (xs + ys)[n..] == xs[n..] + ys;
    }
  }

  lemma {:induction false} UsesAppend(xs: seq<Slot>, ys: seq<Slot>)
    ensures Uses(xs + ys) == Uses(xs) + Uses(ys)
  {
    hide SlotUses;
    if xs == [] {
      assert xs + ys == ys;
    } else {
      UsesAppend(xs[1..], ys);
      var all := xs + ys;
      assert all[0] == xs[0] && all[1..] == xs[1..] + ys;
    }
  }

  lemma {:induction false} UsesAbsorbed(n: nat)
    ensures Uses(seq(n, _ => Some(ABSORBED))) == []
  {
    if n > 0 {
      UsesAbsorbed(n - 1);
      assert seq(n, _ => Some(ABSORBED))[1..] == seq(n - 1, _ => Some(ABSORBED));
    }
  }

  function Timings(run: seq<QQToken>): seq<(int, int)> {
    seq(|run|, k requires 0 <= k < |run| => (run[k].time, run[k].duration))
  }

  lemma {:induction false} PartitionsTake(qq: seq<QQToken>, run: seq<QQToken>, used: seq<(int, int)>,
                                          skipped: seq<QQToken>)
    requires Partitions(qq, used, skipped)
    ensures Partitions(qq + run, used + Timings(run), skipped)
  {
    if run == [] {
      assert qq + run == qq && used + Timings(run) == used;
    } else {
      var front := run[..|run| - 1];
      PartitionsTake(qq, front, used, skipped);
      assert (qq + run)[..|qq + run| - 1] == qq + front;
      assert (used + Timings(run))[..|used + Timings(run)| - 1] == used + Timings(front);
    }
  }

  lemma OpSlotsMean(p: Problem, a: nat, q: nat, o: Op)
    requires Known(p, a, q, o)
    ensures WellFormed(OpSlots(p, o, q + o.Dq())) && |OpSlots(p, o, q + o.Dq())| == o.Da()
    ensures Uses(OpSlots(p, o, q + o.Dq())) == if o.Match? then Timings(p.qq[q..q + o.dq]) else []
  {
    var slots := OpSlots(p, o, q + o.Dq());
    if o.Match? && o.da >= 2 {
      UsesAbsorbed(o.da - 1);
      assert slots[1..] == seq(o.da - 1, _ => Some(ABSORBED));
      assert slots[o.da..] == [] && WellFormed(slots[o.da..]);
      assert slots[0].value.mergeCount == o.da && slots[0].value.parts == [];
      assert p.qq[q..q + 1] == [p.qq[q]];
      assert Uses(slots) == [(p.qq[q].time, p.qq[q].duration)] + [];
    } else if !o.SkipQQ? {
      assert slots == [slots[0]] && slots[1..] == [] && WellFormed(slots[1..]);
      assert slots[0].Some? ==> slots[0].value.mergeCount == 0;
      assert Uses(slots) == SlotUses(slots[0]) + [];
    } else {
      assert slots == [];
    }
  }

  lemma PartitionsSkip(qq: seq<QQToken>, x: QQToken, used: seq<(int, int)>, skipped: seq<QQToken>)
    requires Partitions(qq, used, skipped)
    ensures Partitions(qq + [x], used, skipped + [x])
  {
    assert (qq + [x])[..|qq|] == qq && (skipped + [x])[..|skipped|] == skipped;
  }

  /** One more operation extends the part of the pool accounted for. */
  lemma PartitionsStep(p: Problem, a: nat, q: nat, o: Op, used: seq<(int, int)>, skipped: seq<QQToken>)
    requires Known(p, a, q, o) && Partitions(p.qq[..q], used, skipped)
    ensures Partitions(p.qq[..q + o.Dq()],
                       used + if o.Match? then Timings(p.qq[q..q + o.dq]) else [],
                       skipped + if o.SkipQQ? then [p.qq[q]] else [])
  {
    assert used + [] == used && skipped + [] == skipped;
    if o.Match? {
      PartitionsTake(p.qq[..q], p.qq[q..q + o.dq], used, skipped);
      assert p.qq[..q] + p.qq[q..q + o.dq] == p.qq[..q + o.dq];
    } else if o.SkipQQ? {
      PartitionsSkip(p.qq[..q], p.qq[q], used, skipped);
      assert p.qq[..q] + [p.qq[q]] == p.qq[..q + 1];
    }
  }

  /** A path made of skips and the two kinds of match, within the tokens. */
  ghost predicate KnownPath(p: Problem, path: Path) {
    path.Step? ==> KnownPath(p, path.prev) && Known(p, path.prev.EndA(), path.prev.EndQ(), path.op)
  }

  lemma {:induction false} LegalIsKnown(p: Problem, g: Graph, path: Path)
    requires OnlyKnown(p, g) && Legal(g, path)
    ensures KnownPath(p, path)
  {
    if path.Step? {
      LegalIsKnown(p, g, path.prev);
    }
  }

  lemma {:induction false} PathSlots(p: Problem, path: Path)
    requires KnownPath(p, path)
    ensures path.EndA() <= |p.apple| && path.EndQ() <= |p.qq| && |Slots(p, path)| == path.EndA()
    ensures WellFormed(Slots(p, path))
  {
    if path.Step? {
      PathSlots(p, path.prev);
      OpSlotsMean(p, path.prev.EndA(), path.prev.EndQ(), path.op);
      WellFormedAppend(Slots(p, path.prev), OpSlots(p, path.op, path.EndQ()));
    } else {
      assert WellFormed([]);
    }
  }

  lemma ExtendUses(slots: seq<Slot>, before: seq<Slot>, more: seq<Slot>)
    requires slots == before + more
    ensures Uses(slots) == Uses(before) + Uses(more)
  {
    UsesAppend(before, more);
  }

  lemma PathStart(p: Problem, path: Path)
    requires path.Start?
    ensures path.EndQ() == 0 && Partitions(p.qq[..0], Uses(Slots(p, path)), Skipped(p, path))
  {
    assert p.qq[..0] == [];
  }

  lemma PathStep(p: Problem, path: Path)
    requires KnownPath(p, path) && path.Step? && path.EndQ() <= |p.qq| && path.prev.EndQ() <= |p.qq|
    ensures KnownPath(p, path.prev) && Known(p, path.prev.EndA(), path.prev.EndQ(), path.op)
    ensures path.EndQ() == path.prev.EndQ() + path.op.Dq()
    ensures Slots(p, path) == Slots(p, path.prev) + OpSlots(p, path.op, path.EndQ())
    ensures Skipped(p, path) == Skipped(p, path.prev) + if path.op.SkipQQ? then [p.qq[path.EndQ() - 1]] else []
  {
    hide OpSlots;
  }

  /** The slots of a path and its skipped tokens use the pool up, in order. */
  lemma {:induction false} PathPartitions(p: Problem, path: Path)
    requires KnownPath(p, path)
    ensures path.EndQ() <= |p.qq|
    ensures Partitions(p.qq[..path.EndQ()], Uses(Slots(p, path)), Skipped(p, path))
  {
    hide *;
    PathSlots(p, path);
    if path.Step? {
      KnownBefore(p, path);
      PathPartitions(p, path.prev);
      PartitionsAlong(p, path);
    } else {
      PathStart(p, path);
    }
  }

  lemma KnownBefore(p: Problem, path: Path)
    requires KnownPath(p, path) && path.Step?
    ensures KnownPath(p, path.prev) && Known(p, path.prev.EndA(), path.prev.EndQ(), path.op)
  {
    hide Known;
  }

  lemma PartitionsAlong(p: Problem, path: Path)
    requires KnownPath(p, path) && path.Step? && path.EndQ() <= |p.qq| && path.prev.EndQ() <= |p.qq|
    requires Partitions(p.qq[..path.prev.EndQ()], Uses(Slots(p, path.prev)), Skipped(p, path.prev))
    ensures Partitions(p.qq[..path.EndQ()], Uses(Slots(p, path)), Skipped(p, path))
  {
    hide *;
    var a, q, o := path.prev.EndA(), path.prev.EndQ(), path.op;
    PathStep(p, path);
    OpSlotsMean(p, a, q, o);
    ExtendUses(Slots(p, path), Slots(p, path.prev), OpSlots(p, o, q + o.Dq()));
    PartitionsStep(p, a, q, o, Uses(Slots(p, path.prev)), Skipped(p, path.prev));
    if o.SkipQQ? { LastSkipped(p, q, o); }
  }

  lemma LastSkipped(p: Problem, q: nat, o: Op)
    requires q + o.Dq() <= |p.qq| && o.SkipQQ?
    ensures p.qq[q + o.Dq() - 1] == p.qq[q]
  {
  }

  lemma GraphKnown(p: Problem)
    ensures OnlyKnown(p, GraphOf(p))
  {
  }

  /** Some whole alignment costs less than the cap. */
  ghost predicate Affordable(p: Problem) {
    exists path :: Complete(GraphOf(p), path) && PathCost(GraphOf(p), path) < INF_COST
  }

  lemma SmallIsAffordable(p: Problem)
    requires GAP_APPLE * |p.apple| as real + GAP_QQ * |p.qq| as real < INF_COST
    ensures Affordable(p)
  {
    var path := SkipAll(p, |p.apple|, |p.qq|);
    assert Complete(GraphOf(p), path);
  }

  lemma {:induction false} NoSlotsWellFormed(slots: seq<Slot>)
    requires forall i | 0 <= i < |slots| :: slots[i] == None
    ensures WellFormed(slots)
  {
    if slots != [] {
      NoSlotsWellFormed(slots[1..]);
    }
  }

  /** alignTokensToQQ: slots for the line tokens and the unused timed tokens. */
  method AlignTokensToQQ(p: Problem) returns (matches: array<Slot>, residuals: seq<QQToken>, ghost path: Path)
    requires p.Scored()
    ensures fresh(matches) && matches.Length == |p.apple|
    ensures |p.apple| == 0 ==> residuals == p.qq
    ensures |p.qq| == 0 ==> residuals == []
    ensures |p.qq| == 0 || !Affordable(p) ==> forall i | 0 <= i < |p.apple| :: matches[i] == None
    ensures |p.apple| > 0 && |p.qq| > 0 && Affordable(p) ==>
              && Optimal(GraphOf(p), path) && PathCost(GraphOf(p), path) < INF_COST
              && matches[..] == Slots(p, path) && residuals == SortBySeq(Reversed(Skipped(p, path)))
              && (StrictlyOrdered(p.qq) ==> residuals == Skipped(p, path))
    ensures |p.apple| > 0 && |p.qq| > 0 && Affordable(p) && StrictlyOrdered(p.qq) ==>
            Partitions(p.qq, Uses(matches[..]), residuals)
    ensures |p.apple| > 0 && !Affordable(p) ==> residuals == []
    ensures WellFormed(matches[..])
  {
    var A, Q := |p.apple|, |p.qq|;
    path := Start;
    if A == 0 || Q == 0 {
      matches := new Slot[A](_ => None);
      residuals := if A == 0 then p.qq else [];
      NoSlotsWellFormed(matches[..]);
      return;
    }
    ghost var g := GraphOf(p);
    GraphKnown(p);
    GraphNonNegative(p);
    var t: array2<Cell>;
    ghost var done;
    t, done := FillTable(p, g);
    assert Priced(g, t, done, A, Q);
    ghost var reached := t[A, Q].cost < INF_COST;
    if reached {
      path := PathTo(g, t, done, A, Q);
      PathFollows(p, g, t, done, A, Q);
      LegalIsKnown(p, g, path);
      PathSlots(p, path);
      PathPartitions(p, path);
    }
    forall other | Complete(g, other) ensures t[A, Q].cost <= PathCost(g, other) {
      TableIsLowerBound(g, t, done, other);
    }
    matches, residuals := Traceback(p, t, path);
    residuals := SortBySeq(residuals);
    if reached {
      assert p.qq[..Q] == p.qq;
      if StrictlyOrdered(p.qq) {
        SkippedOrdered(p, path);
        SortReversed(Skipped(p, path));
      }
    } else {
      NoSlotsWellFormed(matches[..]);
    }
  }
}
