/** The provider race (internal/orchestrator/race.go) as a machine over interleaved steps.

    One race asks its sources in up to two phases.  Every launched source runs as its own
    goroutine, and the phase, the caller and the clock act in between in any order.  A run
    is any sequence of enabled events; what holds in every reachable state is proved as an
    inductive invariant.  Sources are numbered in race order, which presumes distinct names. */
module Race {
  import opened Wrappers
  import opened NegativeCache
  import Grading

  /** What one fetch came to.  `Unconfigured` is the early way out of tryFetch. */
  datatype Verdict = Ok(priority: nat) | CleanMiss | Unhealthy | TimedOut | Cancelled | Unconfigured
  {
    predicate Valid() { Ok? ==> Grading.UNSYNCED <= priority <= Grading.WORD }

    predicate Degrades() { Unhealthy? || TimedOut? }

    function Label(): Label {
      match this
      case Ok(_) => OK
      case CleanMiss => BAD
      case Unhealthy => BAD
      case TimedOut => RTO
      case Cancelled => CANCEL
      case Unconfigured => SKIP
    }

    /** The entry a finished fetch leaves in the status map. */
    function Final(): Outcome { Outcome(Label(), Degrades()) }
  }

  /** Why a source was passed over before it was launched. */
  datatype Why = Unknown | NotConfigured | BreakerOpen | Overloaded

  /** Where a source is on its way through a phase. */
  datatype Pc =
    | Idle
    | Left(why: Why)
    | Ready
    | Checked
    | ReleasedEarly
    | Fetching
    | Fetched(v: Verdict)
    | Recorded(v: Verdict)
    | Marked(v: Verdict)
    | Settled(v: Verdict)
    | Returned(v: Verdict)
    | Sent(v: Verdict)
    | Exited(v: Verdict)

  /** A source with a count of what was done on its behalf: breaker admissions, breaker reports
      (good, bad or neutral), permits granted and permits released. */
  datatype Task = Task(pc: Pc, admitted: nat, reported: nat, granted: nat, released: nat)

  /** One phase: its goroutines, its result channel (capacity: the number launched) and its context. */
  datatype Phase = Phase(
    launched: set<nat>,
    started: bool,
    channel: seq<nat>,
    sent: set<nat>,
    received: set<nat>,
    exited: set<nat>,
    active: int,
    cancelled: bool,
    stopUsed: bool,
    timerArmed: bool,
    winnerFound: bool)

  datatype Stage = Launching(p: nat, next: nat) | Collecting(p: nat) | Finished(winner: Option<nat>)

  datatype State = State(
    first: nat,                   // sources asked in phase one
    lineOnly: set<nat>,           // sources left out when only a word-synced answer is wanted
    tasks: seq<Task>,
    status: map<nat, Outcome>,
    phases: seq<Phase>,
    best: Option<nat>,            // the answer of phase one
    stage: Stage,
    callerGone: bool,
    exhausted: bool)              // no phase was cut short
  {
    predicate Sized() { first <= |tasks| && |phases| == 2 }

    function PhaseOf(i: nat): nat { if i < first then 0 else 1 }

    function Until(p: nat): nat { if p == 0 then first else |tasks| }

    /** Priority of an answer; 0 for everything that is not one. */
    function Prio(i: nat): nat {
      if i < |tasks| && (tasks[i].pc.Sent? || tasks[i].pc.Exited?) && tasks[i].pc.v.Ok? then tasks[i].pc.v.priority
      else 0
    }

    function PrioOf(w: Option<nat>): nat { match w case Some(i) => Prio(i) case None => 0 }

    /** Phase two asks only for a word-synced answer when phase one found a line-synced one. */
    predicate WordOnly(p: nat) { p == 1 && PrioOf(best) == Grading.LINE }
  }

  datatype Choice = Excluded | LeftOut(why: Why) | Granted

  datatype Event =
    | Consider(choice: Choice)
    | Launch
    | Check(i: nat, configured: bool)
    | RecordSkip(i: nat)
    | Wait(i: nat)
    | Fetch(i: nat, v: Verdict)
    | RecordVerdict(i: nat)
    | MarkDegraded(i: nat)
    | TellBreaker(i: nat)
    | Release(i: nat)
    | Send(i: nat)
    | Exit(i: nat)
    | CallerGone
    | Monitor(p: nat)
    | Timer(p: nat)
    | Deadline(p: nat)
    | Receive
    | Exhaust(w: Option<nat>)
    | SeeCallerGone(w: Option<nat>)

  // ---- single operations ------------------------------------------------------------

  /** raceSession.record: a good answer is never overwritten. */
  function Record(status: map<nat, Outcome>, i: nat, word: Label): map<nat, Outcome> {
    if i in status && status[i].word == OK then status else status[i := Outcome(word, false)]
  }

  /** raceSession.markDegraded. */
  function Degrade(status: map<nat, Outcome>, i: nat): map<nat, Outcome> {
    if i in status && status[i].word != OK then status[i := status[i].(degraded := true)] else status
  }

  /** stopPhaseAfter: once only, and at once when no grace is given or nobody is left to wait for.  That somebody leaves
      between the look at the counter and the arming of the timer comes to the same as leaving after it, and the second
      look, which cancels at once, to a timer that fires at once. */
  function StopPhase(ph: Phase, grace: bool): Phase {
    if ph.stopUsed then ph
    else if !grace || ph.active <= 0 then ph.(stopUsed := true, cancelled := true)
    else ph.(stopUsed := true, timerArmed := true)
  }

  function MarkWinner(ph: Phase): Phase { StopPhase(ph.(winnerFound := true), true) }

  function AddLaunched(ph: Phase, i: nat): Phase { ph.(launched := ph.launched + {i}, active := ph.active + 1) }

  function PutSent(ph: Phase, i: nat): Phase { ph.(channel := ph.channel + [i], sent := ph.sent + {i}) }

  /** The last goroutine to leave cancels the context. */
  function PutExited(ph: Phase, i: nat): Phase {
    ph.(exited := ph.exited + {i}, active := ph.active - 1, cancelled := ph.cancelled || ph.active - 1 <= 0)
  }

  function Take(ph: Phase): Phase
    requires ph.channel != []
  {
    ph.(channel := ph.channel[1..], received := ph.received + {ph.channel[0]})
  }

  function WithTask(s: State, i: nat, t: Task): State
    requires i < |s.tasks|
  {
    s.(tasks := s.tasks[i := t])
  }

  function Move(s: State, i: nat, pc: Pc): State
    requires i < |s.tasks|
  {
    WithTask(s, i, s.tasks[i].(pc := pc))
  }

  function WithPhase(s: State, p: nat, ph: Phase): State
    requires p < |s.phases|
  {
    s.(phases := s.phases[p := ph])
  }

  /** What pickWinner promises: a best answer, and none only when there is no answer at all. */
  ghost predicate IsPick(s: State, among: set<nat>, w: Option<nat>) {
    match w
    case None => forall i <- among :: s.Prio(i) == 0
    case Some(x) => x in among && s.Prio(x) >= 1 && forall i <- among :: s.Prio(i) <= s.Prio(x)
  }

  /** What Race does with the answer of a phase. */
  function AfterPhase(s: State, p: nat, w: Option<nat>): State {
    if p == 0 then
      if s.PrioOf(w) >= Grading.WORD || s.first == |s.tasks| then s.(best := w, stage := Finished(w))
      else if s.callerGone then s.(best := w, stage := Finished(w), exhausted := false)
      else s.(best := w, stage := Launching(1, s.first))
    else
      s.(stage := Finished(if w.Some? && (s.best.None? || s.PrioOf(w) > s.PrioOf(s.best)) then w else s.best))
  }

  // ---- steps ---------------------------------------------------------------------------

  /** Steps a fetch takes on its own. */
  predicate IsTaskStep(e: Event) {
    || e.Check? || e.RecordSkip? || e.Wait? || e.Fetch?
    || e.RecordVerdict? || e.MarkDegraded? || e.TellBreaker? || e.Release?
  }

  predicate TaskEnabled(pc: Pc, e: Event)
    requires IsTaskStep(e)
  {
    match e
    case Check(_, _) => pc == Ready
    case RecordSkip(_) => pc == ReleasedEarly
    case Wait(_) => pc == Checked
    case Fetch(_, v) => pc == Fetching && v.Valid() && !v.Unconfigured?
    case RecordVerdict(_) => pc.Fetched?
    case MarkDegraded(_) => pc.Recorded? && pc.v.Degrades()
    case TellBreaker(_) => pc.Marked? || (pc.Recorded? && !pc.v.Degrades())
    case Release(_) => pc.Settled?
  }

  function NextTask(t: Task, e: Event): Task
    requires IsTaskStep(e) && TaskEnabled(t.pc, e)
  {
    match e
    case Check(_, configured) =>
      if configured then t.(pc := Checked) else t.(pc := ReleasedEarly, released := t.released + 1)
    case RecordSkip(_) => t.(pc := Returned(Unconfigured))
    case Wait(_) => t.(pc := Fetching)
    case Fetch(_, v) => t.(pc := Fetched(v))
    case RecordVerdict(_) => t.(pc := Recorded(t.pc.v))
    case MarkDegraded(_) => t.(pc := Marked(t.pc.v))
    case TellBreaker(_) => t.(pc := Settled(t.pc.v), reported := t.reported + 1)
    case Release(_) => t.(pc := Returned(t.pc.v), released := t.released + 1)
  }

  function NextStatus(status: map<nat, Outcome>, pc: Pc, e: Event): map<nat, Outcome>
    requires IsTaskStep(e) && TaskEnabled(pc, e)
  {
    match e
    case RecordSkip(i) => Record(status, i, SKIP)
    case Wait(i) => Record(status, i, WAIT)
    case RecordVerdict(i) => Record(status, i, pc.v.Label())
    case MarkDegraded(i) => Degrade(status, i)
    case _ => status
  }

  /** The launching loop passes a source over or takes it in. */
  function ChosenTask(t: Task, choice: Choice): Task {
    match choice
    case Excluded => t
    case LeftOut(Overloaded) => t.(pc := Left(Overloaded), admitted := t.admitted + 1, reported := t.reported + 1)
    case LeftOut(why) => t.(pc := Left(why))
    case Granted => t.(pc := Ready, admitted := t.admitted + 1, granted := t.granted + 1)
  }

  function ChosenStatus(status: map<nat, Outcome>, i: nat, choice: Choice): map<nat, Outcome> {
    match choice
    case LeftOut(NotConfigured) => Record(status, i, SKIP)
    case LeftOut(BreakerOpen) => Degrade(Record(status, i, SKIP), i)
    case LeftOut(Overloaded) => Degrade(Record(status, i, SKIP), i)
    case _ => status
  }

  ghost predicate Enabled(s: State, e: Event)
    requires s.Sized()
  {
    if IsTaskStep(e) then
      e.i < |s.tasks| && TaskEnabled(s.tasks[e.i].pc, e) && (e.Check? ==> s.phases[s.PhaseOf(e.i)].started)
    else match e
      case Consider(choice) =>
        && s.stage.Launching? && s.stage.p < 2 && s.stage.next < s.Until(s.stage.p)
        && (choice.Excluded? <==> s.WordOnly(s.stage.p) && s.stage.next in s.lineOnly)
      case Launch => s.stage.Launching? && s.stage.p < 2 && s.stage.next == s.Until(s.stage.p)
      case Send(i) => i < |s.tasks| && s.tasks[i].pc.Returned?
      case Exit(i) => i < |s.tasks| && s.tasks[i].pc.Sent?
      case CallerGone => true
      case Monitor(p) => p < 2 && s.callerGone && s.phases[p].started
      case Timer(p) => p < 2 && s.phases[p].timerArmed
      case Deadline(p) => p < 2 && s.phases[p].started
      case Receive => s.stage.Collecting? && s.stage.p < 2 && s.phases[s.stage.p].channel != []
      case Exhaust(w) =>
        && s.stage.Collecting? && s.stage.p < 2
        && |s.phases[s.stage.p].received| == |s.phases[s.stage.p].launched|
        && if s.WordOnly(s.stage.p) then w == None else IsPick(s, s.phases[s.stage.p].received, w)
      case SeeCallerGone(w) =>
        && s.callerGone && s.stage.Collecting? && s.stage.p < 2
        && |s.phases[s.stage.p].received| < |s.phases[s.stage.p].launched|
        && if s.WordOnly(s.stage.p) then w == None else IsPick(s, s.phases[s.stage.p].received, w)
  }

  function Step(s: State, e: Event): State
    requires s.Sized() && Enabled(s, e)
  {
    if IsTaskStep(e) then
      var t := s.tasks[e.i];
      s.(tasks := s.tasks[e.i := NextTask(t, e)], status := NextStatus(s.status, t.pc, e))
    else match e
      case Consider(choice) =>
        var p, i := s.stage.p, s.stage.next;
        s.(stage := Launching(p, i + 1), tasks := s.tasks[i := ChosenTask(s.tasks[i], choice)],
           status := ChosenStatus(s.status, i, choice),
           phases := if choice.Granted? then s.phases[p := AddLaunched(s.phases[p], i)] else s.phases)
      case Launch =>
        var p := s.stage.p;
        if s.phases[p].launched == {} then AfterPhase(s, p, None)
        else WithPhase(s, p, s.phases[p].(started := true)).(stage := Collecting(p))
      case Send(i) =>
        WithPhase(Move(s, i, Sent(s.tasks[i].pc.v)), s.PhaseOf(i), PutSent(s.phases[s.PhaseOf(i)], i))
      case Exit(i) =>
        WithPhase(Move(s, i, Exited(s.tasks[i].pc.v)), s.PhaseOf(i), PutExited(s.phases[s.PhaseOf(i)], i))
      case CallerGone => s.(callerGone := true)
      case Monitor(p) => WithPhase(s, p, StopPhase(s.phases[p], s.phases[p].winnerFound))
      case Timer(p) => WithPhase(s, p, s.phases[p].(timerArmed := false, cancelled := true))
      case Deadline(p) => WithPhase(s, p, s.phases[p].(cancelled := true))
      case Receive =>
        var p := s.stage.p;
        var i, taken := s.phases[p].channel[0], Take(s.phases[p]);
        if s.Prio(i) >= Grading.WORD then AfterPhase(WithPhase(s, p, MarkWinner(taken)), p, Some(i))
        else WithPhase(s, p, taken)
      case Exhaust(w) =>
        var p := s.stage.p;
        var ph := s.phases[p];
        AfterPhase(WithPhase(s, p, if w.Some? then MarkWinner(ph) else ph.(cancelled := true)), p, w)
      case SeeCallerGone(w) =>
        var p := s.stage.p;
        AfterPhase(WithPhase(s, p, StopPhase(s.phases[p], false)).(exhausted := false), p, w)
  }

  // ---- the invariant -----------------------------------------------------------------------

  predicate Counts(t: Task, admitted: nat, reported: nat, granted: nat, released: nat) {
    t.admitted == admitted && t.reported == reported && t.granted == granted && t.released == released
  }

  predicate Says(status: map<nat, Outcome>, i: nat, o: Outcome) { i in status && status[i] == o }

  /** Where a source is fits what its phase has noted about it. */
  predicate Placed(t: Task, ph: Phase, i: nat) {
    && (i in ph.launched <==> !t.pc.Idle? && !t.pc.Left?)
    && (i in ph.sent <==> t.pc.Sent? || t.pc.Exited?)
    && (i in ph.exited <==> t.pc.Exited?)
    && (i in ph.launched && !t.pc.Ready? ==> ph.started)
  }

  /** What has been done on behalf of one source, and what the status map says of it, at each point. */
  predicate Accounted(t: Task, status: map<nat, Outcome>, i: nat) {
    match t.pc
    case Idle => Counts(t, 0, 0, 0, 0) && i !in status
    case Left(Unknown) => Counts(t, 0, 0, 0, 0) && i !in status
    case Left(NotConfigured) => Counts(t, 0, 0, 0, 0) && Says(status, i, Outcome(SKIP, false))
    case Left(BreakerOpen) => Counts(t, 0, 0, 0, 0) && Says(status, i, Outcome(SKIP, true))
    case Left(Overloaded) => Counts(t, 1, 1, 0, 0) && Says(status, i, Outcome(SKIP, true))
    case Ready => Counts(t, 1, 0, 1, 0) && i !in status
    case Checked => Counts(t, 1, 0, 1, 0) && i !in status
    case ReleasedEarly => Counts(t, 1, 0, 1, 1) && i !in status
    case Fetching => Counts(t, 1, 0, 1, 0) && Says(status, i, Outcome(WAIT, false))
    case Fetched(v) => Counts(t, 1, 0, 1, 0) && Says(status, i, Outcome(WAIT, false)) && v.Valid() && !v.Unconfigured?
    case Recorded(v) =>
      Counts(t, 1, 0, 1, 0) && Says(status, i, Outcome(v.Label(), false)) && v.Valid() && !v.Unconfigured?
    case Marked(v) => Counts(t, 1, 0, 1, 0) && Says(status, i, v.Final()) && v.Degrades()
    case Settled(v) => Counts(t, 1, 1, 1, 0) && Says(status, i, v.Final()) && v.Valid() && !v.Unconfigured?
    case Returned(v) => Counts(t, 1, if v.Unconfigured? then 0 else 1, 1, 1) && Says(status, i, v.Final()) && v.Valid()
    case Sent(v) => Counts(t, 1, if v.Unconfigured? then 0 else 1, 1, 1) && Says(status, i, v.Final()) && v.Valid()
    case Exited(v) => Counts(t, 1, if v.Unconfigured? then 0 else 1, 1, 1) && Says(status, i, v.Final()) && v.Valid()
  }

  predicate TaskOk(s: State, i: nat)
    requires s.Sized() && i < |s.tasks|
  {
    Placed(s.tasks[i], s.phases[s.PhaseOf(i)], i) && Accounted(s.tasks[i], s.status, i)
  }

  ghost predicate TasksOk(s: State)
    requires s.Sized()
  {
    forall i | 0 <= i < |s.tasks| :: TaskOk(s, i)
  }

  /** The channel holds what was sent and not yet received, and the context ends with the last goroutine. */
  ghost predicate PhaseInv(ph: Phase, lo: nat, hi: nat) {
    && (forall i <- ph.launched :: lo <= i < hi)
    && ph.received <= ph.sent <= ph.launched && ph.exited <= ph.sent
    && (forall i :: i in ph.channel <==> i in ph.sent && i !in ph.received)
    && (forall a, b | 0 <= a < b < |ph.channel| :: ph.channel[a] != ph.channel[b])
    && |ph.channel| + |ph.received| == |ph.sent|
    && ph.active == |ph.launched| - |ph.exited|
    && (!ph.started ==> ph.sent == {})
    && (ph.started && ph.launched != {} && ph.exited == ph.launched ==> ph.cancelled)
  }

  ghost predicate PhaseOk(s: State, p: nat)
    requires s.Sized() && p < 2
  {
    PhaseInv(s.phases[p], if p == 0 then 0 else s.first, s.Until(p))
  }

  /** Every source before `upto` has been considered by its launching loop. */
  ghost predicate Considered(s: State, upto: nat)
    requires s.Sized() && upto <= |s.tasks|
  {
    forall i | 0 <= i < upto :: !s.tasks[i].pc.Idle? || (i >= s.first && s.WordOnly(1) && i in s.lineOnly)
  }

  /** No source from `from` on has been considered. */
  ghost predicate Untouched(s: State, from: nat) {
    forall i | from <= i < |s.tasks| :: s.tasks[i].pc.Idle?
  }

  /** Phase one is over and `best` is its answer. */
  ghost predicate FirstOver(s: State)
    requires s.Sized()
  {
    && IsPick(s, s.phases[0].received, s.best)
    && Considered(s, s.first)
    && (s.exhausted && s.PrioOf(s.best) < Grading.WORD ==> s.phases[0].received == s.phases[0].launched)
  }

  ghost predicate NoWord(s: State, p: nat)
    requires s.Sized() && p < 2
  {
    forall i <- s.phases[p].received :: s.Prio(i) < Grading.WORD
  }

  ghost predicate StageOk(s: State)
    requires s.Sized()
  {
    match s.stage
    case Launching(p, next) =>
      && p < 2 && next <= s.Until(p) && !s.phases[p].started && s.phases[p].received == {}
      && Considered(s, next) && Untouched(s, next)
      && (p == 0 ==>
            && s.phases[1].launched == s.phases[1].received == {} && !s.phases[1].started
            && s.best == None && s.exhausted)
      && (p == 1 ==> s.first <= next && FirstOver(s) && s.PrioOf(s.best) < Grading.WORD)
    case Collecting(p) =>
      && p < 2 && s.phases[p].started && s.phases[p].launched != {}
      && Considered(s, s.Until(p)) && Untouched(s, s.Until(p)) && NoWord(s, p)
      && (p == 0 ==>
            && s.phases[1].launched == s.phases[1].received == {} && !s.phases[1].started
            && s.best == None && s.exhausted)
      && (p == 1 ==> FirstOver(s) && s.PrioOf(s.best) < Grading.WORD)
    case Finished(w) =>
      && IsPick(s, s.phases[0].received + s.phases[1].received, w) && IsPick(s, s.phases[0].received, s.best)
      && (s.exhausted && w.None? ==>
            && Considered(s, |s.tasks|) && s.best.None?
            && s.phases[0].received == s.phases[0].launched && s.phases[1].received == s.phases[1].launched)
  }

  ghost predicate Inv(s: State) {
    s.Sized() && TasksOk(s) && PhaseOk(s, 0) && PhaseOk(s, 1) && StageOk(s)
  }

  const NEW_PHASE := Phase({}, false, [], {}, {}, {}, 0, false, false, false, false)

  /** Any number of sources; the first two make up phase one. */
  function Start(n: nat, lineOnly: set<nat>): State {
    State(if n > 2 then 2 else n, lineOnly, seq(n, _ => Task(Idle, 0, 0, 0, 0)), map[],
          [NEW_PHASE, NEW_PHASE], None, Launching(0, 0), false, true)
  }

  lemma {:induction false} StartInv(n: nat, lineOnly: set<nat>)
    ensures Inv(Start(n, lineOnly))
  {
  }

  // ---- every step keeps the invariant ----------------------------------------------------------

  /** Priorities seen so far are the same in both states. */
  ghost predicate SamePrio(s: State, s': State)
    requires s.Sized() && s'.Sized()
  {
    forall i | i in s.phases[0].received || i in s.phases[1].received || s.best == Some(i) :: s'.Prio(i) == s.Prio(i)
  }

  /** Nothing the stage depends on differs, other than priorities. */
  ghost predicate Steady(s: State, s': State)
    requires s.Sized() && s'.Sized()
  {
    && s'.first == s.first && s'.lineOnly == s.lineOnly && s'.stage == s.stage && s'.best == s.best
    && s'.exhausted == s.exhausted && |s'.tasks| == |s.tasks|
    && (forall p | 0 <= p < 2 ::
          && s'.phases[p].received == s.phases[p].received && s'.phases[p].launched == s.phases[p].launched
          && s'.phases[p].started == s.phases[p].started)
    && (forall i | 0 <= i < |s.tasks| :: s'.tasks[i].pc.Idle? <==> s.tasks[i].pc.Idle?)
  }

  lemma {:induction false} StageKept(s: State, s': State)
    requires s.Sized() && s'.Sized() && StageOk(s) && Steady(s, s') && SamePrio(s, s')
    requires match s.stage case Finished(Some(w)) => s'.Prio(w) == s.Prio(w) case _ => true
    ensures StageOk(s')
  {
  }

  lemma {:induction false} TaskOf(s: State, i: nat)
    requires s.Sized() && TasksOk(s) && i < |s.tasks|
    ensures TaskOk(s, i)
  {
  }

  /** A step that touches one source leaves what is known of the others. */
  ghost predicate OnlyTouches(s: State, s': State, i: nat)
    requires s.Sized() && s'.Sized() && i < |s.tasks|
  {
    && s'.first == s.first && |s'.tasks| == |s.tasks|
    && (forall j | 0 <= j < |s.tasks| && j != i :: s'.tasks[j] == s.tasks[j])
    && (forall j | j != i :: (j in s'.status <==> j in s.status) && (j in s.status ==> s'.status[j] == s.status[j]))
    && (forall p, j | 0 <= p < 2 && j != i ::
          && (j in s'.phases[p].launched <==> j in s.phases[p].launched)
          && (j in s'.phases[p].sent <==> j in s.phases[p].sent)
          && (j in s'.phases[p].exited <==> j in s.phases[p].exited))
    && (forall p | 0 <= p < 2 :: s.phases[p].started ==> s'.phases[p].started)
  }

  lemma {:induction false} OthersOk(s: State, s': State, i: nat)
    requires s.Sized() && s'.Sized() && i < |s.tasks| && OnlyTouches(s, s', i) && TasksOk(s) && TaskOk(s', i)
    ensures TasksOk(s')
  {
    forall j | 0 <= j < |s'.tasks| ensures TaskOk(s', j) {
      assert TaskOk(s, j);
      if j != i { AccountedSame(s.tasks[j], s.status, s'.status, j); }
      hide Accounted;
    }
  }

  lemma AccountedSame(t: Task, status: map<nat, Outcome>, status': map<nat, Outcome>, i: nat)
    requires Accounted(t, status, i) && (i in status' <==> i in status) && (i in status ==> status'[i] == status[i])
    ensures Accounted(t, status', i)
  {
  }

  lemma NextPlaced(t: Task, e: Event, ph: Phase, i: nat)
    requires IsTaskStep(e) && TaskEnabled(t.pc, e) && (e.Check? ==> ph.started) && Placed(t, ph, i)
    ensures Placed(NextTask(t, e), ph, i)
  {
  }

  lemma NextAccounted(t: Task, e: Event, status: map<nat, Outcome>)
    requires IsTaskStep(e) && TaskEnabled(t.pc, e) && Accounted(t, status, e.i)
    ensures Accounted(NextTask(t, e), NextStatus(status, t.pc, e), e.i)
  {
  }

  /** A step of a fetch rewrites its own task, at a point before anything is sent, and its own status. */
  lemma OwnStepIs(s: State, e: Event)
    requires s.Sized() && Enabled(s, e) && IsTaskStep(e)
    ensures e.i < |s.tasks| && TaskEnabled(s.tasks[e.i].pc, e) && (e.Check? ==> s.phases[s.PhaseOf(e.i)].started)
    ensures var t := s.tasks[e.i];
            Step(s, e) == s.(tasks := s.tasks[e.i := NextTask(t, e)], status := NextStatus(s.status, t.pc, e))
  {
    hide NextTask, NextStatus, TaskEnabled;
  }

  lemma NextUnsent(t: Task, e: Event)
    requires IsTaskStep(e) && TaskEnabled(t.pc, e)
    ensures var t' := NextTask(t, e);
            !t.pc.Sent? && !t.pc.Exited? && !t.pc.Idle? && !t'.pc.Sent? && !t'.pc.Exited? && !t'.pc.Idle?
  {
  }

  lemma NextStatusFrame(status: map<nat, Outcome>, pc: Pc, e: Event)
    requires IsTaskStep(e) && TaskEnabled(pc, e)
    ensures forall j | j != e.i :: (j in NextStatus(status, pc, e) <==> j in status)
                                   && (j in status ==> NextStatus(status, pc, e)[j] == status[j])
  {
  }

  /** Each step of a fetch moves its source to a point where what should have been done has been done. */
  lemma {:induction false} OwnStepOk(s: State, e: Event)
    requires s.Sized() && Enabled(s, e) && IsTaskStep(e) && TaskOk(s, e.i)
    ensures Step(s, e).Sized() && TaskOk(Step(s, e), e.i)
  {
    OwnStepIs(s, e);
    NextPlaced(s.tasks[e.i], e, s.phases[s.PhaseOf(e.i)], e.i);
    NextAccounted(s.tasks[e.i], e, s.status);
    hide Step, Enabled, Placed, Accounted, NextTask, NextStatus, TaskEnabled;
  }

  lemma {:induction false} OwnStepFrame(s: State, e: Event)
    requires s.Sized() && Enabled(s, e) && IsTaskStep(e)
    ensures Step(s, e).Sized() && Steady(s, Step(s, e)) && Step(s, e).phases == s.phases
    ensures forall j :: Step(s, e).Prio(j) == s.Prio(j)
  {
    OwnStepIs(s, e);
    NextUnsent(s.tasks[e.i], e);
    hide Step, Enabled, NextTask, NextStatus, TaskEnabled;
  }

  lemma {:induction false} OwnStepTouches(s: State, e: Event)
    requires s.Sized() && Enabled(s, e) && IsTaskStep(e)
    ensures Step(s, e).Sized() && OnlyTouches(s, Step(s, e), e.i)
  {
    OwnStepIs(s, e);
    NextStatusFrame(s.status, s.tasks[e.i].pc, e);
    hide Step, Enabled, NextTask, NextStatus, TaskEnabled;
  }

  lemma {:induction false} TaskStepKeeps(s: State, e: Event)
    requires Inv(s) && Enabled(s, e) && IsTaskStep(e)
    ensures Inv(Step(s, e))
  {
    var i, s' := e.i, Step(s, e);
    hide Step, Enabled, StageOk, PhaseOk, TaskOk;
    StepTarget(s, e);
    TaskOf(s, i);
    OwnStepOk(s, e);
    OwnStepFrame(s, e);
    OwnStepTouches(s, e);
    OthersOk(s, s', i);
    StageKept(s, s');
    PhasesKept(s, s');
  }

  lemma {:induction false} StepTarget(s: State, e: Event)
    requires s.Sized() && Enabled(s, e) && (IsTaskStep(e) || e.Send? || e.Exit?)
    ensures e.i < |s.tasks|
    ensures e.Send? ==> s.tasks[e.i].pc.Returned?
  {
  }

  lemma {:induction false} PhasesKept(s: State, s': State)
    requires s.Sized() && s'.Sized() && PhaseOk(s, 0) && PhaseOk(s, 1)
    requires s'.first == s.first && |s'.tasks| == |s.tasks| && s'.phases == s.phases
    ensures PhaseOk(s', 0) && PhaseOk(s', 1)
  {
  }

  lemma {:induction false} SubsetSmaller(xs: set<nat>, ys: set<nat>)
    requires xs <= ys
    ensures |xs| <= |ys| && (|xs| == |ys| ==> xs == ys)
  {
    if x :| x in ys && x !in xs {
      SubsetSmaller(xs, ys - {x});
    } else {
      assert xs == ys;
    }
  }

  lemma {:induction false} LaunchedInv(ph: Phase, lo: nat, hi: nat, i: nat)
    requires PhaseInv(ph, lo, hi) && lo <= i < hi && i !in ph.launched && !ph.started
    ensures PhaseInv(AddLaunched(ph, i), lo, hi)
  {
    assert |ph.launched + {i}| == |ph.launched| + 1;
    assert i !in ph.exited;
  }

  /** A channel as large as the number launched never blocks a sender. */
  lemma {:induction false} SentInv(ph: Phase, lo: nat, hi: nat, i: nat)
    requires PhaseInv(ph, lo, hi) && i in ph.launched && i !in ph.sent && ph.started
    ensures |ph.channel| < |ph.launched|
    ensures PhaseInv(PutSent(ph, i), lo, hi)
  {
    var ph' := PutSent(ph, i);
    SubsetSmaller(ph.sent + {i}, ph.launched);
    assert |ph.sent + {i}| == |ph.sent| + 1;
    assert i !in ph.channel;
    forall j ensures j in ph'.channel <==> j in ph'.sent && j !in ph'.received {
      assert j in ph'.channel <==> j in ph.channel || j == i;
    }
  }

  lemma {:induction false} ExitedInv(ph: Phase, lo: nat, hi: nat, i: nat)
    requires PhaseInv(ph, lo, hi) && i in ph.sent && i !in ph.exited
    ensures PhaseInv(PutExited(ph, i), lo, hi)
  {
    assert |ph.exited + {i}| == |ph.exited| + 1;
  }

  lemma {:induction false} TakenInv(ph: Phase, lo: nat, hi: nat)
    requires PhaseInv(ph, lo, hi) && ph.channel != []
    ensures PhaseInv(Take(ph), lo, hi) && ph.channel[0] in ph.sent && lo <= ph.channel[0] < hi
  {
    var ph', i := Take(ph), ph.channel[0];
    assert i in ph.channel && i !in ph.received;
    assert |ph'.received| == |ph.received| + 1;
    forall j ensures j in ph'.channel <==> j in ph'.sent && j !in ph'.received {
      assert j in ph.channel <==> j == i || j in ph'.channel;
    }
  }

  lemma {:induction false} KnownReceived(s: State)
    requires s.Sized() && StageOk(s)
    ensures s.best.Some? ==> s.best.value in s.phases[0].received
    ensures s.stage.Finished? && s.stage.winner.Some? ==>
              s.stage.winner.value in s.phases[0].received || s.stage.winner.value in s.phases[1].received
  {
  }

  /** Sending: the channel has room, because each launched source sends once. */
  lemma {:induction false} SendKeeps(s: State, i: nat)
    requires Inv(s) && Enabled(s, Send(i))
    ensures Inv(Step(s, Send(i)))
  {
    var s' := Step(s, Send(i));
    hide Step, Enabled, StageOk, PhaseOk, TaskOk;
    StepTarget(s, Send(i));
    TaskOf(s, i);
    SendPhaseOk(s, i);
    SendTaskOk(s, i);
    OthersOk(s, s', i);
    KnownReceived(s);
    NotYetReceived(s, i);
    StageKept(s, s');
  }

  lemma {:induction false} NotYetReceived(s: State, i: nat)
    requires s.Sized() && PhaseOk(s, 0) && PhaseOk(s, 1) && i < |s.tasks| && TaskOk(s, i) && s.tasks[i].pc.Returned?
    ensures i !in s.phases[0].received && i !in s.phases[1].received
  {
  }

  lemma {:induction false} SendTaskOk(s: State, i: nat)
    requires s.Sized() && Enabled(s, Send(i)) && TaskOk(s, i)
    ensures Step(s, Send(i)).Sized() && Steady(s, Step(s, Send(i)))
    ensures TaskOk(Step(s, Send(i)), i) && OnlyTouches(s, Step(s, Send(i)), i)
    ensures forall j | j != i :: Step(s, Send(i)).Prio(j) == s.Prio(j)
  {
  }

  lemma {:induction false} SendPhaseOk(s: State, i: nat)
    requires s.Sized() && Enabled(s, Send(i)) && TaskOk(s, i) && PhaseOk(s, 0) && PhaseOk(s, 1)
    ensures |s.phases[s.PhaseOf(i)].channel| < |s.phases[s.PhaseOf(i)].launched|
    ensures Step(s, Send(i)).Sized() && PhaseOk(Step(s, Send(i)), 0) && PhaseOk(Step(s, Send(i)), 1)
  {
    hide PhaseInv;
    SentInv(s.phases[s.PhaseOf(i)], if i < s.first then 0 else s.first, s.Until(s.PhaseOf(i)), i);
  }

  lemma {:induction false} ExitKeeps(s: State, i: nat)
    requires Inv(s) && Enabled(s, Exit(i))
    ensures Inv(Step(s, Exit(i)))
  {
    var s' := Step(s, Exit(i));
    hide Step, Enabled, StageOk, PhaseOk, TaskOk;
    StepTarget(s, Exit(i));
    TaskOf(s, i);
    ExitPhaseOk(s, i);
    ExitTaskOk(s, i);
    OthersOk(s, s', i);
    StageKept(s, s');
  }

  lemma {:induction false} ExitTaskOk(s: State, i: nat)
    requires s.Sized() && Enabled(s, Exit(i)) && TaskOk(s, i)
    ensures Step(s, Exit(i)).Sized() && Steady(s, Step(s, Exit(i)))
    ensures TaskOk(Step(s, Exit(i)), i) && OnlyTouches(s, Step(s, Exit(i)), i)
    ensures forall j :: Step(s, Exit(i)).Prio(j) == s.Prio(j)
  {
  }

  lemma {:induction false} ExitPhaseOk(s: State, i: nat)
    requires s.Sized() && Enabled(s, Exit(i)) && TaskOk(s, i) && PhaseOk(s, 0) && PhaseOk(s, 1)
    ensures Step(s, Exit(i)).Sized() && PhaseOk(Step(s, Exit(i)), 0) && PhaseOk(Step(s, Exit(i)), 1)
  {
    hide PhaseInv;
    ExitedInv(s.phases[s.PhaseOf(i)], if i < s.first then 0 else s.first, s.Until(s.PhaseOf(i)), i);
  }

  /** Only flags of a phase differ: cancellation, its one-shot stop, its timer, its winner mark. */
  predicate FlagsOnly(a: Phase, b: Phase) {
    && b.launched == a.launched && b.started == a.started && b.channel == a.channel && b.sent == a.sent
    && b.received == a.received && b.exited == a.exited && b.active == a.active && (a.cancelled ==> b.cancelled)
  }

  lemma {:induction false} FlagsKeep(s: State, s': State)
    requires Inv(s) && s'.Sized() && s' == s.(phases := s'.phases, callerGone := s'.callerGone)
    requires FlagsOnly(s.phases[0], s'.phases[0]) && FlagsOnly(s.phases[1], s'.phases[1])
    ensures Inv(s')
  {
    FlagsKeepTasks(s, s');
    FlagsKeepPhases(s, s');
    FlagsSteady(s, s');
    hide StageOk, PhaseOk, TasksOk, Steady, FlagsOnly;
    StageKept(s, s');
  }

  lemma FlagsSteady(s: State, s': State)
    requires s.Sized() && s'.Sized() && s' == s.(phases := s'.phases, callerGone := s'.callerGone)
    requires FlagsOnly(s.phases[0], s'.phases[0]) && FlagsOnly(s.phases[1], s'.phases[1])
    ensures Steady(s, s') && forall j :: s'.Prio(j) == s.Prio(j)
  {
  }

  lemma {:induction false} FlagsKeepTasks(s: State, s': State)
    requires s.Sized() && TasksOk(s) && s'.Sized()
    requires s'.tasks == s.tasks && s'.first == s.first && s'.status == s.status
    requires FlagsOnly(s.phases[0], s'.phases[0]) && FlagsOnly(s.phases[1], s'.phases[1])
    ensures TasksOk(s')
  {
    hide Accounted;
    forall j | 0 <= j < |s'.tasks| ensures TaskOk(s', j) {
      assert TaskOk(s, j);
    }
  }

  lemma {:induction false} FlagsKeepPhases(s: State, s': State)
    requires s.Sized() && PhaseOk(s, 0) && PhaseOk(s, 1) && s'.Sized()
    requires s'.tasks == s.tasks && s'.first == s.first
    requires FlagsOnly(s.phases[0], s'.phases[0]) && FlagsOnly(s.phases[1], s'.phases[1])
    ensures PhaseOk(s', 0) && PhaseOk(s', 1)
  {
  }

  lemma {:induction false} FlagStepKeeps(s: State, e: Event)
    requires Inv(s) && Enabled(s, e) && (e.CallerGone? || e.Monitor? || e.Timer? || e.Deadline?)
    ensures Inv(Step(s, e))
  {
    hide Inv, StageOk, PhaseOk, TaskOk, TasksOk;
    InvSized(s);
    FlagsKeep(s, Step(s, e));
  }

  lemma {:induction false} InvSized(s: State)
    requires Inv(s)
    ensures s.Sized()
  {
  }

  /** What a phase must have achieved when it hands its answer over. */
  ghost predicate Over(s: State, p: nat, w: Option<nat>)
    requires s.Sized() && p < 2
  {
    && Considered(s, s.Until(p)) && Untouched(s, s.Until(p))
    && (s.exhausted && s.PrioOf(w) < Grading.WORD ==> s.phases[p].received == s.phases[p].launched)
    && if p == 0 then
         && IsPick(s, s.phases[0].received, w)
         && s.best == None && !s.phases[1].started && s.phases[1].launched == s.phases[1].received == {}
       else
         && FirstOver(s) && s.PrioOf(s.best) < Grading.WORD
         && if s.WordOnly(1) && w.None? then NoWord(s, 1) else IsPick(s, s.phases[1].received, w)
  }

  lemma AfterFirstOk(s: State, w: Option<nat>)
    requires s.Sized() && Over(s, 0, w)
    ensures StageOk(AfterPhase(s, 0, w))
  {
    var s' := AfterPhase(s, 0, w);
    assert forall j :: s'.Prio(j) == s.Prio(j);
    assert s.phases[0].received + s.phases[1].received == s.phases[0].received;
  }

  lemma AfterSecondOk(s: State, w: Option<nat>)
    requires s.Sized() && Over(s, 1, w)
    ensures StageOk(AfterPhase(s, 1, w))
  {
    var s' := AfterPhase(s, 1, w);
    assert forall j :: s'.Prio(j) == s.Prio(j);
  }

  lemma AfterPhaseOk(s: State, p: nat, w: Option<nat>)
    requires s.Sized() && p < 2 && Over(s, p, w)
    ensures StageOk(AfterPhase(s, p, w))
  {
    hide *;
    if p == 0 { AfterFirstOk(s, w); } else { AfterSecondOk(s, w); }
  }

  lemma {:induction false} AfterPhaseKeeps(s: State, p: nat, w: Option<nat>)
    requires s.Sized() && TasksOk(s) && PhaseOk(s, 0) && PhaseOk(s, 1) && p < 2 && Over(s, p, w)
    ensures Inv(AfterPhase(s, p, w))
  {
    AfterPhaseOk(s, p, w);
    var s' := AfterPhase(s, p, w);
    AfterPhaseIs(s, p, w);
    hide AfterPhase, TasksOk, PhaseOk, StageOk, Over;
    FlagsKeepTasks(s, s');
    FlagsKeepPhases(s, s');
  }

  lemma AfterPhaseIs(s: State, p: nat, w: Option<nat>)
    ensures var s' := AfterPhase(s, p, w); s' == s.(best := s'.best, stage := s'.stage, exhausted := s'.exhausted)
  {
  }

  lemma ChosenPlaced(t: Task, choice: Choice, ph: Phase, i: nat)
    requires Placed(t, ph, i) && t.pc == Idle && !ph.started
    ensures Placed(ChosenTask(t, choice), if choice.Granted? then AddLaunched(ph, i) else ph, i)
  {
  }

  lemma ChosenAccounted(t: Task, choice: Choice, status: map<nat, Outcome>, i: nat)
    requires Accounted(t, status, i) && t.pc == Idle
    ensures Accounted(ChosenTask(t, choice), ChosenStatus(status, i, choice), i)
  {
  }

  lemma ChosenFrame(t: Task, choice: Choice, status: map<nat, Outcome>, i: nat)
    ensures forall j | j != i :: (j in ChosenStatus(status, i, choice) <==> j in status)
                                 && (j in status ==> ChosenStatus(status, i, choice)[j] == status[j])
    ensures t.pc == Idle ==>
              var pc := ChosenTask(t, choice).pc; !pc.Sent? && !pc.Exited? && (pc.Idle? <==> choice.Excluded?)
  {
  }

  lemma ConsiderIs(s: State, choice: Choice)
    requires s.Sized() && Enabled(s, Consider(choice))
    ensures s.stage.Launching? && s.stage.p < 2 && s.stage.next < s.Until(s.stage.p) <= |s.tasks|
    ensures choice.Excluded? ==> s.WordOnly(s.stage.p) && s.stage.next in s.lineOnly
    ensures var p, i := s.stage.p, s.stage.next;
            Step(s, Consider(choice))
            == s.(stage := Launching(p, i + 1), tasks := s.tasks[i := ChosenTask(s.tasks[i], choice)],
                  status := ChosenStatus(s.status, i, choice),
                  phases := if choice.Granted? then s.phases[p := AddLaunched(s.phases[p], i)] else s.phases)
  {
    hide ChosenTask, ChosenStatus, AddLaunched;
  }

  /** The launching loop passes the sources one by one. */
  lemma {:induction false} ConsiderTaskOk(s: State, choice: Choice)
    requires s.Sized() && Enabled(s, Consider(choice)) && TaskOk(s, s.stage.next) && s.tasks[s.stage.next].pc == Idle
    requires s.PhaseOf(s.stage.next) == s.stage.p && !s.phases[s.stage.p].started
    ensures var s' := Step(s, Consider(choice));
            && s'.Sized() && TaskOk(s', s.stage.next)
            && (!choice.Excluded? ==> !s'.tasks[s.stage.next].pc.Idle?)
  {
    var i := s.stage.next;
    ConsiderIs(s, choice);
    ChosenPlaced(s.tasks[i], choice, s.phases[s.stage.p], i);
    ChosenAccounted(s.tasks[i], choice, s.status, i);
    ChosenFrame(s.tasks[i], choice, s.status, i);
    hide Step, Enabled, ChosenTask, ChosenStatus, AddLaunched, Placed, Accounted;
  }

  lemma {:induction false} ConsiderFrame(s: State, choice: Choice)
    requires s.Sized() && Enabled(s, Consider(choice)) && s.tasks[s.stage.next].pc == Idle
    ensures var s' := Step(s, Consider(choice));
            && s'.Sized() && OnlyTouches(s, s', s.stage.next) && forall j :: s'.Prio(j) == s.Prio(j)
  {
    ConsiderIs(s, choice);
    ChosenFrame(s.tasks[s.stage.next], choice, s.status, s.stage.next);
    hide Step, Enabled, ChosenTask, ChosenStatus;
  }

  /** The loop advances by one, and the rest of the stage stays put. */
  ghost predicate Advanced(s: State, s': State)
    requires s.Sized() && s'.Sized() && s.stage.Launching? && s.stage.p < 2
  {
    && s'.stage == Launching(s.stage.p, s.stage.next + 1)
    && s'.first == s.first && s'.lineOnly == s.lineOnly && s'.best == s.best && s'.exhausted == s.exhausted
    && |s'.tasks| == |s.tasks| && s'.phases[1 - s.stage.p] == s.phases[1 - s.stage.p]
    && s'.phases[s.stage.p].received == s.phases[s.stage.p].received
    && s'.phases[s.stage.p].started == s.phases[s.stage.p].started
    && (forall j | 0 <= j < |s.tasks| && j != s.stage.next :: s'.tasks[j] == s.tasks[j])
    && (forall j :: s'.Prio(j) == s.Prio(j))
  }

  lemma {:induction false} ConsiderAdvances(s: State, choice: Choice)
    requires s.Sized() && Enabled(s, Consider(choice)) && s.tasks[s.stage.next].pc == Idle
    ensures Step(s, Consider(choice)).Sized() && Advanced(s, Step(s, Consider(choice)))
    ensures s.stage.next < s.Until(s.stage.p)
    ensures choice.Excluded? ==> s.WordOnly(s.stage.p) && s.stage.next in s.lineOnly
  {
    ConsiderIs(s, choice);
    ChosenFrame(s.tasks[s.stage.next], choice, s.status, s.stage.next);
    hide Step, Enabled, ChosenTask, ChosenStatus;
  }

  lemma {:induction false} ConsiderPhasesOk(s: State, choice: Choice)
    requires s.Sized() && Enabled(s, Consider(choice)) && TaskOk(s, s.stage.next) && s.tasks[s.stage.next].pc == Idle
    requires PhaseOk(s, 0) && PhaseOk(s, 1) && s.PhaseOf(s.stage.next) == s.stage.p && !s.phases[s.stage.p].started
    ensures Step(s, Consider(choice)).Sized() && PhaseOk(Step(s, Consider(choice)), 0)
    ensures PhaseOk(Step(s, Consider(choice)), 1)
  {
    ConsiderIs(s, choice);
    hide PhaseInv, Step, Enabled, ChosenTask, ChosenStatus;
    var i, p := s.stage.next, s.stage.p;
    LaunchedInv(s.phases[p], if p == 0 then 0 else s.first, s.Until(p), i);
  }

  lemma {:induction false} ConsiderStageOk(s: State, s': State)
    requires s.Sized() && s'.Sized() && StageOk(s) && s.stage.Launching? && s.stage.p < 2 && Advanced(s, s')
    requires s.stage.next < s.Until(s.stage.p)
    requires s'.tasks[s.stage.next].pc.Idle? ==> s.WordOnly(s.stage.p) && s.stage.next in s.lineOnly
    ensures StageOk(s')
  {
    assert s'.WordOnly(1) == s.WordOnly(1);
  }

  lemma {:induction false} ConsiderKeeps(s: State, choice: Choice)
    requires Inv(s) && Enabled(s, Consider(choice))
    ensures Inv(Step(s, Consider(choice)))
  {
    var s' := Step(s, Consider(choice));
    hide Step, PhaseOk, TaskOk;
    NextIsIdle(s, choice);
    hide Enabled, StageOk;
    TaskOf(s, s.stage.next);
    ConsiderTaskOk(s, choice);
    ConsiderFrame(s, choice);
    ConsiderPhasesOk(s, choice);
    ConsiderAdvances(s, choice);
    ConsiderStageOk(s, s');
    OthersOk(s, s', s.stage.next);
  }

  lemma {:induction false} NextIsIdle(s: State, choice: Choice)
    requires s.Sized() && StageOk(s) && Enabled(s, Consider(choice))
    ensures s.stage.Launching? && s.stage.p < 2 && s.stage.next < |s.tasks| && s.tasks[s.stage.next].pc == Idle
    ensures s.PhaseOf(s.stage.next) == s.stage.p && !s.phases[s.stage.p].started
  {
  }

  lemma {:induction false} LaunchKeeps(s: State)
    requires Inv(s) && Enabled(s, Launch)
    ensures Inv(Step(s, Launch))
  {
    LaunchIs(s);
    hide Inv, Step, Enabled, StageOk, PhaseOk, TasksOk;
    InvSized(s);
    if s.phases[s.stage.p].launched == {} { NobodyLaunched(s); } else { PhaseStarts(s); }
  }

  lemma LaunchIs(s: State)
    requires s.Sized() && Enabled(s, Launch)
    ensures s.stage.Launching? && s.stage.p < 2 && s.stage.next == s.Until(s.stage.p)
    ensures var p := s.stage.p;
            Step(s, Launch) == if s.phases[p].launched == {} then AfterPhase(s, p, None)
                               else WithPhase(s, p, s.phases[p].(started := true)).(stage := Collecting(p))
  {
    hide AfterPhase;
  }

  lemma NobodyLaunched(s: State)
    requires Inv(s) && s.stage.Launching? && s.stage.p < 2 && s.stage.next == s.Until(s.stage.p)
    requires s.phases[s.stage.p].launched == {}
    ensures Inv(AfterPhase(s, s.stage.p, None))
  {
    hide TasksOk, AfterPhase, PhaseOk;
    AfterPhaseKeeps(s, s.stage.p, None);
  }

  lemma PhaseStarts(s: State)
    requires Inv(s) && s.stage.Launching? && s.stage.p < 2 && s.stage.next == s.Until(s.stage.p)
    requires s.phases[s.stage.p].launched != {}
    ensures Inv(WithPhase(s, s.stage.p, s.phases[s.stage.p].(started := true)).(stage := Collecting(s.stage.p)))
  {
    var p := s.stage.p;
    var s' := WithPhase(s, p, s.phases[p].(started := true)).(stage := Collecting(p));
    LaunchTasksOk(s, s', p);
    hide TasksOk;
    assert forall j :: s'.Prio(j) == s.Prio(j);
  }

  lemma {:induction false} LaunchTasksOk(s: State, s': State, p: nat)
    requires s.Sized() && TasksOk(s) && p < 2
    requires s' == WithPhase(s, p, s.phases[p].(started := true)).(stage := Collecting(p))
    ensures TasksOk(s')
  {
    hide Accounted;
    forall j | 0 <= j < |s'.tasks| ensures TaskOk(s', j) {
      assert TaskOk(s, j);
    }
  }

  /** Taking the head of the channel. */
  function Taken(s: State): State
    requires s.Sized() && s.stage.Collecting? && s.stage.p < 2 && s.phases[s.stage.p].channel != []
  {
    WithPhase(s, s.stage.p, Take(s.phases[s.stage.p]))
  }

  lemma {:induction false} TakenOk(s: State)
    requires s.Sized() && TasksOk(s) && PhaseOk(s, 0) && PhaseOk(s, 1) && Enabled(s, Receive)
    ensures TasksOk(Taken(s)) && PhaseOk(Taken(s), 0) && PhaseOk(Taken(s), 1)
    ensures forall j :: Taken(s).Prio(j) == s.Prio(j)
  {
    hide PhaseInv;
    var s', p := Taken(s), s.stage.p;
    TakenInv(s.phases[p], if p == 0 then 0 else s.first, s.Until(p));
    hide Accounted;
    forall j | 0 <= j < |s'.tasks| ensures TaskOk(s', j) {
      assert TaskOk(s, j);
    }
  }

  lemma {:induction false} ReceiveKeeps(s: State)
    requires Inv(s) && Enabled(s, Receive)
    ensures Inv(Step(s, Receive))
  {
    hide PhaseInv, TaskOk;
    var p := s.stage.p;
    var i, s' := s.phases[p].channel[0], Taken(s);
    TakenOk(s);
    ReceivedAnswer(s, i);
    if s.Prio(i) >= Grading.WORD {
      WordArrives(s, i);
    } else {
      NoWordYet(s, i);
    }
  }

  lemma {:induction false} NoWordYet(s: State, i: nat)
    requires s.Sized() && StageOk(s) && Enabled(s, Receive) && i == s.phases[s.stage.p].channel[0]
    requires s.Prio(i) < Grading.WORD
    ensures StageOk(Taken(s))
  {
    var s' := Taken(s);
    assert forall j :: s'.Prio(j) == s.Prio(j);
    assert forall j <- s'.phases[s.stage.p].received :: j in s.phases[s.stage.p].received || j == i;
  }

  /** The phase once its winner has been marked. */
  function Crowned(s: State, p: nat): State
    requires p < |s.phases|
  {
    WithPhase(s, p, MarkWinner(s.phases[p]))
  }

  lemma {:induction false} CrownedOk(s: State, p: nat)
    requires s.Sized() && TasksOk(s) && PhaseOk(s, 0) && PhaseOk(s, 1) && p < 2
    ensures TasksOk(Crowned(s, p)) && PhaseOk(Crowned(s, p), 0) && PhaseOk(Crowned(s, p), 1)
  {
    hide PhaseInv, TaskOk, TasksOk, PhaseOk;
    assert FlagsOnly(s.phases[p], Crowned(s, p).phases[p]);
    FlagsKeepTasks(s, Crowned(s, p));
    FlagsKeepPhases(s, Crowned(s, p));
  }

  lemma WordStepIs(s: State, i: nat)
    requires s.Sized() && Enabled(s, Receive) && i == s.phases[s.stage.p].channel[0] && s.Prio(i) == Grading.WORD
    ensures Step(s, Receive) == AfterPhase(Crowned(Taken(s), s.stage.p), s.stage.p, Some(i))
  {
    hide AfterPhase;
    var p, taken := s.stage.p, Take(s.phases[s.stage.p]);
    assert s.phases[p := taken][p := MarkWinner(taken)] == s.phases[p := MarkWinner(taken)];
    assert Crowned(Taken(s), p) == WithPhase(s, p, MarkWinner(taken));
  }

  lemma {:induction false} WordArrives(s: State, i: nat)
    requires Inv(s) && Enabled(s, Receive) && i == s.phases[s.stage.p].channel[0] && s.Prio(i) == Grading.WORD
    ensures Inv(Step(s, Receive))
  {
    var p, s' := s.stage.p, Taken(s);
    WordStepIs(s, i);
    hide PhaseInv, TaskOk, StageOk, Step, AfterPhase, IsPick, TasksOk, PhaseOk, Crowned, Over, Taken;
    TakenOk(s);
    CrownedOk(s', p);
    WordIsBest(s, s', i);
    AfterPhaseKeeps(Crowned(s', p), p, Some(i));
  }

  lemma {:induction false} ReceivedAnswer(s: State, i: nat)
    requires Inv(s) && Enabled(s, Receive) && i == s.phases[s.stage.p].channel[0]
    ensures i < |s.tasks| && s.Prio(i) <= Grading.WORD
  {
    assert i in s.phases[s.stage.p].channel && i in s.phases[s.stage.p].launched;
    assert TaskOk(s, i);
  }

  /** A word-synced answer beats everything received before it. */
  lemma {:induction false} WordIsBest(s: State, s': State, i: nat)
    requires s.Sized() && StageOk(s) && Enabled(s, Receive) && i == s.phases[s.stage.p].channel[0] && s' == Taken(s)
    requires s.Prio(i) == Grading.WORD
    ensures Over(Crowned(s', s.stage.p), s.stage.p, Some(i))
  {
    var p, marked := s.stage.p, Crowned(s', s.stage.p);
    assert marked == s.(phases := marked.phases) && marked.phases[1 - p] == s.phases[1 - p];
    assert marked.phases[p].received == s.phases[p].received + {i};
    hide Enabled, Crowned, Taken;
    assert forall j :: marked.Prio(j) == s.Prio(j);
  }

  lemma {:induction false} EndKeeps(s: State, ended: State, w: Option<nat>)
    requires Inv(s) && s.stage.Collecting? && s.stage.p < 2
    requires if s.WordOnly(s.stage.p) then w == None else IsPick(s, s.phases[s.stage.p].received, w)
    requires ended.Sized() && ended == s.(phases := ended.phases, exhausted := ended.exhausted)
    requires FlagsOnly(s.phases[0], ended.phases[0]) && FlagsOnly(s.phases[1], ended.phases[1])
    requires ended.exhausted ==> s.exhausted && s.phases[s.stage.p].received == s.phases[s.stage.p].launched
    ensures Inv(AfterPhase(ended, s.stage.p, w))
  {
    FlagsKeepTasks(s, ended);
    FlagsKeepPhases(s, ended);
    EndOver(s, ended, w);
    AfterPhaseKeeps(ended, s.stage.p, w);
  }

  lemma {:induction false} EndOver(s: State, ended: State, w: Option<nat>)
    requires s.Sized() && StageOk(s) && PhaseOk(s, 1) && s.stage.Collecting? && s.stage.p < 2
    requires if s.WordOnly(s.stage.p) then w == None else IsPick(s, s.phases[s.stage.p].received, w)
    requires ended.Sized() && ended == s.(phases := ended.phases, exhausted := ended.exhausted)
    requires FlagsOnly(s.phases[0], ended.phases[0]) && FlagsOnly(s.phases[1], ended.phases[1])
    requires ended.exhausted ==> s.exhausted && s.phases[s.stage.p].received == s.phases[s.stage.p].launched
    ensures Over(ended, s.stage.p, w)
  {
    assert forall j :: ended.Prio(j) == s.Prio(j);
  }

  lemma {:induction false} ExhaustKeeps(s: State, w: Option<nat>)
    requires Inv(s) && Enabled(s, Exhaust(w))
    ensures Inv(Step(s, Exhaust(w)))
  {
    InvSized(s);
    ExhaustIs(s, w);
    AllReceived(s);
    hide Inv, Step, Enabled, StageOk, PhaseOk, TasksOk;
    var p := s.stage.p;
    var ph := s.phases[p];
    EndKeeps(s, WithPhase(s, p, if w.Some? then MarkWinner(ph) else ph.(cancelled := true)), w);
  }

  lemma ExhaustIs(s: State, w: Option<nat>)
    requires s.Sized() && Enabled(s, Exhaust(w))
    ensures var p := s.stage.p;
            && s.stage.Collecting? && p < 2 && |s.phases[p].received| == |s.phases[p].launched|
            && (if s.WordOnly(p) then w == None else IsPick(s, s.phases[p].received, w))
            && Step(s, Exhaust(w))
            == (var over := if w.Some? then MarkWinner(s.phases[p]) else s.phases[p].(cancelled := true);
                AfterPhase(WithPhase(s, p, over), p, w))
  {
    hide AfterPhase, IsPick, MarkWinner;
  }

  /** A phase that has received as many results as it launched fetches has received them all. */
  lemma AllReceived(s: State)
    requires Inv(s) && s.stage.Collecting? && s.stage.p < 2
    requires |s.phases[s.stage.p].received| == |s.phases[s.stage.p].launched|
    ensures s.phases[s.stage.p].received == s.phases[s.stage.p].launched
  {
    hide TasksOk, StageOk;
    var ph := s.phases[s.stage.p];
    SubsetSmaller(ph.received, ph.launched);
  }

  lemma {:induction false} SeeCallerGoneKeeps(s: State, w: Option<nat>)
    requires Inv(s) && Enabled(s, SeeCallerGone(w))
    ensures Inv(Step(s, SeeCallerGone(w)))
  {
    hide StageOk, PhaseOk, TasksOk;
    EndKeeps(s, WithPhase(s, s.stage.p, StopPhase(s.phases[s.stage.p], false)).(exhausted := false), w);
  }

  lemma {:induction false} StepKeeps(s: State, e: Event)
    requires Inv(s) && Enabled(s, e)
    ensures Inv(Step(s, e))
  {
    hide Inv, Step, Enabled;
    match e
    case Consider(choice) => ConsiderKeeps(s, choice);
    case Launch => LaunchKeeps(s);
    case Send(i) => SendKeeps(s, i);
    case Exit(i) => ExitKeeps(s, i);
    case Receive => ReceiveKeeps(s);
    case Exhaust(w) => ExhaustKeeps(s, w);
    case SeeCallerGone(w) => SeeCallerGoneKeeps(s, w);
    case CallerGone => FlagStepKeeps(s, e);
    case Monitor(_) => FlagStepKeeps(s, e);
    case Timer(_) => FlagStepKeeps(s, e);
    case Deadline(_) => FlagStepKeeps(s, e);
    case _ => TaskStepKeeps(s, e);
  }

  // ---- runs --------------------------------------------------------------------------------------

  /** The status map only speaks of the sources of this race. */
  ghost predicate KeysOk(s: State) { forall k <- s.status :: k < |s.tasks| }

  lemma {:induction false} KeysKept(s: State, e: Event)
    requires s.Sized() && KeysOk(s) && Enabled(s, e)
    ensures KeysOk(Step(s, e))
  {
    hide IsPick, StopPhase, AfterPhase;
    if IsTaskStep(e) {
      OwnStepTouches(s, e);
      OwnStepIs(s, e);
      hide Step, Enabled, NextTask, NextStatus, TaskEnabled;
    } else if e.Consider? {
      ConsiderIs(s, e.choice);
      ChosenFrame(s.tasks[s.stage.next], e.choice, s.status, s.stage.next);
      hide Step, Enabled, ChosenTask, ChosenStatus;
    } else {
      StatusStays(s, e);
      hide Step, Enabled;
    }
  }

  lemma StatusStays(s: State, e: Event)
    requires s.Sized() && Enabled(s, e) && !IsTaskStep(e) && !e.Consider?
    ensures Step(s, e).status == s.status && |Step(s, e).tasks| == |s.tasks|
  {
    hide IsPick, StopPhase, AfterPhase;
    match e
    case Launch => AfterPhaseIs(s, s.stage.p, None);
    case Receive =>
      var p := s.stage.p;
      AfterPhaseIs(WithPhase(s, p, MarkWinner(Take(s.phases[p]))), p, Some(s.phases[p].channel[0]));
    case Exhaust(w) =>
      var p := s.stage.p;
      AfterPhaseIs(WithPhase(s, p, if w.Some? then MarkWinner(s.phases[p]) else s.phases[p].(cancelled := true)), p, w);
    case SeeCallerGone(w) =>
      var p := s.stage.p;
      AfterPhaseIs(WithPhase(s, p, StopPhase(s.phases[p], false)).(exhausted := false), p, w);
    case Send(_) =>
    case Exit(_) =>
    case CallerGone =>
    case Monitor(_) =>
    case Timer(_) =>
    case Deadline(_) =>
  }

  /** A phase is cut short only when the caller has gone. */
  predicate CutByCaller(s: State) { s.exhausted || s.callerGone }

  lemma CutKept(s: State, e: Event)
    requires s.Sized() && CutByCaller(s) && Enabled(s, e)
    ensures CutByCaller(Step(s, e))
  {
    hide IsPick, StopPhase;
    if IsTaskStep(e) {
      OwnStepIs(s, e);
      hide Step, Enabled, NextTask, NextStatus, TaskEnabled;
    } else if e.Consider? {
      ConsiderIs(s, e.choice);
      hide Step, Enabled, ChosenTask, ChosenStatus;
    }
  }

  /** `t` is what the events lead to from `s`, each enabled in its turn. */
  ghost predicate Run(s: State, events: seq<Event>, t: State)
    requires s.Sized()
    decreases |events|
  {
    if events == [] then t == s
    else Enabled(s, events[0]) && Step(s, events[0]).Sized() && Run(Step(s, events[0]), events[1..], t)
  }

  lemma {:induction false} RunKeeps(s: State, events: seq<Event>, t: State)
    requires Inv(s) && KeysOk(s) && CutByCaller(s) && Run(s, events, t)
    ensures Inv(t) && KeysOk(t) && CutByCaller(t)
    decreases |events|
  {
    hide Inv, Step, Enabled, KeysOk, CutByCaller;
    InvSized(s);
    if events != [] {
      StepKeeps(s, events[0]);
      KeysKept(s, events[0]);
      CutKept(s, events[0]);
      RunKeeps(Step(s, events[0]), events[1..], t);
    }
  }

  /** A state some race of some number of sources can be in. */
  ghost predicate Reachable(s: State) {
    s.Sized() && exists n: nat, lineOnly: set<nat>, events: seq<Event> :: Run(Start(n, lineOnly), events, s)
  }

  lemma {:induction false} ReachableInv(s: State)
    requires Reachable(s)
    ensures Inv(s) && KeysOk(s) && CutByCaller(s)
  {
    var n: nat, lineOnly: set<nat>, events: seq<Event> :| Run(Start(n, lineOnly), events, s);
    StartInv(n, lineOnly);
    RunKeeps(Start(n, lineOnly), events, s);
  }

  // ---- what a race promises ------------------------------------------------------------------------

  /** No goroutine of the race is still on its way. */
  predicate Quiet(t: Task) { t.pc.Idle? || t.pc.Left? || t.pc.Exited? }

  predicate GaveUpUnconfigured(t: Task) { t.pc.Exited? && t.pc.v.Unconfigured? }

  /** Permits are never released twice or without being held, the breaker never hears twice of one
      admission, and once everybody has left every permit is back and every admission was reported,
      except exactly those of sources that stopped being configured between admission and fetch. */
  lemma EachOnce(s: State, i: nat)
    requires Reachable(s) && i < |s.tasks|
    ensures var t := s.tasks[i];
            && t.released <= t.granted <= t.admitted <= 1 && t.reported <= t.admitted
            && (Quiet(t) ==> t.released == t.granted)
            && (Quiet(t) ==> (t.reported == t.admitted <==> !GaveUpUnconfigured(t)))
  {
    ReachableInv(s);
    assert TaskOk(s, i);
  }

  /** A goroutine about to send finds room in the channel. */
  lemma SendsNeverBlock(s: State, i: nat)
    requires Reachable(s) && i < |s.tasks| && s.tasks[i].pc.Returned?
    ensures |s.phases[s.PhaseOf(i)].channel| < |s.phases[s.PhaseOf(i)].launched|
  {
    ReachableInv(s);
    assert TaskOk(s, i);
    SendPhaseOk(s, i);
  }

  /** Once the last fetch of a started phase has left, its context is cancelled. */
  lemma ContextEnds(s: State, p: nat)
    requires Reachable(s) && p < 2 && s.phases[p].started && s.phases[p].launched != {}
    requires forall i <- s.phases[p].launched :: i < |s.tasks| && s.tasks[i].pc.Exited?
    ensures s.phases[p].cancelled
  {
    hide *;
    ReachableInv(s);
    InvParts(s, p);
    PhaseOver(s, p);
  }

  lemma InvParts(s: State, p: nat)
    requires Inv(s) && p < 2
    ensures s.Sized() && TasksOk(s) && PhaseOk(s, p) && StageOk(s)
  {
    hide TasksOk, PhaseOk, StageOk;
  }

  lemma PhaseOver(s: State, p: nat)
    requires s.Sized() && TasksOk(s) && p < 2 && PhaseOk(s, p) && s.phases[p].started && s.phases[p].launched != {}
    requires forall i <- s.phases[p].launched :: i < |s.tasks| && s.tasks[i].pc.Exited?
    ensures s.phases[p].cancelled
  {
    hide Accounted, TasksOk;
    var ph := s.phases[p];
    forall i <- ph.launched ensures i in ph.exited {
      TaskOf(s, i);
      assert s.PhaseOf(i) == p;
    }
    assert ph.exited == ph.launched;
  }

  /** Whichever way the race ends, no answer received before the end outranks the returned one. */
  lemma BestAnswer(s: State)
    requires Reachable(s) && s.stage.Finished?
    ensures forall i | i in s.phases[0].received || i in s.phases[1].received :: s.Prio(i) <= s.PrioOf(s.stage.winner)
    ensures s.stage.winner.Some? ==>
              && s.PrioOf(s.stage.winner) >= 1
              && (s.stage.winner.value in s.phases[0].received || s.stage.winner.value in s.phases[1].received)
  {
    ReachableInv(s);
    forall i | i in s.phases[0].received || i in s.phases[1].received ensures s.Prio(i) <= s.PrioOf(s.stage.winner) {
      assert i in s.phases[0].received + s.phases[1].received;
    }
  }
}
