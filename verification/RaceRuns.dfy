/** Single runs of a race that show which promises fail (internal/orchestrator/race.go). */
module RaceRuns {
  import opened Wrappers
  import opened NegativeCache
  import opened Race
  import opened RaceOutcome
  import Grading

  // ---- runs, step by step ---------------------------------------------------------------------

  lemma {:induction false} RunSnoc(a: State, events: seq<Event>, s: State, e: Event)
    requires a.Sized() && Run(a, events, s) && s.Sized() && Enabled(s, e) && Step(s, e).Sized()
    ensures Run(a, events + [e], Step(s, e))
    decreases |events|
  {
    hide Step, Enabled;
    if events == [] {
      assert (events + [e])[1..] == [];
    } else {
      assert (events + [e])[1..] == events[1..] + [e];
      RunSnoc(Step(a, events[0]), events[1..], s, e);
    }
  }

  lemma StartReachable(n: nat, lineOnly: set<nat>)
    ensures Reachable(Start(n, lineOnly))
  {
    assert Run(Start(n, lineOnly), [], Start(n, lineOnly));
  }

  lemma ReachableSized(s: State)
    requires Reachable(s)
    ensures s.Sized()
  {
  }

  lemma StepReachable(s: State, e: Event)
    requires Reachable(s) && Enabled(s, e)
    ensures Reachable(Step(s, e))
  {
    hide Step, Enabled, Run, Inv;
    ReachableInv(s);
    StepKeeps(s, e);
    InvSized(Step(s, e));
    var n: nat, lineOnly: set<nat>, events: seq<Event> :| Run(Start(n, lineOnly), events, s);
    RunSnoc(Start(n, lineOnly), events, s, e);
  }

  /** The next source of phase one is taken in or passed over. */
  lemma Chooses(s: State, choice: Choice)
    requires Reachable(s) && s.stage.Launching? && s.stage.p == 0 && s.stage.next < s.first && !choice.Excluded?
    ensures var i := s.stage.next;
            Reachable(s.(stage := Launching(0, i + 1), tasks := s.tasks[i := ChosenTask(s.tasks[i], choice)],
                         status := ChosenStatus(s.status, i, choice),
                         phases := if choice.Granted? then s.phases[0 := AddLaunched(s.phases[0], i)] else s.phases))
  {
    hide Reachable;
    ReachableSized(s);
    assert Enabled(s, Consider(choice));
    StepReachable(s, Consider(choice));
    ConsiderIs(s, choice);
  }

  lemma Begins(s: State)
    requires Reachable(s) && s.stage == Launching(0, s.first) && s.phases[0].launched != {}
    ensures Reachable(s.(stage := Collecting(0), phases := s.phases[0 := s.phases[0].(started := true)]))
  {
    hide Reachable, AfterPhase;
    ReachableSized(s);
    assert Enabled(s, Launch);
    StepReachable(s, Launch);
    LaunchIs(s);
  }

  /** One step of a fetch of phase one. */
  lemma Moves(s: State, e: Event)
    requires Reachable(s) && IsTaskStep(e) && e.i < |s.tasks| && TaskEnabled(s.tasks[e.i].pc, e)
    requires s.phases[s.PhaseOf(e.i)].started
    ensures Reachable(s.(tasks := s.tasks[e.i := NextTask(s.tasks[e.i], e)],
                         status := NextStatus(s.status, s.tasks[e.i].pc, e)))
  {
    hide Reachable, NextTask, NextStatus, TaskEnabled;
    ReachableSized(s);
    assert Enabled(s, e);
    StepReachable(s, e);
    OwnStepIs(s, e);
  }

  /** A launched source is fetched and its verdict recorded. */
  lemma Fetches(s: State, i: nat, v: Verdict)
    requires Reachable(s) && i < s.first && i < |s.tasks| && s.tasks[i].pc == Ready && s.phases[0].started
    requires i !in s.status && v.Valid() && !v.Unconfigured?
    ensures Reachable(s.(tasks := s.tasks[i := s.tasks[i].(pc := Recorded(v))],
                         status := s.status[i := Outcome(v.Label(), false)]))
  {
    hide Reachable;
    var t := s.tasks[i];
    Moves(s, Check(i, true));
    var s1 := s.(tasks := s.tasks[i := t.(pc := Checked)]);
    Moves(s1, Wait(i));
    var s2 := s.(tasks := s.tasks[i := t.(pc := Fetching)], status := s.status[i := Outcome(WAIT, false)]);
    assert s1.tasks[i := t.(pc := Fetching)] == s2.tasks;
    Moves(s2, Fetch(i, v));
    var s3 := s2.(tasks := s.tasks[i := t.(pc := Fetched(v))]);
    assert s2.tasks[i := t.(pc := Fetched(v))] == s3.tasks;
    Moves(s3, RecordVerdict(i));
    assert s3.tasks[i := t.(pc := Recorded(v))] == s.tasks[i := t.(pc := Recorded(v))];
    assert s3.status[i := Outcome(v.Label(), false)] == s.status[i := Outcome(v.Label(), false)];
  }

  /** The caller leaves phase one before anything has been received. */
  lemma Leaves(s: State) returns (t: State)
    requires Reachable(s) && s.stage == Collecting(0) && s.phases[0].received == {} && s.phases[0].launched != {}
    ensures Reachable(t) && t.stage == Finished(None) && t.tasks == s.tasks && t.status == s.status
  {
    hide Reachable;
    ReachableSized(s);
    assert Enabled(s, CallerGone);
    StepReachable(s, CallerGone);
    ReachableSized(Step(s, CallerGone));
    var gone := Step(s, CallerGone);
    assert gone == s.(callerGone := true);
    assert Enabled(gone, SeeCallerGone(None)) by {
      assert |gone.phases[0].launched| > 0;
    }
    StepReachable(gone, SeeCallerGone(None));
    t := Step(gone, SeeCallerGone(None));
  }

  // ---- two sources, both launched ---------------------------------------------------------------

  const READY := Task(Ready, 1, 0, 1, 0)
  const IDLE := Task(Idle, 0, 0, 0, 0)

  function Open(launched: set<nat>, n: int): Phase {
    NEW_PHASE.(launched := launched, active := n, started := true)
  }

  /** Phase one of `n` sources after launching, with the first one's task `t0` and the second one's `t1`. */
  function Began(tasks: seq<Task>, launched: set<nat>, n: int): State {
    State(if |tasks| > 2 then 2 else |tasks|, {}, tasks, map[], [Open(launched, n), NEW_PHASE], None, Collecting(0),
          false, true)
  }

  const FIRST_IN := NEW_PHASE.(launched := {0}, active := 1)

  lemma FirstIn(s: State)
    requires s.Sized() && s.phases == [NEW_PHASE, NEW_PHASE] && |s.tasks| > 0 && s.tasks[0] == IDLE
    ensures s.phases[0 := AddLaunched(s.phases[0], 0)] == [FIRST_IN, NEW_PHASE]
    ensures ChosenTask(s.tasks[0], Granted) == READY
    ensures ChosenStatus(s.status, 0, Granted) == s.status
  {
    assert NEW_PHASE.launched + {0} == {0};
  }

  lemma OneBegins()
    ensures Reachable(Began([READY], {0}, 1))
  {
    hide Reachable;
    StartReachable(1, {});
    var s := Start(1, {});
    assert s.tasks == [IDLE];
    Chooses(s, Granted);
    FirstIn(s);
    var s1 := s.(stage := Launching(0, 1), tasks := [READY], phases := [FIRST_IN, NEW_PHASE]);
    assert s.tasks[0 := READY] == s1.tasks;
    assert 0 in s1.phases[0].launched;
    Begins(s1);
    assert s1.phases[0 := Open({0}, 1)] == [Open({0}, 1), NEW_PHASE];
  }

  lemma TwoBegin()
    ensures Reachable(Began([READY, READY], {0, 1}, 2))
  {
    hide Reachable;
    StartReachable(2, {});
    var s := Start(2, {});
    assert s.tasks == [IDLE, IDLE];
    Chooses(s, Granted);
    FirstIn(s);
    var s1 := s.(stage := Launching(0, 1), tasks := [READY, IDLE], phases := [FIRST_IN, NEW_PHASE]);
    assert s.tasks[0 := READY] == s1.tasks;
    Chooses(s1, Granted);
    var ph2 := NEW_PHASE.(launched := {0, 1}, active := 2);
    assert FIRST_IN.launched + {1} == {0, 1};
    var s2 := s.(stage := Launching(0, 2), tasks := [READY, READY], phases := [ph2, NEW_PHASE]);
    assert [FIRST_IN, NEW_PHASE][0 := ph2] == s2.phases && s1.tasks[1 := READY] == s2.tasks;
    assert 0 in s2.phases[0].launched;
    Begins(s2);
    assert s2.phases[0 := Open({0, 1}, 2)] == [Open({0, 1}, 2), NEW_PHASE];
  }

  /** Three sources, the second unknown; the third waits for phase two. */
  lemma ThreeBegin()
    ensures Reachable(Began([READY, IDLE.(pc := Left(Unknown)), IDLE], {0}, 1))
  {
    hide Reachable;
    StartReachable(3, {});
    var s := Start(3, {});
    assert s.tasks == [IDLE, IDLE, IDLE];
    Chooses(s, Granted);
    FirstIn(s);
    var s1 := s.(stage := Launching(0, 1), tasks := [READY, IDLE, IDLE], phases := [FIRST_IN, NEW_PHASE]);
    assert s.tasks[0 := READY] == s1.tasks;
    Chooses(s1, LeftOut(Unknown));
    var left := IDLE.(pc := Left(Unknown));
    var s2 := s1.(stage := Launching(0, 2), tasks := [READY, left, IDLE]);
    assert s1.tasks[1 := left] == s2.tasks;
    assert 0 in s2.phases[0].launched;
    Begins(s2);
    assert s2.phases[0 := Open({0}, 1)] == [Open({0}, 1), NEW_PHASE];
  }

  // ---- races that look like a clean miss ------------------------------------------------------------

  /** The caller leaves after the verdict on an unwell source is recorded and before the mark. */
  lemma UnmarkedLooksClean() returns (s: State)
    ensures Reachable(s) && s.stage == Finished(None) && Cacheable(s.status)
    ensures |s.tasks| == 1 && Unmarked(s.tasks[0].pc)
  {
    hide Reachable, Cacheable;
    OneBegins();
    Fetches(Began([READY], {0}, 1), 0, Unhealthy);
    var s1 := Began([READY.(pc := Recorded(Unhealthy))], {0}, 1).(status := map[0 := Outcome(BAD, false)]);
    assert [READY][0 := READY.(pc := Recorded(Unhealthy))] == s1.tasks;
    s := Leaves(s1);
    MissOnly(s, 0);
  }

  lemma MissOnly(s: State, i: nat)
    requires Reachable(s) && i < |s.tasks| && (MissedCleanly(s.tasks[i].pc) || Unmarked(s.tasks[i].pc))
    requires forall j | 0 <= j < |s.tasks| ::
               MissedCleanly(s.tasks[j].pc) || NotAsked(s.tasks[j].pc) || Hidden(s.tasks[j].pc)
    ensures Cacheable(s.status)
  {
    hide Reachable, Cacheable, MissedCleanly, NotAsked, Hidden, Unmarked;
    CacheableWhen(s);
  }

  /** The caller leaves while a launched source has not been asked. */
  lemma UnaskedLooksClean() returns (s: State)
    ensures Reachable(s) && s.stage == Finished(None) && Cacheable(s.status)
    ensures |s.tasks| == 2 && MissedCleanly(s.tasks[0].pc) && NotYetAsked(s.tasks[1].pc)
  {
    hide Reachable, Cacheable;
    TwoBegin();
    var missed := OneOfTwoMissed();
    s := Leaves(missed);
    MissOnly(s, 0);
  }

  lemma OneOfTwoMissed() returns (s: State)
    ensures s == Began([READY.(pc := Recorded(CleanMiss)), READY], {0, 1}, 2).(status := map[0 := Outcome(BAD, false)])
    ensures Reachable(s)
  {
    hide Reachable;
    TwoBegin();
    Fetches(Began([READY, READY], {0, 1}, 2), 0, CleanMiss);
    s := Began([READY.(pc := Recorded(CleanMiss)), READY], {0, 1}, 2).(status := map[0 := Outcome(BAD, false)]);
    assert [READY, READY][0 := READY.(pc := Recorded(CleanMiss))] == s.tasks;
  }

  /** The caller leaves after a source has answered and before the answer is received. */
  lemma AnsweredLooksClean() returns (s: State)
    ensures Reachable(s) && s.stage == Finished(None) && Cacheable(s.status)
    ensures |s.tasks| == 2 && MissedCleanly(s.tasks[0].pc) && s.tasks[1].pc == Recorded(Ok(Grading.WORD))
  {
    hide Reachable, Cacheable;
    var s1 := OneOfTwoMissed();
    Fetches(s1, 1, Ok(Grading.WORD));
    var s2 := s1.(tasks := [READY.(pc := Recorded(CleanMiss)), READY.(pc := Recorded(Ok(Grading.WORD)))],
                  status := map[0 := Outcome(BAD, false), 1 := Outcome(OK, false)]);
    assert s1.tasks[1 := READY.(pc := Recorded(Ok(Grading.WORD)))] == s2.tasks;
    assert s1.status[1 := Outcome(OK, false)] == s2.status;
    s := Leaves(s2);
    MissOnly(s, 0);
  }

  /** The caller leaves before the phase that would have asked the third source. */
  lemma UnreachedLooksClean() returns (s: State)
    ensures Reachable(s) && s.stage == Finished(None) && Cacheable(s.status)
    ensures |s.tasks| == 3 && MissedCleanly(s.tasks[0].pc) && NotAsked(s.tasks[1].pc) && NeverReached(s.tasks[2].pc)
  {
    hide Reachable, Cacheable;
    ThreeBegin();
    var left := IDLE.(pc := Left(Unknown));
    Fetches(Began([READY, left, IDLE], {0}, 1), 0, CleanMiss);
    var s1 := Began([READY.(pc := Recorded(CleanMiss)), left, IDLE], {0}, 1).(status := map[0 := Outcome(BAD, false)]);
    assert [READY, left, IDLE][0 := READY.(pc := Recorded(CleanMiss))] == s1.tasks;
    s := Leaves(s1);
    MissOnly(s, 0);
  }

  // ---- an admission the breaker never hears of ---------------------------------------------------------

  /** A source that is configured when it is admitted and no longer when its fetch begins: everybody has left, and the
      breaker's admission stays unreported. */
  lemma AdmissionLost() returns (s: State)
    ensures Reachable(s) && |s.tasks| == 1 && GaveUpUnconfigured(s.tasks[0])
    ensures s.tasks[0].admitted == 1 && s.tasks[0].reported == 0 && s.tasks[0].granted == s.tasks[0].released == 1
  {
    hide Reachable;
    OneBegins();
    var s0 := Began([READY], {0}, 1);
    Moves(s0, Check(0, false));
    var s1 := s0.(tasks := [READY.(pc := ReleasedEarly, released := 1)]);
    assert s0.tasks[0 := READY.(pc := ReleasedEarly, released := 1)] == s1.tasks;
    Moves(s1, RecordSkip(0));
    var back := READY.(pc := Returned(Unconfigured), released := 1);
    var s2 := s0.(tasks := [back], status := map[0 := Outcome(SKIP, false)]);
    assert s1.tasks[0 := back] == s2.tasks;
    s := SendsAndExits(s2);
  }

  lemma SendsAndExits(s: State) returns (t: State)
    requires Reachable(s) && |s.tasks| == 1 && s.first == 1 && s.tasks[0].pc.Returned?
    ensures Reachable(t) && |t.tasks| == 1 && t.tasks[0] == s.tasks[0].(pc := Exited(s.tasks[0].pc.v))
  {
    hide Reachable;
    ReachableSized(s);
    assert Enabled(s, Send(0));
    StepReachable(s, Send(0));
    ReachableSized(Step(s, Send(0)));
    var s1 := Step(s, Send(0));
    assert s1.tasks == [s.tasks[0].(pc := Sent(s.tasks[0].pc.v))];
    assert Enabled(s1, Exit(0));
    StepReachable(s1, Exit(0));
    t := Step(s1, Exit(0));
  }
}
