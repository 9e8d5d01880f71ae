/** Shared fetches and their cancellation (internal/orchestrator/singleflight.go).

    Callers that ask for the same key share one fetch.  A tracker counts who still waits and
    cancels a fetch when nobody does.  Each lock-protected section is one step, and callers,
    fetches and deadlines act in any order.  The group that shares fetches is a library: it
    keeps at most one fetch per key and forgets it when its function has returned. */
module Singleflight {

  /** A waiting caller knows its fetch, and whether the tracker had cancelled it already when the caller joined. */
  datatype CallerPc = Entered | Waiting(fetch: nat, lost: bool) | Left

  datatype Caller = Caller(key: string, pc: CallerPc)

  datatype FetchPc = Created | Racing | Cleared | Gone

  /** `cancelled` is the state of the fetch's context; `byTracker` says that the tracker cancelled it. */
  datatype Fetch = Fetch(key: string, pc: FetchPc, cancelled: bool, byTracker: bool)

  datatype State = State(
    callers: map<nat, Caller>,
    fetches: map<nat, Fetch>,
    group: map<string, nat>,
    waiters: map<string, nat>,
    cancels: map<string, nat>)
  {
    function Waiters(key: string): nat { if key in waiters then waiters[key] else 0 }

    /** Callers that have entered under a key and not released. */
    ghost function Unreleased(key: string): set<nat> {
      set c | c in callers && callers[c].key == key && !callers[c].pc.Left?
    }
  }

  datatype Event =
    | Enter(c: nat, key: string)
    | Join(c: nat, f: nat)
    | Leave(c: nat)
    | Register(f: nat)
    | Clear(f: nat)
    | Forget(f: nat)
    | Deadline(f: nat)

  predicate Enabled(s: State, e: Event) {
    match e
    case Enter(c, _) => c !in s.callers
    case Join(c, f) =>
      && c in s.callers && s.callers[c].pc.Entered?
      && if s.callers[c].key in s.group then f == s.group[s.callers[c].key] else f !in s.fetches
    case Leave(c) => c in s.callers && s.callers[c].pc.Waiting?
    case Register(f) => f in s.fetches && s.fetches[f].pc.Created?
    case Clear(f) => f in s.fetches && s.fetches[f].pc.Racing?
    case Forget(f) => f in s.fetches && s.fetches[f].pc.Cleared?
    case Deadline(f) => f in s.fetches && !s.fetches[f].pc.Gone?
  }

  function Kill(s: State, f: nat): State {
    if f in s.fetches then s.(fetches := s.fetches[f := s.fetches[f].(cancelled := true, byTracker := true)]) else s
  }

  /** keyTracker.leave. */
  function LeaveKey(s: State, key: string): State {
    if s.Waiters(key) <= 1 then
      var gone := s.(waiters := s.waiters - {key});
      if key in s.cancels then Kill(gone.(cancels := s.cancels - {key}), s.cancels[key]) else gone
    else s.(waiters := s.waiters[key := s.waiters[key] - 1])
  }

  /** keyTracker.registerCancel. */
  function RegisterCancel(s: State, f: nat, key: string): State {
    if key !in s.waiters then Kill(s, f) else s.(cancels := s.cancels[key := f])
  }

  function Step(s: State, e: Event): State
    requires Enabled(s, e)
  {
    match e
    case Enter(c, key) =>
      s.(callers := s.callers[c := Caller(key, Entered)], waiters := s.waiters[key := s.Waiters(key) + 1])
    case Join(c, f) =>
      var key := s.callers[c].key;
      var lost := key in s.group && f in s.fetches && s.fetches[f].byTracker;
      var joined := s.(callers := s.callers[c := Caller(key, Waiting(f, lost))]);
      if key in s.group then joined
      else joined.(group := s.group[key := f], fetches := s.fetches[f := Fetch(key, Created, false, false)])
    case Leave(c) => LeaveKey(s, s.callers[c].key).(callers := s.callers[c := s.callers[c].(pc := Left)])
    case Register(f) =>
      RegisterCancel(s.(fetches := s.fetches[f := s.fetches[f].(pc := Racing)]), f, s.fetches[f].key)
    case Clear(f) =>
      s.(fetches := s.fetches[f := s.fetches[f].(pc := Cleared)], cancels := s.cancels - {s.fetches[f].key})
    case Forget(f) =>
      s.(fetches := s.fetches[f := s.fetches[f].(pc := Gone, cancelled := true)], group := s.group - {s.fetches[f].key})
    case Deadline(f) => s.(fetches := s.fetches[f := s.fetches[f].(cancelled := true)])
  }

  // ---- the invariant -----------------------------------------------------------------

  /** The count is the number of callers that have not released, and a key is counted only while somebody waits. */
  ghost predicate Counted(s: State) {
    forall key :: s.Waiters(key) == |s.Unreleased(key)| && (key in s.waiters <==> s.Waiters(key) > 0)
  }

  /** The group knows exactly the fetches whose functions have not returned. */
  ghost predicate Grouped(s: State) {
    && (forall key <- s.group ::
          s.group[key] in s.fetches && s.fetches[s.group[key]].key == key && !s.fetches[s.group[key]].pc.Gone?)
    && (forall f <- s.fetches | !s.fetches[f].pc.Gone? :: s.fetches[f].key in s.group && s.group[s.fetches[f].key] == f)
  }

  /** Registered cancels are those of racing fetches the tracker has not cancelled, under keys with a waiter. */
  ghost predicate Tracked(s: State) {
    && (forall key <- s.cancels ::
          && key in s.waiters && s.cancels[key] in s.fetches
          && var f := s.fetches[s.cancels[key]]; f.key == key && f.pc.Racing? && !f.byTracker)
    && (forall f <- s.fetches | s.fetches[f].pc.Racing? && !s.fetches[f].byTracker ::
          s.fetches[f].key in s.cancels && s.cancels[s.fetches[f].key] == f)
    && (forall f <- s.fetches :: s.fetches[f].byTracker ==> s.fetches[f].cancelled)
    && (forall f <- s.fetches | s.fetches[f].pc.Created? :: !s.fetches[f].byTracker)
  }

  /** A waiting caller's fetch is one under its key, cancelled by the tracker exactly when it was so on joining. */
  ghost predicate Followed(s: State) {
    forall c <- s.callers | s.callers[c].pc.Waiting? ::
      var pc := s.callers[c].pc;
      && pc.fetch in s.fetches && s.fetches[pc.fetch].key == s.callers[c].key
      && (s.fetches[pc.fetch].byTracker <==> pc.lost)
  }

  ghost predicate Inv(s: State) { Counted(s) && Grouped(s) && Tracked(s) && Followed(s) }

  const START := State(map[], map[], map[], map[], map[])

  lemma {:induction false} StartInv()
    ensures Inv(START)
  {
    forall key ensures START.Unreleased(key) == {} {
    }
  }

  lemma {:induction false} EnterCounted(s: State, c: nat, k: string)
    requires Counted(s) && Enabled(s, Enter(c, k))
    ensures Counted(Step(s, Enter(c, k)))
  {
    var s' := Step(s, Enter(c, k));
    assert s'.waiters == s.waiters[k := s.Waiters(k) + 1] && s'.callers == s.callers[c := Caller(k, Entered)];
    assert c !in s.callers;
    hide Step, Enabled;
    forall key ensures s'.Waiters(key) == |s'.Unreleased(key)| && (key in s'.waiters <==> s'.Waiters(key) > 0) {
      var before := s.Unreleased(key);
      assert s.Waiters(key) == |before| && c !in before;
      if k == key {
        assert s'.Unreleased(key) == before + {c};
        assert |before + {c}| == |before| + 1;
      } else {
        assert s'.Unreleased(key) == before;
      }
    }
  }

  lemma {:induction false} LeaveCounted(s: State, c: nat)
    requires Counted(s) && Enabled(s, Leave(c))
    ensures Counted(Step(s, Leave(c)))
  {
    var s', k := Step(s, Leave(c)), s.callers[c].key;
    assert s'.waiters == if s.Waiters(k) <= 1 then s.waiters - {k} else s.waiters[k := s.Waiters(k) - 1];
    assert s'.callers == s.callers[c := Caller(k, Left)];
    hide Step, Enabled, LeaveKey;
    forall key ensures s'.Waiters(key) == |s'.Unreleased(key)| && (key in s'.waiters <==> s'.Waiters(key) > 0) {
      var before := s.Unreleased(key);
      assert s.Waiters(key) == |before| && (key == k ==> c in before);
      assert s'.Unreleased(key) == before - {c};
    }
  }

  lemma OthersStay(s: State, e: Event)
    requires Enabled(s, e) && !e.Enter? && !e.Leave?
    ensures var s' := Step(s, e);
            && s'.waiters == s.waiters && s'.callers.Keys == s.callers.Keys
            && forall c <- s.callers ::
                 s'.callers[c].key == s.callers[c].key && (s'.callers[c].pc.Left? <==> s.callers[c].pc.Left?)
  {
    hide LeaveKey;
  }

  lemma {:induction false} OtherCounted(s: State, e: Event)
    requires Counted(s) && Enabled(s, e) && !e.Enter? && !e.Leave?
    ensures Counted(Step(s, e))
  {
    var s' := Step(s, e);
    OthersStay(s, e);
    hide Step, Enabled;
    forall key ensures s'.Waiters(key) == |s'.Unreleased(key)| && (key in s'.waiters <==> s'.Waiters(key) > 0) {
      assert s.Waiters(key) == |s.Unreleased(key)|;
      assert s'.Unreleased(key) == s.Unreleased(key);
    }
  }

  lemma {:induction false} CountedKept(s: State, e: Event)
    requires Inv(s) && Enabled(s, e)
    ensures Counted(Step(s, e))
  {
    hide Step, Enabled, Counted, Grouped, Tracked;
    match e
    case Enter(c, key) => EnterCounted(s, c, key);
    case Leave(c) => LeaveCounted(s, c);
    case _ => OtherCounted(s, e);
  }

  /** What leaving does to the fetches: at most one context is cancelled. */
  lemma {:induction false} LeaveShape(s: State, c: nat)
    requires Enabled(s, Leave(c))
    ensures var s', k := Step(s, Leave(c)), s.callers[c].key;
            && s'.group == s.group
            && (if s.Waiters(k) <= 1 then s'.waiters == s.waiters - {k} && s'.cancels == s.cancels - {k}
                else s'.waiters == s.waiters[k := s.Waiters(k) - 1] && s'.cancels == s.cancels)
            && s'.fetches ==
                 (if s.Waiters(k) <= 1 && k in s.cancels && s.cancels[k] in s.fetches then
                    s.fetches[s.cancels[k] := s.fetches[s.cancels[k]].(cancelled := true, byTracker := true)]
                  else s.fetches)
  {
    var k := s.callers[c].key;
    assert k !in s.cancels ==> s.cancels - {k} == s.cancels;
  }

  lemma {:induction false} LeaveGrouped(s: State, c: nat)
    requires Inv(s) && Enabled(s, Leave(c))
    ensures Grouped(Step(s, Leave(c)))
  {
    LeaveShape(s, c);
    hide Step, Enabled, Counted, Tracked;
  }

  lemma {:induction false} ArriveGrouped(s: State, e: Event)
    requires Inv(s) && Enabled(s, e) && (e.Enter? || e.Join?)
    ensures Grouped(Step(s, e))
  {
    hide Counted, Tracked;
  }

  /** The steps of a fetch that leave the group alone. */
  lemma {:induction false} FetchGrouped(s: State, e: Event)
    requires Inv(s) && Enabled(s, e) && (e.Register? || e.Clear? || e.Deadline?)
    ensures Grouped(Step(s, e))
  {
    FetchShape(s, e);
    hide Counted, Tracked, Step, Enabled;
  }

  lemma FetchShape(s: State, e: Event)
    requires Enabled(s, e) && (e.Register? || e.Clear? || e.Deadline?)
    ensures var s', f := Step(s, e), e.f;
            && s'.group == s.group && s'.fetches.Keys == s.fetches.Keys && f in s.fetches
            && s'.fetches == s.fetches[f := s'.fetches[f]] && s'.fetches[f].key == s.fetches[f].key
            && (s'.fetches[f].pc.Gone? <==> s.fetches[f].pc.Gone?)
  {
  }

  lemma {:induction false} ForgetGrouped(s: State, f: nat)
    requires Inv(s) && Enabled(s, Forget(f))
    ensures Grouped(Step(s, Forget(f)))
  {
    hide Counted, Tracked;
  }

  lemma {:induction false} GroupedKept(s: State, e: Event)
    requires Inv(s) && Enabled(s, e)
    ensures Grouped(Step(s, e))
  {
    hide *;
    match e
    case Leave(c) => LeaveGrouped(s, c);
    case Enter(_, _) => ArriveGrouped(s, e);
    case Join(_, _) => ArriveGrouped(s, e);
    case Forget(f) => ForgetGrouped(s, f);
    case _ => FetchGrouped(s, e);
  }

  lemma {:induction false} LeaveTracked(s: State, c: nat)
    requires Inv(s) && Enabled(s, Leave(c))
    ensures Tracked(Step(s, Leave(c)))
  {
    LeaveShape(s, c);
    hide Step, Enabled, Counted, Grouped;
  }

  lemma {:induction false} RegisterTracked(s: State, f: nat)
    requires Inv(s) && Enabled(s, Register(f))
    ensures Tracked(Step(s, Register(f)))
  {
    hide Counted, LeaveKey;
  }

  lemma {:induction false} OtherTracked(s: State, e: Event)
    requires Inv(s) && Enabled(s, e) && !e.Leave? && !e.Register?
    ensures Tracked(Step(s, e))
  {
    hide Counted, LeaveKey, RegisterCancel;
  }

  lemma {:induction false} TrackedKept(s: State, e: Event)
    requires Inv(s) && Enabled(s, e)
    ensures Tracked(Step(s, e))
  {
    hide *;
    match e
    case Leave(c) => LeaveTracked(s, c);
    case Register(f) => RegisterTracked(s, f);
    case _ => OtherTracked(s, e);
  }

  /** The tracker cancels a fetch only at a moment when nobody waits under its key. */
  lemma KillsUnwanted(s: State, e: Event, f: nat)
    requires Inv(s) && Enabled(s, e) && f in s.fetches && !s.fetches[f].byTracker
    requires f in Step(s, e).fetches && Step(s, e).fetches[f].byTracker
    ensures Step(s, e).Unreleased(s.fetches[f].key) == {}
  {
    CountedKept(s, e);
    var s', key := Step(s, e), s.fetches[f].key;
    assert s'.Waiters(key) == |s'.Unreleased(key)|;
    assert e.Leave? || e.Register?;
    if e.Leave? {
      var k := s.callers[e.c].key;
      assert k in s.cancels && s.cancels[k] == f;
    }
  }

  /** Fetches are never forgotten, change no key, and stay cancelled. */
  lemma FetchesStay(s: State, e: Event, f: nat)
    requires Enabled(s, e) && f in s.fetches
    ensures var s' := Step(s, e);
            && f in s'.fetches && s'.fetches[f].key == s.fetches[f].key
            && (s.fetches[f].byTracker ==> s'.fetches[f].byTracker)
  {
  }

  /** Who waits after a step waited for the same fetch before, or has just joined. */
  lemma WaitedBefore(s: State, e: Event, c: nat)
    requires Enabled(s, e) && c in Step(s, e).callers && Step(s, e).callers[c].pc.Waiting? && !(e.Join? && e.c == c)
    ensures c in s.callers && s.callers[c] == Step(s, e).callers[c]
  {
  }

  lemma JoinFollowed(s: State, c: nat, f: nat)
    requires Inv(s) && Enabled(s, Join(c, f))
    ensures var s' := Step(s, Join(c, f));
            && s'.callers[c].pc.Waiting? && s'.callers[c].pc.fetch == f && f in s'.fetches
            && s'.fetches[f].key == s'.callers[c].key && (s'.fetches[f].byTracker <==> s'.callers[c].pc.lost)
  {
    hide Counted, Tracked, Followed;
  }

  lemma FollowedKept(s: State, e: Event)
    requires Inv(s) && Enabled(s, e)
    ensures Followed(Step(s, e))
  {
    var s' := Step(s, e);
    hide Step, Enabled, Counted, Grouped, Tracked;
    forall c <- s'.callers | s'.callers[c].pc.Waiting?
      ensures var pc := s'.callers[c].pc;
              pc.fetch in s'.fetches && s'.fetches[pc.fetch].key == s'.callers[c].key
              && (s'.fetches[pc.fetch].byTracker <==> pc.lost)
    {
      if e.Join? && e.c == c {
        JoinFollowed(s, c, e.f);
      } else {
        StillFollowed(s, e, c);
      }
    }
  }

  lemma StillFollowed(s: State, e: Event, c: nat)
    requires Inv(s) && Enabled(s, e) && !(e.Join? && e.c == c)
    requires c in Step(s, e).callers && Step(s, e).callers[c].pc.Waiting?
    ensures var s' := Step(s, e);
            var pc := s'.callers[c].pc;
            && c in s.callers && s.callers[c] == s'.callers[c] && pc.fetch in s.fetches && pc.fetch in s'.fetches
            && s'.fetches[pc.fetch].key == s'.callers[c].key && (s'.fetches[pc.fetch].byTracker <==> pc.lost)
  {
    WaitedBefore(s, e, c);
    var s' := Step(s, e);
    var f := s.callers[c].pc.fetch;
    assert f in s.fetches;
    FetchesStay(s, e, f);
    assert c in s'.Unreleased(s.fetches[f].key);
    if s'.fetches[f].byTracker && !s.fetches[f].byTracker { KillsUnwanted(s, e, f); }
    hide Step, Enabled, Counted, Grouped, Tracked;
  }

  ghost predicate Reachable(s: State, steps: nat)
    decreases steps
  {
    if steps == 0 then s == START
    else exists before, e :: Reachable(before, steps - 1) && Enabled(before, e) && s == Step(before, e)
  }

  lemma {:induction false} ReachableInv(s: State, steps: nat)
    requires Reachable(s, steps)
    ensures Inv(s)
    decreases steps
  {
    if steps == 0 {
      StartInv();
    } else {
      var before, e :| Reachable(before, steps - 1) && Enabled(before, e) && s == Step(before, e);
      ReachableInv(before, steps - 1);
      CountedKept(before, e);
      GroupedKept(before, e);
      TrackedKept(before, e);
      FollowedKept(before, e);
    }
  }

  // ---- what the tracker promises ---------------------------------------------------------

  /** No registered fetch outlives its last waiter: one that is racing and has not been cancelled by the
      tracker has a caller that has not released, and its cancel is on record. */
  lemma {:induction false} RacingIsWanted(s: State, steps: nat, f: nat)
    requires Reachable(s, steps) && f in s.fetches && s.fetches[f].pc.Racing? && !s.fetches[f].byTracker
    ensures s.Unreleased(s.fetches[f].key) != {} && s.fetches[f].key in s.cancels && s.cancels[s.fetches[f].key] == f
  {
    ReachableInv(s, steps);
    var key := s.fetches[f].key;
    assert s.Waiters(key) == |s.Unreleased(key)|;
  }

  /** The tracker cancels a fetch only at a moment when nobody waits under its key. */
  lemma {:induction false} CancelledWhenUnwanted(s: State, steps: nat, e: Event, f: nat)
    requires Reachable(s, steps) && Enabled(s, e) && f in s.fetches && !s.fetches[f].byTracker
    requires f in Step(s, e).fetches && Step(s, e).fetches[f].byTracker
    ensures Step(s, e).Unreleased(s.fetches[f].key) == {}
  {
    ReachableInv(s, steps);
    KillsUnwanted(s, e, f);
  }

  /** Two fetches under one key never overlap. */
  lemma {:induction false} OneFetchPerKey(s: State, steps: nat, f: nat, g: nat)
    requires Reachable(s, steps) && f in s.fetches && g in s.fetches && s.fetches[f].key == s.fetches[g].key
    requires !s.fetches[f].pc.Gone? && !s.fetches[g].pc.Gone?
    ensures f == g
  {
    ReachableInv(s, steps);
  }

  /** A caller that joins waits for the one fetch of its key, and as long as it waits the tracker does not touch that
      fetch: it is cancelled by the tracker exactly when it was so already when the caller joined. */
  lemma WaitersKeepTheirFetch(s: State, steps: nat, e: Event, c: nat)
    requires Reachable(s, steps) && Enabled(s, e)
    requires c in Step(s, e).callers && Step(s, e).callers[c].pc.Waiting?
    ensures var s' := Step(s, e);
            var pc := s'.callers[c].pc;
            && pc.fetch in s'.fetches && s'.fetches[pc.fetch].key == s'.callers[c].key
            && (s'.fetches[pc.fetch].byTracker <==> pc.lost)
            && (if e.Join? && e.c == c then
                  pc.fetch == e.f && (pc.lost <==> e.f in s.fetches && s.fetches[e.f].byTracker)
                else
                  && c in s.callers && s.callers[c].pc == pc && pc.fetch in s.fetches
                  && s'.fetches[pc.fetch].byTracker == s.fetches[pc.fetch].byTracker)
  {
    ReachableInv(s, steps);
    if e.Join? && e.c == c {
      JoinFollowed(s, c, e.f);
      JoinedAs(s, c, e.f);
    } else {
      StillFollowed(s, e, c);
    }
    hide Step, Enabled, Counted, Grouped, Tracked;
  }

  lemma JoinedAs(s: State, c: nat, f: nat)
    requires Inv(s) && Enabled(s, Join(c, f))
    ensures Step(s, Join(c, f)).callers[c].pc.lost <==> f in s.fetches && s.fetches[f].byTracker
  {
    hide Counted, Tracked, Followed;
  }

  // ---- a caller that joins a lost fetch --------------------------------------------------

  lemma Onward(s: State, steps: nat, e: Event)
    requires Reachable(s, steps) && Enabled(s, e)
    ensures Reachable(Step(s, e), steps + 1)
  {
    hide Step, Enabled;
  }

  const RACING := Fetch("k", Racing, false, false)
  const ASKED := START.(callers := map[0 := Caller("k", Entered)], waiters := map["k" := 1])
  const SHARED := ASKED.(callers := map[0 := Caller("k", Waiting(0, false))], group := map["k" := 0],
                         fetches := map[0 := RACING.(pc := Created)])
  const RUNNING := SHARED.(fetches := map[0 := RACING], cancels := map["k" := 0])
  const DESERTED := RUNNING.(callers := map[0 := Caller("k", Left)], waiters := map[], cancels := map[],
                             fetches := map[0 := RACING.(cancelled := true, byTracker := true)])
  const BACK := DESERTED.(callers := DESERTED.callers[1 := Caller("k", Entered)], waiters := map["k" := 1])

  lemma FirstCaller()
    ensures Enabled(START, Enter(0, "k")) && Step(START, Enter(0, "k")) == ASKED
    ensures Enabled(ASKED, Join(0, 0)) && Step(ASKED, Join(0, 0)) == SHARED
  {
  }

  lemma LeavesItsFetch()
    ensures Enabled(SHARED, Register(0)) && Step(SHARED, Register(0)) == RUNNING
    ensures Enabled(RUNNING, Leave(0)) && Step(RUNNING, Leave(0)) == DESERTED
  {
  }

  lemma SecondCaller()
    ensures Enabled(DESERTED, Enter(1, "k")) && Step(DESERTED, Enter(1, "k")) == BACK
    ensures Enabled(BACK, Join(1, 0))
    ensures Step(BACK, Join(1, 0)) == BACK.(callers := BACK.callers[1 := Caller("k", Waiting(0, true))])
  {
  }

  /** The last caller leaves and its fetch is cancelled; before the fetch has returned, another caller asks for the same
      key and waits for the cancelled fetch. */
  lemma JoinsALostFetch() returns (s: State)
    ensures Reachable(s, 6) && 1 in s.callers && s.callers[1].pc == Waiting(0, true)
    ensures 0 in s.fetches && s.fetches[0].byTracker && s.fetches[0].cancelled
  {
    hide Step, Enabled, Reachable;
    StartReachable();
    FirstCaller();
    Onward(START, 0, Enter(0, "k"));
    Onward(ASKED, 1, Join(0, 0));
    LeavesItsFetch();
    Onward(SHARED, 2, Register(0));
    Onward(RUNNING, 3, Leave(0));
    SecondCaller();
    Onward(DESERTED, 4, Enter(1, "k"));
    Onward(BACK, 5, Join(1, 0));
    s := BACK.(callers := BACK.callers[1 := Caller("k", Waiting(0, true))]);
  }

  lemma StartReachable()
    ensures Reachable(START, 0)
  {
  }
}
