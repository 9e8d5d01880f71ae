/** The bounded write queue that drops its oldest job when it is full, and its workers
    (internal/storage/writequeue.go), under interleaving: every channel operation and every locked section is
    one atomic step. */
module WriteQueue {
  import opened Subsequences

  /** Where a submission stands: about to send, about to take a victim, pausing, or holding a victim that is not
      counted yet. */
  datatype Stage = Trying | Evicting | Pausing | HoldingVictim

  datatype Submission = Submission(job: int, stage: Stage)

  /** A job in the hands of a worker; `counted` once it shows in the inflight counter. */
  datatype Work = Work(job: int, counted: bool)

  /** What happened to an accepted job that has left the queue. */
  datatype Fate = ToWorker | Victim

  /** `accepted`, `fates` and `finished` are logs: the jobs in the order they were sent, what became of those that
      have left the queue, and the jobs in the order they were finished. */
  datatype State = State(
    capacity: nat, workers: nat,
    queue: seq<int>, closed: bool, pending: map<nat, Submission>, working: seq<Work>,
    shed: nat, inflight: nat,
    accepted: seq<int>, fates: seq<Fate>, finished: seq<int>)
  {
    ghost function Holders(): set<nat> { set t | t in pending && pending[t].stage == HoldingVictim }
  }

  datatype Event =
    | Enter(t: nat, job: int)
    | Refused(t: nat)
    | Send(t: nat)
    | SeeFull(t: nat)
    | Evict(t: nat)
    | SeeEmpty(t: nat)
    | CountShed(t: nat)
    | Retry(t: nat)
    | GiveUp(t: nat)
    | Take
    | Begin(w: nat)
    | Finish(w: nat)
    | Close

  predicate At(s: State, t: nat, stage: Stage) { t in s.pending && s.pending[t].stage == stage }

  predicate Enabled(s: State, e: Event) {
    match e
    case Enter(t, _) => t !in s.pending && !s.closed
    case Refused(t) => t !in s.pending && s.closed
    case Send(t) => At(s, t, Trying) && |s.queue| < s.capacity
    case SeeFull(t) => At(s, t, Trying) && |s.queue| >= s.capacity
    case Evict(t) => At(s, t, Evicting) && s.queue != []
    case SeeEmpty(t) => At(s, t, Evicting) && s.queue == []
    case CountShed(t) => At(s, t, HoldingVictim)
    case Retry(t) => At(s, t, Pausing)
    case GiveUp(t) => At(s, t, Pausing)
    case Take => |s.working| < s.workers && s.queue != []
    case Begin(w) => w < |s.working| && !s.working[w].counted
    case Finish(w) => w < |s.working| && s.working[w].counted && s.inflight > 0
    case Close => !s.closed && s.pending == map[]
  }

  function MoveTo(s: State, t: nat, stage: Stage): State
    requires t in s.pending
  {
    s.(pending := s.pending[t := s.pending[t].(stage := stage)])
  }

  function Leave(s: State, t: nat): State { s.(pending := s.pending - {t}) }

  function Step(s: State, e: Event): State
    requires Enabled(s, e)
  {
    match e
    case Enter(t, job) => s.(pending := s.pending[t := Submission(job, Trying)])
    case Refused(_) => s
    case Send(t) => Leave(s, t).(queue := s.queue + [s.pending[t].job], accepted := s.accepted + [s.pending[t].job])
    case SeeFull(t) => MoveTo(s, t, Evicting)
    case Evict(t) => MoveTo(s, t, HoldingVictim).(queue := s.queue[1..], fates := s.fates + [Victim])
    case SeeEmpty(t) => MoveTo(s, t, Pausing)
    case CountShed(t) => MoveTo(s, t, Trying).(shed := s.shed + 1)
    case Retry(t) => MoveTo(s, t, Trying)
    case GiveUp(t) => Leave(s, t)
    case Take =>
      s.(queue := s.queue[1..], fates := s.fates + [ToWorker], working := s.working + [Work(s.queue[0], false)])
    case Begin(w) => s.(working := s.working[w := s.working[w].(counted := true)], inflight := s.inflight + 1)
    case Finish(w) =>
      s.(working := s.working[..w] + s.working[w + 1..], inflight := s.inflight - 1,
         finished := s.finished + [s.working[w].job])
    case Close => s.(closed := true)
  }

  function Start(capacity: nat, workers: nat): State {
    State(if capacity == 0 then 1024 else capacity, if workers == 0 then 1 else workers,
          [], false, map[], [], 0, 0, [], [], [])
  }

  // ---- what is counted in the logs ----

  /** The jobs that met a fate, in the order they were accepted. */
  function Chosen(accepted: seq<int>, fates: seq<Fate>, fate: Fate): seq<int>
    requires |fates| <= |accepted|
  {
    if fates == [] then []
    else
      var n := |fates| - 1;
      Chosen(accepted, fates[..n], fate) + if fates[n] == fate then [accepted[n]] else []
  }

  function Counted(working: seq<Work>): nat {
    if working == [] then 0 else (if working[0].counted then 1 else 0) + Counted(working[1..])
  }

  function JobsOf(working: seq<Work>): seq<int> {
    if working == [] then [] else [working[0].job] + JobsOf(working[1..])
  }

  ghost predicate Inv(s: State) {
    && s.capacity > 0 && s.workers > 0 && |s.queue| <= s.capacity && |s.working| <= s.workers
    && |s.fates| <= |s.accepted| && s.accepted[|s.fates|..] == s.queue
    && |Chosen(s.accepted, s.fates, ToWorker)| == |s.finished| + |s.working|
    && (s.workers == 1 ==> Chosen(s.accepted, s.fates, ToWorker) == s.finished + JobsOf(s.working))
    && |Chosen(s.accepted, s.fates, Victim)| == s.shed + |s.Holders()|
    && s.inflight == Counted(s.working)
    && (s.closed ==> s.pending == map[])
  }

  lemma StartInv(capacity: nat, workers: nat)
    ensures Inv(Start(capacity, workers))
  {
    var s := Start(capacity, workers);
    assert s.Holders() == {};
  }

  // ---- steps ----

  lemma {:induction false} ChosenSent(accepted: seq<int>, fates: seq<Fate>, fate: Fate, job: int)
    requires |fates| <= |accepted|
    ensures Chosen(accepted + [job], fates, fate) == Chosen(accepted, fates, fate)
  {
    if fates != [] { ChosenSent(accepted, fates[..|fates| - 1], fate, job); }
  }

  lemma ChosenNext(accepted: seq<int>, fates: seq<Fate>, next: Fate, fate: Fate)
    requires |fates| < |accepted|
    ensures Chosen(accepted, fates + [next], fate)
         == Chosen(accepted, fates, fate) + if next == fate then [accepted[|fates|]] else []
  {
    assert (fates + [next])[..|fates|] == fates;
  }

  lemma {:induction false} CountedAppend(a: seq<Work>, b: seq<Work>)
    ensures Counted(a + b) == Counted(a) + Counted(b)
    ensures JobsOf(a + b) == JobsOf(a) + JobsOf(b)
  {
    if a == [] {
      assert a + b == b;
    } else {
      CountedAppend(a[1..], b);
      assert (a + b)[1..] == a[1..] + b;
    }
  }

  lemma CountedOne(w: Work)
    ensures Counted([w]) == (if w.counted then 1 else 0) && JobsOf([w]) == [w.job]
  {
    assert [w][1..] == [];
  }

  lemma {:induction false} CountedAt(working: seq<Work>, w: nat)
    requires w < |working|
    ensures Counted(working)
         == Counted(working[..w]) + (if working[w].counted then 1 else 0) + Counted(working[w + 1..])
    ensures JobsOf(working) == JobsOf(working[..w]) + [working[w].job] + JobsOf(working[w + 1..])
  {
    var a, b := working[..w], working[w + 1..];
    assert working == a + [working[w]] + b;
    hide Counted, JobsOf;
    CountedAppend(a + [working[w]], b);
    CountedAppend(a, [working[w]]);
    CountedOne(working[w]);
  }

  /** Steps of a submission change who holds a victim for that submission only. */
  lemma HoldersMove(s: State, t: nat, stage: Stage)
    requires t in s.pending
    ensures MoveTo(s, t, stage).Holders() == if stage == HoldingVictim then s.Holders() + {t} else s.Holders() - {t}
  {
  }

  lemma HoldersLeave(s: State, t: nat)
    ensures Leave(s, t).Holders() == s.Holders() - {t}
  {
  }

  lemma {:induction false} SubmitterKeeps(s: State, e: Event)
    requires Inv(s) && Enabled(s, e)
    requires e.Enter? || e.Refused? || e.SeeFull? || e.SeeEmpty? || e.CountShed? || e.Retry? || e.GiveUp?
    ensures Inv(Step(s, e))
  {
    hide Chosen, Counted, JobsOf;
    match e {
      case Enter(t, job) => assert Step(s, e).Holders() == s.Holders();
      case Refused(_) =>
      case SeeFull(t) => HoldersMove(s, t, Evicting); assert t !in s.Holders();
      case SeeEmpty(t) => HoldersMove(s, t, Pausing); assert t !in s.Holders();
      case CountShed(t) => HoldersMove(s, t, Trying); assert t in s.Holders();
      case Retry(t) => HoldersMove(s, t, Trying); assert t !in s.Holders();
      case GiveUp(t) => HoldersLeave(s, t); assert t !in s.Holders();
    }
  }

  lemma {:induction false} SendKeeps(s: State, t: nat)
    requires Inv(s) && Enabled(s, Send(t))
    ensures Inv(Step(s, Send(t)))
  {
    var job := s.pending[t].job;
    ChosenSent(s.accepted, s.fates, ToWorker, job);
    ChosenSent(s.accepted, s.fates, Victim, job);
    HoldersLeave(s, t);
    assert t !in s.Holders();
    assert Step(s, Send(t)).Holders() == s.Holders();
    hide Chosen, Counted, JobsOf;
    assert (s.accepted + [job])[|s.fates|..] == s.queue + [job];
  }

  lemma {:induction false} EvictKeeps(s: State, t: nat)
    requires Inv(s) && Enabled(s, Evict(t))
    ensures Inv(Step(s, Evict(t)))
  {
    ChosenNext(s.accepted, s.fates, Victim, ToWorker);
    ChosenNext(s.accepted, s.fates, Victim, Victim);
    HoldersMove(s, t, HoldingVictim);
    assert t !in s.Holders();
    assert Step(s, Evict(t)).Holders() == s.Holders() + {t};
    hide Chosen, Counted, JobsOf;
    assert s.accepted[|s.fates| + 1..] == s.queue[1..];
  }

  lemma {:induction false} TakeKeeps(s: State)
    requires Inv(s) && Enabled(s, Take)
    ensures Inv(Step(s, Take))
  {
    ChosenNext(s.accepted, s.fates, ToWorker, ToWorker);
    ChosenNext(s.accepted, s.fates, ToWorker, Victim);
    var taken := Work(s.queue[0], false);
    CountedAppend(s.working, [taken]);
    CountedOne(taken);
    assert Step(s, Take).Holders() == s.Holders();
    hide Chosen, Counted, JobsOf;
    assert s.accepted[|s.fates| + 1..] == s.queue[1..];
    assert s.accepted[|s.fates|] == s.queue[0];
  }

  lemma BeginCounts(working: seq<Work>, w: nat)
    requires w < |working| && !working[w].counted
    ensures var now := working[w := working[w].(counted := true)];
            Counted(now) == Counted(working) + 1 && (|working| == 1 ==> JobsOf(now) == JobsOf(working))
  {
    var now := working[w := working[w].(counted := true)];
    CountedAt(working, w);
    CountedAt(now, w);
    assert now[..w] == working[..w] && now[w + 1..] == working[w + 1..];
    if |working| == 1 { assert now[1..] == working[1..] == []; }
  }

  lemma BeginKeeps(s: State, w: nat)
    requires Inv(s) && Enabled(s, Begin(w))
    ensures Inv(Step(s, Begin(w)))
  {
    hide Chosen, Counted, JobsOf;
    BeginCounts(s.working, w);
    assert Step(s, Begin(w)).Holders() == s.Holders();
  }

  lemma FinishCounts(working: seq<Work>, w: nat)
    requires w < |working|
    ensures Counted(working[..w] + working[w + 1..]) == Counted(working) - if working[w].counted then 1 else 0
  {
    CountedAt(working, w);
    CountedAppend(working[..w], working[w + 1..]);
  }

  lemma FinishKeeps(s: State, w: nat)
    requires Inv(s) && Enabled(s, Finish(w))
    ensures Inv(Step(s, Finish(w)))
  {
    hide Chosen, Counted, JobsOf;
    FinishCounts(s.working, w);
    if s.workers == 1 { OneWorker(s.finished, s.working, w); }
    assert Step(s, Finish(w)).Holders() == s.Holders();
  }

  /** A single worker finishes the jobs in the order it took them. */
  lemma OneWorker(finished: seq<int>, working: seq<Work>, w: nat)
    requires w < |working| <= 1
    ensures finished + JobsOf(working) == finished + [working[w].job] + JobsOf(working[..w] + working[w + 1..])
  {
    CountedOne(working[0]);
    assert working == [working[0]];
    assert working[..w] + working[w + 1..] == [];
  }

  lemma {:induction false} StepKeeps(s: State, e: Event)
    requires Inv(s) && Enabled(s, e)
    ensures Inv(Step(s, e))
  {
    match e {
      case Send(t) => hide *; SendKeeps(s, t);
      case Evict(t) => hide *; EvictKeeps(s, t);
      case Take => hide *; TakeKeeps(s);
      case Begin(w) => hide *; BeginKeeps(s, w);
      case Finish(w) => hide *; FinishKeeps(s, w);
      case Close => hide Chosen, Counted, JobsOf; assert Step(s, e).Holders() == s.Holders();
      case _ => hide *; SubmitterKeeps(s, e);
    }
  }

  /** Runs of the queue. */
  ghost predicate Reachable(s: State, steps: nat)
    decreases steps
  {
    if steps == 0 then exists capacity: nat, workers: nat :: s == Start(capacity, workers)
    else exists before, e :: Reachable(before, steps - 1) && Enabled(before, e) && s == Step(before, e)
  }

  lemma {:induction false} ReachableInv(s: State, steps: nat)
    requires Reachable(s, steps)
    ensures Inv(s)
    decreases steps
  {
    if steps == 0 {
      var capacity: nat, workers: nat :| s == Start(capacity, workers);
      StartInv(capacity, workers);
    } else {
      var before, e :| Reachable(before, steps - 1) && Enabled(before, e) && s == Step(before, e);
      ReachableInv(before, steps - 1);
      StepKeeps(before, e);
    }
  }

  // ---- what holds in every run ----

  lemma {:induction false} ChosenCovers(accepted: seq<int>, fates: seq<Fate>)
    requires |fates| <= |accepted|
    ensures |Chosen(accepted, fates, ToWorker)| + |Chosen(accepted, fates, Victim)| == |fates|
  {
    if fates != [] { ChosenCovers(accepted, fates[..|fates| - 1]); }
  }

  /** Every accepted job is finished, in the hands of a worker, queued, counted as shed, or held as a victim; the
      counters that Stats reads add up once no job is between a channel and a counter. */
  lemma {:induction false} Conservation(s: State, steps: nat)
    requires Reachable(s, steps)
    ensures |s.accepted| == |s.finished| + |s.working| + |s.queue| + s.shed + |s.Holders()|
    ensures |s.queue| <= s.capacity
    ensures s.Holders() == {} && (forall w | 0 <= w < |s.working| :: s.working[w].counted) ==>
              |s.accepted| == |s.finished| + s.inflight + |s.queue| + s.shed
  {
    ReachableInv(s, steps);
    ChosenCovers(s.accepted, s.fates);
    if forall w | 0 <= w < |s.working| :: s.working[w].counted { AllCounted(s.working); }
    hide Chosen, Counted;
  }

  lemma {:induction false} AllCounted(working: seq<Work>)
    requires forall w | 0 <= w < |working| :: working[w].counted
    ensures Counted(working) == |working|
  {
    if working != [] { AllCounted(working[1..]); }
  }

  lemma {:induction false} ChosenIsSubsequence(accepted: seq<int>, fates: seq<Fate>, fate: Fate)
    requires |fates| <= |accepted|
    ensures Subsequence(Chosen(accepted, fates, fate), accepted[..|fates|])
  {
    if fates != [] {
      var n := |fates| - 1;
      ChosenIsSubsequence(accepted, fates[..n], fate);
      var before, here := Chosen(accepted, fates[..n], fate), accepted[..n + 1];
      assert here[..n] == accepted[..n];
      if fates[n] == fate {
        assert (before + [accepted[n]])[..|before|] == before;
      } else if before != [] {
        assert before + [] == before;
      }
    }
  }

  /** With one worker, the jobs finished so far are a subsequence of the jobs as they were accepted. */
  lemma {:induction false} FinishedInOrder(s: State, steps: nat)
    requires Reachable(s, steps) && s.workers == 1
    ensures |s.queue| <= |s.accepted| && Subsequence(s.finished, s.accepted[..|s.accepted| - |s.queue|])
  {
    ReachableInv(s, steps);
    var chosen, taken := Chosen(s.accepted, s.fates, ToWorker), s.accepted[..|s.fates|];
    ChosenIsSubsequence(s.accepted, s.fates, ToWorker);
    hide Chosen, Subsequence;
    Prefix(chosen, |s.finished|, taken);
    assert chosen[..|s.finished|] == s.finished;
  }

  /** A victim was accepted before every job that stays queued. */
  lemma {:induction false} VictimIsOldest(s: State, steps: nat, t: nat)
    requires Reachable(s, steps) && Enabled(s, Evict(t))
    ensures var i := |s.fates|;
            && i + |s.queue| == |s.accepted| && s.queue[0] == s.accepted[i]
            && forall k | 0 <= k < |Step(s, Evict(t)).queue| :: Step(s, Evict(t)).queue[k] == s.accepted[i + 1 + k]
  {
    ReachableInv(s, steps);
    hide Chosen, Counted, JobsOf;
    assert forall k | 0 <= k < |s.queue| :: s.queue[k] == s.accepted[|s.fates|..][k];
  }

  /** Nothing is sent once the queue is closed, and once it has drained every accepted job was finished or shed. */
  lemma {:induction false} ClosedForGood(s: State, steps: nat)
    requires Reachable(s, steps) && s.closed
    ensures forall t :: !Enabled(s, Send(t)) && !Enabled(s, Evict(t))
    ensures s.queue == [] && s.working == [] ==> |s.accepted| == |s.finished| + s.shed
  {
    ReachableInv(s, steps);
    Conservation(s, steps);
    assert s.Holders() == {};
  }
}
