/** What the end of a race means: the answer it returns, and when its status map may be taken for a miss
    (internal/orchestrator/race.go; shouldCacheNegativeResult in internal/service/service.go). */
module RaceOutcome {
  import opened Wrappers
  import opened NegativeCache
  import opened Race
  import Grading

  // ---- the answer of a phase ------------------------------------------------------------------

  function Lo(s: State, p: nat): nat { if p == 0 then 0 else s.first }

  /** The result slots of a phase when its answer is picked: one for each source asked in it, filled for those whose
      results have been received.  `source` is the name a result carries. */
  function Slots(s: State, p: nat, source: nat -> string): seq<Option<Grading.Result>>
    requires s.Sized() && p < 2
  {
    var lo := Lo(s, p);
    seq(s.Until(p) - lo, k requires 0 <= k =>
      var i := lo + k;
      if i in s.phases[p].received then Some(Grading.Result(source(i), s.Prio(i), s.Prio(i) > 0)) else None)
  }

  function SourceAt(s: State, p: nat, w: Option<nat>): Option<nat> {
    match w case None => None case Some(k) => Some(Lo(s, p) + k)
  }

  /** Every answer pickWinner can give for the slots of a phase is one of the best answers received in it, and none
      only if none was received: the choice the race's steps leave open is the one pickWinner makes. */
  lemma PickWinnerIsPick(s: State, p: nat, source: nat -> string, names: seq<string>, w: Option<nat>)
    requires Reachable(s) && p < 2 && Grading.Picked(Slots(s, p, source), names, w)
    ensures IsPick(s, s.phases[p].received, SourceAt(s, p, w))
  {
    ReachableInv(s);
    ReceivedIn(s, p);
    hide Inv, Reachable, KeysOk;
    SlotsPick(s, p, source, names, w);
  }

  lemma ReceivedIn(s: State, p: nat)
    requires Inv(s) && p < 2
    ensures forall i <- s.phases[p].received :: Lo(s, p) <= i < s.Until(p)
  {
    hide TasksOk, StageOk;
  }

  /** Each result received has its slot. */
  lemma SlotOf(s: State, p: nat, source: nat -> string, i: nat)
    requires s.Sized() && p < 2 && i in s.phases[p].received && Lo(s, p) <= i < s.Until(p)
    ensures var slots, k := Slots(s, p, source), i - Lo(s, p);
            0 <= k < |slots| && slots[k] == Some(Grading.Result(source(i), s.Prio(i), s.Prio(i) > 0))
  {
  }

  /** Nothing else has one. */
  lemma SlotHas(s: State, p: nat, source: nat -> string, k: nat)
    requires s.Sized() && p < 2 && k < |Slots(s, p, source)| && Slots(s, p, source)[k].Some?
    ensures var i := Lo(s, p) + k;
            i in s.phases[p].received
            && Slots(s, p, source)[k].value == Grading.Result(source(i), s.Prio(i), s.Prio(i) > 0)
  {
  }

  /** Where lyrics and a priority come together, the answer picked has the highest priority of all. */
  lemma PickMeans(slots: seq<Option<Grading.Result>>, names: seq<string>, w: Option<nat>)
    requires Grading.Picked(slots, names, w)
    requires forall k | 0 <= k < |slots| && slots[k].Some? :: slots[k].value.hasLyrics <==> slots[k].value.priority > 0
    ensures w.None? ==> forall k | 0 <= k < |slots| && slots[k].Some? :: slots[k].value.priority <= 0
    ensures w.Some? ==> w.value < |slots| && slots[w.value].Some? && slots[w.value].value.priority > 0
    ensures w.Some? ==>
              forall k | 0 <= k < |slots| && slots[k].Some? :: slots[k].value.priority <= slots[w.value].value.priority
  {
    hide Grading.NameOrder;
  }

  lemma SlotsPick(s: State, p: nat, source: nat -> string, names: seq<string>, w: Option<nat>)
    requires s.Sized() && p < 2 && (forall i <- s.phases[p].received :: Lo(s, p) <= i < s.Until(p))
    requires Grading.Picked(Slots(s, p, source), names, w)
    ensures IsPick(s, s.phases[p].received, SourceAt(s, p, w))
  {
    hide Slots, Grading.Picked;
    var slots, lo := Slots(s, p, source), Lo(s, p);
    forall k | 0 <= k < |slots| && slots[k].Some?
      ensures slots[k].value.hasLyrics <==> slots[k].value.priority > 0
    {
      SlotHas(s, p, source, k);
    }
    PickMeans(slots, names, w);
    if w.Some? { SlotHas(s, p, source, w.value); }
    forall i <- s.phases[p].received
      ensures if w.Some? then s.Prio(i) <= s.Prio(lo + w.value) else s.Prio(i) == 0
    {
      SlotOf(s, p, source, i);
    }
  }

  // ---- when the status map looks like a miss ------------------------------------------------------

  predicate Concluded(pc: Pc) { pc.Recorded? || pc.Settled? || pc.Returned? || pc.Sent? || pc.Exited? }

  /** Asked and found nothing, for reasons that say nothing about the source's health. */
  predicate MissedCleanly(pc: Pc) { Concluded(pc) && pc.v.CleanMiss? }

  /** Not there to be asked: unknown, not configured, or no longer configured when its turn came. */
  predicate NotAsked(pc: Pc) {
    pc == Left(Unknown) || pc == Left(NotConfigured) || ((pc.Returned? || pc.Sent? || pc.Exited?) && pc.v.Unconfigured?)
  }

  /** The phase that would have asked the source has not come to it. */
  predicate NeverReached(pc: Pc) { pc.Idle? }

  /** Launched, but its fetch has not begun. */
  predicate NotYetAsked(pc: Pc) { pc.Ready? || pc.Checked? || pc.ReleasedEarly? }

  /** Its verdict is recorded, but not yet the mark that it was unwell. */
  predicate Unmarked(pc: Pc) { pc.Recorded? && pc.v.Unhealthy? }

  /** It has answered. */
  predicate Answered(pc: Pc) { Concluded(pc) && pc.v.Ok? }

  /** A source that is neither a clean miss nor out of the question, and yet does not show in the status map. */
  predicate Hidden(pc: Pc) { NeverReached(pc) || NotYetAsked(pc) || Unmarked(pc) || Answered(pc) }

  /** At every moment of every race the status map looks like a miss exactly when each source has missed cleanly, was
      out of the question or is hidden, and at least one missed or lacks its mark. */
  lemma CacheableWhen(s: State)
    requires Reachable(s)
    ensures Cacheable(s.status) <==>
              && (forall i | 0 <= i < |s.tasks| ::
                    MissedCleanly(s.tasks[i].pc) || NotAsked(s.tasks[i].pc) || Hidden(s.tasks[i].pc))
              && (exists i :: 0 <= i < |s.tasks| && (MissedCleanly(s.tasks[i].pc) || Unmarked(s.tasks[i].pc)))
  {
    ReachableInv(s);
    hide Inv, Reachable;
    ManyShow(s);
  }

  /** How one source shows in the status map. */
  lemma Shows(t: Task, status: map<nat, Outcome>, i: nat)
    requires Accounted(t, status, i)
    ensures MissedCleanly(t.pc) || NotAsked(t.pc) || Hidden(t.pc) <==> !(i in status && Blocks(status[i]))
    ensures MissedCleanly(t.pc) || Unmarked(t.pc) <==> i in status && status[i].word == BAD && !status[i].degraded
  {
  }

  lemma ManyShow(s: State)
    requires Inv(s) && KeysOk(s)
    ensures Cacheable(s.status) <==>
              && (forall i | 0 <= i < |s.tasks| ::
                    MissedCleanly(s.tasks[i].pc) || NotAsked(s.tasks[i].pc) || Hidden(s.tasks[i].pc))
              && (exists i :: 0 <= i < |s.tasks| && (MissedCleanly(s.tasks[i].pc) || Unmarked(s.tasks[i].pc)))
  {
    forall i | 0 <= i < |s.tasks|
      ensures MissedCleanly(s.tasks[i].pc) || NotAsked(s.tasks[i].pc) || Hidden(s.tasks[i].pc)
              <==> !(i in s.status && Blocks(s.status[i]))
      ensures MissedCleanly(s.tasks[i].pc) || Unmarked(s.tasks[i].pc)
              <==> i in s.status && s.status[i].word == BAD && !s.status[i].degraded
    {
      TaskOf(s, i);
      Shows(s.tasks[i], s.status, i);
    }
    hide Inv, MissedCleanly, NotAsked, Hidden, Unmarked;
    if Cacheable(s.status) {
      var k :| k in s.status && s.status[k].word == BAD;
      assert !Blocks(s.status[k]);
    } else if exists i :: 0 <= i < |s.tasks| && (MissedCleanly(s.tasks[i].pc) || Unmarked(s.tasks[i].pc)) {
      var i :| 0 <= i < |s.tasks| && (MissedCleanly(s.tasks[i].pc) || Unmarked(s.tasks[i].pc));
      assert s.status[i].word == BAD;
    }
  }

  /** Everybody who could be asked was asked and missed cleanly. */
  ghost predicate AllMissed(s: State) {
    forall i | 0 <= i < |s.tasks| :: MissedCleanly(s.tasks[i].pc) || NotAsked(s.tasks[i].pc)
  }

  ghost predicate SomeHidden(s: State) { exists i :: 0 <= i < |s.tasks| && Hidden(s.tasks[i].pc) }

  /** A race that found nothing and was not cut short, as none is while its caller waits, looks like a miss exactly
      when everybody who could be asked missed cleanly, and somebody was asked: nobody overloaded, cut off, late,
      cancelled or unwell. */
  lemma NegativeOnlyWhenClean(s: State)
    requires Reachable(s) && s.stage == Finished(None) && (s.exhausted || !s.callerGone)
    ensures !SomeHidden(s)
    ensures Cacheable(s.status) <==> AllMissed(s) && exists i :: 0 <= i < |s.tasks| && MissedCleanly(s.tasks[i].pc)
  {
    hide Inv, Reachable, KeysOk, Cacheable, MissedCleanly, NotAsked, Hidden, Unmarked;
    ReachableInv(s);
    forall i | 0 <= i < |s.tasks| ensures !Hidden(s.tasks[i].pc) && !Unmarked(s.tasks[i].pc) {
      EndedHow(s, i);
    }
    CacheableWhen(s);
  }

  lemma ReceivedWasSent(s: State, p: nat)
    requires Inv(s) && p < 2
    ensures s.phases[p].received <= s.phases[p].sent
  {
    hide TasksOk, StageOk;
  }

  lemma AnswersCount(t: Task, status: map<nat, Outcome>, i: nat)
    requires Accounted(t, status, i)
    ensures (t.pc.Sent? || t.pc.Exited?) && t.pc.v.Ok? ==> t.pc.v.priority > 0
  {
  }

  /** How one source stands when everybody was asked and nobody answered. */
  lemma EndedHow(s: State, i: nat)
    requires Inv(s) && s.stage == Finished(None) && s.exhausted && i < |s.tasks|
    ensures s.tasks[i].pc.Left? || ((s.tasks[i].pc.Sent? || s.tasks[i].pc.Exited?) && !s.tasks[i].pc.v.Ok?)
    ensures !Hidden(s.tasks[i].pc) && !Unmarked(s.tasks[i].pc)
  {
    hide Inv, TasksOk, Accounted, PhaseOk, FirstOver;
    InvParts(s, 0);
    ReceivedWasSent(s, 0);
    ReceivedWasSent(s, 1);
    TaskOf(s, i);
    AnswersCount(s.tasks[i], s.status, i);
    assert i in s.phases[s.PhaseOf(i)].launched ==> i in s.phases[0].received + s.phases[1].received;
    assert i in s.phases[0].received + s.phases[1].received ==> s.Prio(i) == 0;
  }

  /** A race that ends with nothing looks like a miss although not everybody missed cleanly exactly when a source is
      hidden, nobody was overloaded, cut off, late, cancelled or marked unwell, and one missed or lacks its mark.
      Sources are hidden only from callers who left. */
  lemma FalseMissWhen(s: State)
    requires Reachable(s) && s.stage == Finished(None)
    ensures Cacheable(s.status) && !AllMissed(s) <==>
              && SomeHidden(s)
              && (forall i | 0 <= i < |s.tasks| ::
                    MissedCleanly(s.tasks[i].pc) || NotAsked(s.tasks[i].pc) || Hidden(s.tasks[i].pc))
              && (exists i :: 0 <= i < |s.tasks| && (MissedCleanly(s.tasks[i].pc) || Unmarked(s.tasks[i].pc)))
    ensures SomeHidden(s) ==> s.callerGone && !s.exhausted
  {
    CacheableWhen(s);
    ReachableInv(s);
    if s.exhausted { NegativeOnlyWhenClean(s); }
    HiddenIsNoMiss(s);
    hide Reachable, Cacheable, MissedCleanly, NotAsked, Hidden, Unmarked, Inv, KeysOk;
  }

  lemma HiddenIsNoMiss(s: State)
    ensures SomeHidden(s) ==> !AllMissed(s)
  {
    if i :| 0 <= i < |s.tasks| && Hidden(s.tasks[i].pc) {
      assert !MissedCleanly(s.tasks[i].pc) && !NotAsked(s.tasks[i].pc);
    }
  }
}
