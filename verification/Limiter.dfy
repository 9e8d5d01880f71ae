/** The two-level concurrency limiter (internal/orchestrator/limiter.go) under interleaving.

    A call takes a permit of its source and then a global one; each semaphore operation is
    one atomic step, and other calls act in between.  A semaphore may refuse at any time (a
    wait can run out, and others can be queued), but it grants only below its limit. */
module Limiter {

  /** Where one call stands. */
  datatype Pc = HasSource | Holding | BackingOff | HalfReleased | Released | Rejected
  {
    predicate HoldsGlobal() { Holding? }

    predicate HoldsSource() { HasSource? || Holding? || BackingOff? || HalfReleased? }

    /** Between its two semaphores. */
    predicate InTransit() { HoldsSource() && !HoldsGlobal() }
  }

  datatype Ticket = Ticket(source: string, pc: Pc)

  datatype State = State(
    globalLimit: nat, sourceLimit: nat,
    tickets: map<nat, Ticket>,
    globalUsed: nat, sourceUsed: map<string, nat>, rejected: map<string, nat>)
  {
    function Used(name: string): nat { if name in sourceUsed then sourceUsed[name] else 0 }

    function RejectedOf(name: string): nat { if name in rejected then rejected[name] else 0 }

    ghost function GlobalHolders(): set<nat> { set t | t in tickets && tickets[t].pc.HoldsGlobal() }

    ghost function SourceHolders(name: string): set<nat> {
      set t | t in tickets && tickets[t].source == name && tickets[t].pc.HoldsSource()
    }
  }

  datatype Event =
    | TakeSource(t: nat, name: string)
    | RefuseSource(t: nat, name: string)
    | TakeGlobal(t: nat)
    | RefuseGlobal(t: nat)
    | BackOff(t: nat)
    | ReleaseGlobal(t: nat)
    | ReleaseSource(t: nat)
    | ReleaseAgain(t: nat)

  predicate Enabled(s: State, e: Event) {
    match e
    case TakeSource(t, name) => t !in s.tickets && s.Used(name) < s.sourceLimit
    case RefuseSource(t, name) => t !in s.tickets
    case TakeGlobal(t) => t in s.tickets && s.tickets[t].pc.HasSource? && s.globalUsed < s.globalLimit
    case RefuseGlobal(t) => t in s.tickets && s.tickets[t].pc.HasSource?
    case BackOff(t) => t in s.tickets && s.tickets[t].pc.BackingOff? && s.Used(s.tickets[t].source) > 0
    case ReleaseGlobal(t) => t in s.tickets && s.tickets[t].pc.Holding? && s.globalUsed > 0
    case ReleaseSource(t) => t in s.tickets && s.tickets[t].pc.HalfReleased? && s.Used(s.tickets[t].source) > 0
    case ReleaseAgain(t) => t in s.tickets && s.tickets[t].pc.Released?
  }

  function Move(s: State, t: nat, pc: Pc): State
    requires t in s.tickets
  {
    s.(tickets := s.tickets[t := s.tickets[t].(pc := pc)])
  }

  function NoteReject(s: State, name: string): State { s.(rejected := s.rejected[name := s.RejectedOf(name) + 1]) }

  function Step(s: State, e: Event): State
    requires Enabled(s, e)
  {
    match e
    case TakeSource(t, name) =>
      s.(tickets := s.tickets[t := Ticket(name, HasSource)], sourceUsed := s.sourceUsed[name := s.Used(name) + 1])
    case RefuseSource(t, name) => NoteReject(s.(tickets := s.tickets[t := Ticket(name, Rejected)]), name)
    case TakeGlobal(t) => Move(s, t, Holding).(globalUsed := s.globalUsed + 1)
    case RefuseGlobal(t) => Move(s, t, BackingOff)
    case BackOff(t) =>
      var name := s.tickets[t].source;
      NoteReject(Move(s, t, Rejected).(sourceUsed := s.sourceUsed[name := s.Used(name) - 1]), name)
    case ReleaseGlobal(t) => Move(s, t, HalfReleased).(globalUsed := s.globalUsed - 1)
    case ReleaseSource(t) =>
      var name := s.tickets[t].source;
      Move(s, t, Released).(sourceUsed := s.sourceUsed[name := s.Used(name) - 1])
    case ReleaseAgain(_) => s
  }

  /** Both levels count exactly the calls that hold their permits, and keep to their limits. */
  ghost predicate Inv(s: State) {
    && s.globalUsed == |s.GlobalHolders()| <= s.globalLimit
    && forall name :: s.Used(name) == |s.SourceHolders(name)| <= s.sourceLimit
  }

  function Start(globalLimit: nat, sourceLimit: nat): State { State(globalLimit, sourceLimit, map[], 0, map[], map[]) }

  lemma {:induction false} StartInv(globalLimit: nat, sourceLimit: nat)
    ensures Inv(Start(globalLimit, sourceLimit))
  {
    var s := Start(globalLimit, sourceLimit);
    assert s.GlobalHolders() == {};
    forall name ensures s.SourceHolders(name) == {} {
    }
  }

  function TicketOf(e: Event): nat { e.t }

  /** One step changes who holds what for its own call only. */
  lemma {:induction false} StepHolders(s: State, e: Event)
    requires Enabled(s, e)
    ensures var s', t := Step(s, e), TicketOf(e);
            && s'.GlobalHolders() - {t} == s.GlobalHolders() - {t}
            && (t in s'.GlobalHolders() <==> t in s'.tickets && s'.tickets[t].pc.HoldsGlobal())
            && forall name :: s'.SourceHolders(name) - {t} == s.SourceHolders(name) - {t}
  {
  }

  lemma {:induction false} SizeWithout(xs: set<nat>, t: nat)
    ensures |xs| == |xs - {t}| + if t in xs then 1 else 0
  {
    if t in xs { assert xs == (xs - {t}) + {t}; } else { assert xs == xs - {t}; }
  }

  function One(b: bool): int { if b then 1 else 0 }

  /** Each counter moves by exactly what its call gained or lost, and only upwards below the limit. */
  lemma {:induction false} StepCounts(s: State, e: Event, name: string)
    requires Enabled(s, e)
    ensures var s', t := Step(s, e), TicketOf(e);
            && s'.globalLimit == s.globalLimit && s'.sourceLimit == s.sourceLimit
            && s'.globalUsed == s.globalUsed - One(t in s.GlobalHolders()) + One(t in s'.GlobalHolders())
            && s'.Used(name) == s.Used(name) - One(t in s.SourceHolders(name)) + One(t in s'.SourceHolders(name))
            && (s'.globalUsed <= s.globalUsed || s'.globalUsed <= s.globalLimit)
            && (s'.Used(name) <= s.Used(name) || s'.Used(name) <= s.sourceLimit)
  {
  }

  lemma {:induction false} GlobalKept(s: State, e: Event)
    requires Inv(s) && Enabled(s, e)
    ensures var s' := Step(s, e); s'.globalUsed == |s'.GlobalHolders()| <= s'.globalLimit
  {
    StepHolders(s, e);
    StepCounts(s, e, "");
    hide Step, Enabled;
    SizeWithout(s.GlobalHolders(), TicketOf(e));
    SizeWithout(Step(s, e).GlobalHolders(), TicketOf(e));
  }

  lemma {:induction false} SourceKept(s: State, e: Event, name: string)
    requires Inv(s) && Enabled(s, e)
    ensures var s' := Step(s, e); s'.Used(name) == |s'.SourceHolders(name)| <= s'.sourceLimit
  {
    StepHolders(s, e);
    StepCounts(s, e, name);
    hide Step, Enabled;
    SizeWithout(s.SourceHolders(name), TicketOf(e));
    SizeWithout(Step(s, e).SourceHolders(name), TicketOf(e));
  }

  lemma {:induction false} StepKeeps(s: State, e: Event)
    requires Inv(s) && Enabled(s, e)
    ensures Inv(Step(s, e))
  {
    hide Step, Enabled;
    GlobalKept(s, e);
    forall name { SourceKept(s, e, name); }
  }

  /** Runs of the limiter, from empty semaphores. */
  ghost predicate Reachable(s: State, steps: nat)
    decreases steps
  {
    if steps == 0 then exists g: nat, p: nat :: s == Start(g, p)
    else exists before, e :: Reachable(before, steps - 1) && Enabled(before, e) && s == Step(before, e)
  }

  lemma {:induction false} ReachableInv(s: State, steps: nat)
    requires Reachable(s, steps)
    ensures Inv(s)
    decreases steps
  {
    if steps == 0 {
      var g: nat, p: nat :| s == Start(g, p);
      StartInv(g, p);
    } else {
      var before, e :| Reachable(before, steps - 1) && Enabled(before, e) && s == Step(before, e);
      ReachableInv(before, steps - 1);
      StepKeeps(before, e);
    }
  }

  /** A held permit can always be given back: no release finds its counter at zero. */
  lemma {:induction false} ReleasesSucceed(s: State, steps: nat, t: nat)
    requires Reachable(s, steps) && t in s.tickets
    ensures s.tickets[t].pc.Holding? ==> Enabled(s, ReleaseGlobal(t))
    ensures s.tickets[t].pc.HalfReleased? ==> Enabled(s, ReleaseSource(t))
    ensures s.tickets[t].pc.BackingOff? ==> Enabled(s, BackOff(t))
  {
    ReachableInv(s, steps);
    assert s.tickets[t].pc.HoldsGlobal() ==> t in s.GlobalHolders();
    assert s.tickets[t].pc.HoldsSource() ==> t in s.SourceHolders(s.tickets[t].source);
  }

  // ---- the two levels against each other ---------------------------------------------------

  ghost function Pick(names: set<string>): string
    requires names != {}
    ensures Pick(names) in names
  {
    var n :| n in names; n
  }

  /** Sum of the per-source counters. */
  ghost function TotalUsed(s: State, names: set<string>): nat {
    if names == {} then 0 else s.Used(Pick(names)) + TotalUsed(s, names - {Pick(names)})
  }

  ghost function HoldersAmong(s: State, names: set<string>): set<nat> {
    set t | t in s.tickets && s.tickets[t].source in names && s.tickets[t].pc.HoldsSource()
  }

  lemma {:induction false} TotalIsHolders(s: State, names: set<string>)
    requires Inv(s)
    ensures TotalUsed(s, names) == |HoldersAmong(s, names)|
    decreases names
  {
    if names == {} {
      assert HoldersAmong(s, names) == {};
    } else {
      var n := Pick(names);
      TotalIsHolders(s, names - {n});
      assert HoldersAmong(s, names) == HoldersAmong(s, names - {n}) + s.SourceHolders(n);
      assert HoldersAmong(s, names - {n}) !! s.SourceHolders(n);
    }
  }

  ghost function Transit(s: State): set<nat> { set t | t in s.tickets && s.tickets[t].pc.InTransit() }

  /** The global counter is the sum of the per-source counters less the calls between their two semaphores;
      when no call is between them, the two levels agree exactly. */
  lemma {:induction false} LevelsAgree(s: State, steps: nat, names: set<string>)
    requires Reachable(s, steps) && forall t <- s.tickets :: s.tickets[t].source in names
    ensures TotalUsed(s, names) == s.globalUsed + |Transit(s)|
    ensures (forall t <- s.tickets :: !s.tickets[t].pc.InTransit()) ==> TotalUsed(s, names) == s.globalUsed
  {
    ReachableInv(s, steps);
    TotalIsHolders(s, names);
    assert HoldersAmong(s, names) == s.GlobalHolders() + Transit(s);
    assert s.GlobalHolders() !! Transit(s);
    if forall t <- s.tickets :: !s.tickets[t].pc.InTransit() {
      assert Transit(s) == {};
    }
  }
}
