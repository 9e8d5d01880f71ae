/** The circuit breaker in front of a provider (internal/orchestrator/breaker.go).
    Times are integer nanoseconds; the clock reading is an argument. */
module Breaker {

  datatype Config = Config(threshold: int, base: int, max: int, probeTimeout: int)
  {
    predicate Valid() { threshold > 0 && 0 < base <= max && probeTimeout > 0 }

    /** How close two admissions of an open breaker can come. */
    function Gap(): int { if probeTimeout < base then probeTimeout else base }
  }

  const SECOND := 1_000_000_000
  const DEFAULTS := Config(6, 25 * SECOND, 300 * SECOND, 12 * SECOND)

  /** NewBreaker's repair of a configuration. */
  function Repaired(c: Config): (r: Config)
    ensures r.Valid()
    ensures c.Valid() ==> r == c
  {
    var base := if c.base <= 0 then DEFAULTS.base else c.base;
    var max := if c.max <= 0 then DEFAULTS.max else c.max;
    Config(if c.threshold <= 0 then DEFAULTS.threshold else c.threshold, base, if max < base then base else max,
           if c.probeTimeout <= 0 then DEFAULTS.probeTimeout else c.probeTimeout)
  }

  datatype State = State(failures: nat, trips: nat, open: bool, openUntil: int, probing: bool, probeAt: int)

  const CLOSED := State(0, 0, false, 0, false, 0)

  function Pow2(n: nat): (p: nat)
    ensures p >= 1
  {
    if n == 0 then 1 else 2 * Pow2(n - 1)
  }

  /** Doubling from the base with every trip, up to the maximum. */
  function Cooldown(c: Config, trips: nat): int {
    var d := Doubled(c, if trips == 0 then 0 else trips - 1);
    if d > c.max then c.max else d
  }

  function Doubled(c: Config, n: nat): int { c.base * Pow2(n) }

  lemma DoubledNext(c: Config, n: nat)
    ensures Doubled(c, 0) == c.base && Doubled(c, n + 1) == Doubled(c, n) * 2
  {
  }

  lemma DoubledGrows(c: Config, m: nat, n: nat)
    requires c.base > 0 && m <= n
    ensures Doubled(c, m) <= Doubled(c, n)
  {
    PowGrows(m, n);
    hide Pow2;
  }

  lemma {:induction false} PowGrows(m: nat, n: nat)
    requires m <= n
    ensures Pow2(m) <= Pow2(n)
    decreases n
  {
    if m < n { PowGrows(m, n - 1); }
  }

  lemma {:induction false} CooldownBounds(c: Config, trips: nat)
    requires c.Valid()
    ensures c.base <= Cooldown(c, trips) <= c.max
    ensures trips >= 1 ==> Cooldown(c, trips) <= Cooldown(c, trips + 1)
  {
    hide Doubled;
    var n := if trips == 0 then 0 else trips - 1;
    DoubledNext(c, 0);
    DoubledGrows(c, 0, n);
    DoubledGrows(c, n, n + 1);
  }

  // ---- one provider ---------------------------------------------------------------

  predicate Admits(c: Config, s: State, now: int) {
    !s.open || (now >= s.openUntil && !(s.probing && now - s.probeAt < c.probeTimeout))
  }

  function AfterAllow(c: Config, s: State, now: int): State {
    if s.open && Admits(c, s, now) then s.(probing := true, probeAt := now) else s
  }

  function AfterReport(c: Config, s: State, now: int, ok: bool): State {
    if ok then s.(failures := 0, trips := 0, open := false, probing := false)
    else
      var f := s.(failures := s.failures + 1);
      if s.open then
        if s.probing then f.(trips := s.trips + 1, openUntil := now + Cooldown(c, s.trips + 1), probing := false) else f
      else if f.failures >= c.threshold then
        f.(open := true, trips := 1, openUntil := now + Cooldown(c, 1), probing := false)
      else f
  }

  function AfterNeutral(s: State): State { s.(probing := false) }

  /** Closed below the threshold with nothing pending; open at or above it, after at least one trip. */
  predicate Sound(c: Config, s: State) {
    if s.open then s.failures >= c.threshold && s.trips >= 1
    else s.failures < c.threshold && s.trips == 0 && !s.probing
  }

  class Breaker {
    const cfg: Config
    var st: map<string, State>

    ghost predicate Valid()
      reads this
    {
      cfg.Valid() && forall n <- st :: Sound(cfg, st[n])
    }

    function Of(name: string): State
      reads this
    {
      if name in st then st[name] else CLOSED
    }

    constructor (c: Config)
      ensures cfg == Repaired(c) && st == map[] && Valid()
    {
      cfg := Repaired(c);
      st := map[];
    }

    method ComputeCooldown(trips: nat) returns (d: int)
      requires cfg.Valid()
      ensures d == Cooldown(cfg, trips)
    {
      hide Doubled;
      d := cfg.base;
      var i := 1;
      DoubledNext(cfg, 0);
      while i < trips && d < cfg.max
        invariant 1 <= i && (i <= trips || i == 1) && d == Doubled(cfg, i - 1)
      {
        DoubledNext(cfg, i - 1);
        d := d * 2;
        i := i + 1;
      }
      if i < trips { DoubledGrows(cfg, i - 1, trips - 1); }
      if d > cfg.max { d := cfg.max; }
    }

    method Allow(name: string, now: int) returns (ok: bool)
      requires Valid()
      modifies this`st
      ensures Valid()
      ensures ok == Admits(cfg, old(Of(name)), now)
      ensures st == old(st)[name := AfterAllow(cfg, old(Of(name)), now)]
    {
      var s := Of(name);
      st := st[name := s];
      if !s.open {
        return true;
      }
      if now < s.openUntil {
        return false;
      }
      if s.probing && now - s.probeAt < cfg.probeTimeout {
        return false;
      }
      st := st[name := s.(probing := true, probeAt := now)];
      return true;
    }

    method Report(name: string, now: int, ok: bool)
      requires Valid()
      modifies this`st
      ensures Valid()
      ensures st == old(st)[name := AfterReport(cfg, old(Of(name)), now, ok)]
    {
      var s := Of(name);
      if ok {
        st := st[name := s.(failures := 0, trips := 0, open := false, probing := false)];
        return;
      }
      s := s.(failures := s.failures + 1);
      if s.open {
        if s.probing {
          var d := ComputeCooldown(s.trips + 1);
          s := s.(trips := s.trips + 1, openUntil := now + d, probing := false);
        }
      } else if s.failures >= cfg.threshold {
        var d := ComputeCooldown(1);
        s := s.(open := true, trips := 1, openUntil := now + d, probing := false);
      }
      st := st[name := s];
    }

    method Neutral(name: string)
      requires Valid()
      modifies this`st
      ensures Valid()
      ensures st == if name in old(st) then old(st)[name := AfterNeutral(old(Of(name)))] else old(st)
    {
      if name in st {
        st := st[name := st[name].(probing := false)];
      }
    }
  }

  // ---- runs -------------------------------------------------------------------------------

  datatype Event = Ask(now: int) | Good(now: int) | Bad(now: int) | Cancel(now: int)

  function Next(c: Config, s: State, e: Event): State {
    match e
    case Ask(now) => AfterAllow(c, s, now)
    case Good(now) => AfterReport(c, s, now, true)
    case Bad(now) => AfterReport(c, s, now, false)
    case Cancel(_) => AfterNeutral(s)
  }

  function After(c: Config, s: State, events: seq<Event>): State
    decreases |events|
  {
    if events == [] then s else After(c, Next(c, s, events[0]), events[1..])
  }

  /** Every run keeps a provider's state sound. */
  lemma {:induction false} RunSound(c: Config, s: State, events: seq<Event>)
    requires c.Valid() && Sound(c, s)
    ensures Sound(c, After(c, s, events))
    decreases |events|
  {
    if events != [] {
      RunSound(c, Next(c, s, events[0]), events[1..]);
    }
  }

  predicate Granted(c: Config, s: State, e: Event) { e.Ask? && Admits(c, s, e.now) }

  /** No earlier than `from`, in order, and with nothing that says the provider is well or was not tried. */
  predicate Ailing(events: seq<Event>, from: int)
    decreases |events|
  {
    events == [] || ((events[0].Ask? || events[0].Bad?) && events[0].now >= from && Ailing(events[1..], events[0].now))
  }

  function Admissions(c: Config, s: State, events: seq<Event>): nat
    decreases |events|
  {
    if events == [] then 0
    else (if Granted(c, s, events[0]) then 1 else 0) + Admissions(c, Next(c, s, events[0]), events[1..])
  }

  /** Time of the last admission in a run, or `t0` when it has none. */
  function LastAdmission(c: Config, s: State, events: seq<Event>, t0: int): int
    decreases |events|
  {
    if events == [] then t0
    else LastAdmission(c, Next(c, s, events[0]), events[1..], if Granted(c, s, events[0]) then events[0].now else t0)
  }

  /** Before this moment an open breaker admits nobody, as long as nothing is reported. */
  function EarliestNext(c: Config, s: State): int {
    if s.probing && s.probeAt + c.probeTimeout > s.openUntil then s.probeAt + c.probeTimeout else s.openUntil
  }

  /** While a provider stays unwell, every further admission costs at least a gap: an open breaker that has
      admitted at `t0` needs at least k gaps to admit k times more. */
  lemma {:induction false} AdmissionsSpaced(c: Config, s: State, events: seq<Event>, t0: int, from: int)
    requires c.Valid() && s.open && Sound(c, s) && t0 <= from && Ailing(events, from)
    requires EarliestNext(c, s) >= t0 + c.Gap()
    ensures LastAdmission(c, s, events, t0) >= t0 + Admissions(c, s, events) * c.Gap()
    ensures After(c, s, events).open
    decreases |events|
  {
    if events != [] {
      var e, s' := events[0], Next(c, s, events[0]);
      CooldownBounds(c, s.trips + 1);
      if Granted(c, s, e) {
        AdmissionsSpaced(c, s', events[1..], e.now, e.now);
        assert (Admissions(c, s', events[1..]) + 1) * c.Gap() == Admissions(c, s', events[1..]) * c.Gap() + c.Gap();
      } else {
        AdmissionsSpaced(c, s', events[1..], t0, e.now);
      }
    }
  }

  /** The same from the moment the breaker trips: the first admission waits a whole cooldown, and the rest
      follow at least a gap apart. */
  lemma {:induction false} TripHolds(c: Config, s: State, at: int, events: seq<Event>)
    requires c.Valid() && Sound(c, s) && !s.open && Ailing(events, at)
    requires AfterReport(c, s, at, false).open
    ensures var tripped := AfterReport(c, s, at, false);
            && LastAdmission(c, tripped, events, at) >= at + Admissions(c, tripped, events) * c.Gap()
            && After(c, tripped, events).open
  {
    CooldownBounds(c, 1);
    AdmissionsSpaced(c, AfterReport(c, s, at, false), events, at, at);
  }

  /** A failed probe keeps everybody out for the whole cooldown of its trip, which never gets shorter. */
  lemma {:induction false} FailedProbeBacksOff(c: Config, s: State, at: int, now: int)
    requires c.Valid() && Sound(c, s) && s.open && s.probing
    ensures var s' := AfterReport(c, s, at, false);
            && s'.trips == s.trips + 1
            && (Admits(c, s', now) <==> now >= at + Cooldown(c, s.trips + 1))
            && Cooldown(c, s.trips) <= Cooldown(c, s.trips + 1)
  {
    CooldownBounds(c, s.trips);
  }

  /** Half-open: after a probe is let through, nobody else is until it is reported or times out. */
  lemma {:induction false} OneProbe(c: Config, s: State, at: int, now: int)
    requires c.Valid() && s.open && Admits(c, s, at) && now >= at
    ensures Admits(c, AfterAllow(c, s, at), now) <==> now - at >= c.probeTimeout
  {
  }
}
