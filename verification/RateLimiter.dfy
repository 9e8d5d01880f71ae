/** The fixed-window rate limiter with sharding and pruning (internal/api/middleware/middleware.go).
    Times are in nanoseconds. */
module RateLimiter {

  import opened Wrappers

  const NUM_SHARDS := 64

  datatype IpEntry = IpEntry(windowStart: int, count: nat, last: int)

  datatype Shard = Shard(perIP: map<string, IpEntry>, lastPrune: int)

  datatype Answer = Admit | Deny(seconds: int)

  datatype Config = Config(max: nat, window: int)

  predicate Sensible(c: Config) { c.max > 0 && c.window > 0 }

  // ---- the limiter nobody prunes: one key, as a function of its request times ----

  datatype Window = Window(start: int, count: nat)

  function Next(c: Config, o: Option<Window>, now: int): Window {
    if o.None? || now - o.value.start >= c.window then Window(now, 1)
    else if o.value.count >= c.max then o.value
    else Window(o.value.start, o.value.count + 1)
  }

  /** The window after a sequence of requests. */
  function After(c: Config, times: seq<int>): Option<Window> {
    if times == [] then None else Some(Next(c, After(c, times[..|times| - 1]), times[|times| - 1]))
  }

  predicate Admitted(c: Config, o: Option<Window>, now: int) {
    o.None? || now - o.value.start >= c.window || o.value.count < c.max
  }

  /** Whole seconds until the window ends, at least one. */
  function RetrySeconds(remNs: int): int { if remNs / 1_000_000_000 < 1 then 1 else remNs / 1_000_000_000 }

  function AnswerTo(c: Config, times: seq<int>, now: int): Answer {
    var o := After(c, times);
    if Admitted(c, o, now) then Admit else Deny(RetrySeconds(c.window - (now - o.value.start)))
  }

  // ---- at most twice the limit in any interval of one window length ----

  predicate Sorted(times: seq<int>) { forall i, j | 0 <= i < j < |times| :: times[i] <= times[j] }

  /** How many requests were admitted at time `t` or later. */
  function AdmittedSince(c: Config, times: seq<int>, t: int): nat {
    if times == [] then 0
    else
      var before, now := times[..|times| - 1], times[|times| - 1];
      AdmittedSince(c, before, t) + if now >= t && Admitted(c, After(c, before), now) then 1 else 0
  }

  /** The current window: what it counts was admitted in it, and everything before lies before it. */
  lemma {:induction false} CurrentWindow(c: Config, times: seq<int>)
    requires Sensible(c) && Sorted(times) && times != []
    ensures var w := After(c, times).value;
            && 1 <= w.count <= c.max && w.start <= times[|times| - 1] < w.start + c.window
            && forall t | t >= w.start :: AdmittedSince(c, times, t) <= w.count
  {
    var before, now := times[..|times| - 1], times[|times| - 1];
    if before == [] {
      assert forall t :: AdmittedSince(c, before, t) == 0;
    } else {
      CurrentWindow(c, before);
      var w := After(c, before).value;
      assert times[|before| - 1] <= now;
      if now - w.start >= c.window {
        NoneYet(c, before, now);
        forall t | t >= now ensures AdmittedSince(c, before, t) == 0 { NoneLater(c, before, now, t); }
      }
    }
  }

  /** No request has been made at a time after the last one. */
  lemma {:induction false} NoneYet(c: Config, times: seq<int>, now: int)
    requires Sorted(times) && forall i | 0 <= i < |times| :: times[i] < now
    ensures AdmittedSince(c, times, now) == 0
  {
    if times != [] { NoneYet(c, times[..|times| - 1], now); }
  }

  lemma {:induction false} NoneLater(c: Config, times: seq<int>, now: int, t: int)
    requires Sorted(times) && t >= now && forall i | 0 <= i < |times| :: times[i] < now
    ensures AdmittedSince(c, times, t) == 0
  {
    NoneYet(c, times, t);
  }

  /** For every run and every interval that starts at `t` and is one window long. */
  lemma {:induction false} TwiceTheLimit(c: Config, times: seq<int>, t: int)
    requires Sensible(c) && Sorted(times) && (times != [] ==> times[|times| - 1] <= t + c.window)
    ensures AdmittedSince(c, times, t) <= 2 * c.max
    ensures times != [] ==>
              var w := After(c, times).value;
              AdmittedSince(c, times, t) <= w.count + if w.start <= t then 0 else c.max
  {
    if times != [] {
      var before, now := times[..|times| - 1], times[|times| - 1];
      CurrentWindow(c, times);
      if before != [] {
        CurrentWindow(c, before);
        assert times[|before| - 1] <= now;
        TwiceTheLimit(c, before, t);
        var w := After(c, before).value;
        if now - w.start >= c.window {
          assert forall i | 0 <= i < |before| :: before[i] <= before[|before| - 1] < now;
          if now <= t { NoneLater(c, before, now, t); }
        }
      }
    }
  }

  /** A refused client that waits the seconds it was told is let in exactly when they cover the rest of the
      window: the seconds are rounded down, so a fraction of a second may be missing. */
  lemma {:induction false} RetryAdvice(c: Config, times: seq<int>, now: int)
    requires Sensible(c) && Sorted(times) && AnswerTo(c, times, now).Deny?
    requires times != [] ==> times[|times| - 1] <= now
    ensures var seconds, w := AnswerTo(c, times, now).seconds, After(c, times).value;
            var rest := c.window - (now - w.start);
            && seconds >= 1
            && (AnswerTo(c, times + [now], now + seconds * 1_000_000_000) == Admit
                <==> rest % 1_000_000_000 == 0 || rest < 1_000_000_000)
  {
    OneMore(c, times, now);
    CurrentWindow(c, times);
    hide After, AdmittedSince;
  }

  /** One request in two and a half seconds: a second after it, a client with a second and a half to go is told to wait
      one second, and is refused again when it has. */
  lemma RetryTooSoon()
    ensures var c := Config(1, 2_500_000_000);
            && AnswerTo(c, [0], 1_000_000_000) == Deny(1)
            && AnswerTo(c, [0, 1_000_000_000], 2_000_000_000) == Deny(1)
  {
    var c := Config(1, 2_500_000_000);
    assert [0][..0] == [] && [0, 1_000_000_000][..1] == [0];
    assert After(c, []) == None && After(c, [0]) == Some(Window(0, 1));
    assert After(c, [0, 1_000_000_000]) == Some(Window(0, 1));
  }

  // ---- the limiter itself ----

  /** `entry` is what the table should hold for a key with these requests. */
  ghost predicate Faithful(c: Config, entry: IpEntry, times: seq<int>) {
    times != [] && After(c, times) == Some(Window(entry.windowStart, entry.count)) && entry.last == times[|times| - 1]
  }

  /** A pruned key: it has not been seen for more than a window, so its window is over. */
  ghost predicate Forgotten(c: Config, times: seq<int>, now: int) {
    times == [] || times[|times| - 1] + c.window < now
  }

  ghost predicate Upto(times: seq<int>, clock: int) {
    Sorted(times) && forall i | 0 <= i < |times| :: times[i] <= clock
  }

  ghost function AskedIn(asked: map<string, seq<int>>, key: string): seq<int> {
    if key in asked then asked[key] else []
  }

  function Lookup(perIP: map<string, IpEntry>, key: string): Option<IpEntry> {
    if key in perIP then Some(perIP[key]) else None
  }

  ghost predicate Consistent(c: Config, entry: Option<IpEntry>, times: seq<int>, now: int) {
    if entry.Some? then Faithful(c, entry.value, times) else Forgotten(c, times, now)
  }

  /** What a table says about a key agrees with what the key has asked. */
  ghost predicate KeyOk(c: Config, perIP: map<string, IpEntry>, asked: map<string, seq<int>>, clock: int, k: string) {
    Upto(AskedIn(asked, k), clock) && Consistent(c, Lookup(perIP, k), AskedIn(asked, k), clock)
  }

  lemma KeyLater(c: Config, perIP: map<string, IpEntry>, asked: map<string, seq<int>>, clock: int, now: int, k: string)
    requires KeyOk(c, perIP, asked, clock, k) && clock <= now
    ensures KeyOk(c, perIP, asked, now, k)
  {
    hide After;
  }

  function Unsilenced(perIP: map<string, IpEntry>, pruneAfter: int): map<string, IpEntry> {
    map k | k in perIP && perIP[k].last >= pruneAfter :: perIP[k]
  }

  lemma KeyPruned(c: Config, perIP: map<string, IpEntry>, asked: map<string, seq<int>>, now: int, k: string)
    requires Sensible(c) && KeyOk(c, perIP, asked, now, k)
    ensures KeyOk(c, Unsilenced(perIP, now - c.window * 2), asked, now, k)
  {
    hide After, Sorted;
  }

  lemma KeyRecorded(c: Config, perIP: map<string, IpEntry>, asked: map<string, seq<int>>, now: int, key: string,
                    e: IpEntry,
                    k: string)
    requires KeyOk(c, perIP, asked, now, k)
    requires Faithful(c, e, AskedIn(asked, key) + [now])
    ensures KeyOk(c, perIP[key := e], asked[key := AskedIn(asked, key) + [now]], now, k)
  {
    hide Faithful, Forgotten;
  }

  class Limiter {
    const config: Config
    const shardOf: string -> nat
    var shards: seq<Shard>

    /** The times at which each key has asked, and the latest of all. */
    ghost var asked: map<string, seq<int>>
    ghost var clock: int

    ghost predicate Valid()
      reads this
    {
      && Sensible(config) && |shards| == NUM_SHARDS && (forall k :: shardOf(k) < NUM_SHARDS)
      && (forall k :: KeyOk(config, shards[shardOf(k)].perIP, asked, clock, k))
    }

    constructor (max: nat, window: int, shardOf: string -> nat, now: int)
      requires max > 0 && forall k :: shardOf(k) < NUM_SHARDS
      ensures Valid() && asked == map[] && clock == now
      ensures config.max == max && config.window == (if window <= 0 then 10_000_000_000 else window)
    {
      config := Config(max, if window <= 0 then 10_000_000_000 else window);
      this.shardOf := shardOf;
      shards := seq(NUM_SHARDS, i => Shard(map[], now));
      asked, clock := map[], now;
    }

    /** Every answer depends on the key's own requests alone: pruning and sharding cannot be observed. */
    method Allow(key: string, now: int) returns (answer: Answer)
      requires Valid() && now >= clock
      modifies this
      ensures Valid() && clock == now && asked == old(asked)[key := AskedIn(old(asked), key) + [now]]
      ensures answer == AnswerTo(config, AskedIn(old(asked), key), now)
    {
      var idx := shardOf(key);
      Prune(idx, now);
      clock := now;
      ghost var times := AskedIn(asked, key);
      var perIP := shards[idx].perIP;
      assert KeyOk(config, perIP, asked, now, key);
      hide Faithful, Forgotten, After, AnswerTo;
      var e;
      e, answer := Decide(config, Lookup(perIP, key), now, times);
      ghost var was := shards;
      forall k | shardOf(k) == idx ensures KeyOk(config, perIP[key := e], asked[key := times + [now]], now, k) {
        assert KeyOk(config, shards[shardOf(k)].perIP, asked, now, k);
        KeyRecorded(config, perIP, asked, now, key, e, k);
      }
      forall k | shardOf(k) != idx
        ensures KeyOk(config, shards[shardOf(k)].perIP, asked[key := times + [now]], now, k)
      {
        assert KeyOk(config, shards[shardOf(k)].perIP, asked, now, k);
        OtherKey(config, shards[shardOf(k)].perIP, asked, now, key, times + [now], k);
      }
      shards := shards[idx := shards[idx].(perIP := perIP[key := e])];
      asked := asked[key := times + [now]];
      hide KeyOk;
    }

    /** Drops the keys that have been silent for two windows, at most every two windows. */
    method Prune(idx: nat, now: int)
      requires Valid() && now >= clock && idx < NUM_SHARDS
      modifies this`shards
      ensures |shards| == NUM_SHARDS && forall k :: KeyOk(config, shards[shardOf(k)].perIP, asked, now, k)
    {
      forall k ensures KeyOk(config, shards[shardOf(k)].perIP, asked, now, k) {
        KeyLater(config, shards[shardOf(k)].perIP, asked, clock, now, k);
      }
      var shard := shards[idx];
      if now - shard.lastPrune > config.window * 2 {
        var beforeLen := |shard.perIP|;
        var perIP := Unsilenced(shard.perIP, now - config.window * 2);
        forall k | shardOf(k) == idx ensures KeyOk(config, perIP, asked, now, k) {
          assert KeyOk(config, shards[shardOf(k)].perIP, asked, now, k);
          KeyPruned(config, shard.perIP, asked, now, k);
        }
        if beforeLen > 256 && |perIP| < beforeLen / 4 {
          var rebuilt := map k | k in perIP :: perIP[k];
          assert rebuilt == perIP;
          perIP := rebuilt;
        }
        shards := shards[idx := Shard(perIP, now)];
        hide KeyOk;
      }
    }
  }

  lemma OtherKey(c: Config, perIP: map<string, IpEntry>, asked: map<string, seq<int>>, now: int, key: string,
                 times: seq<int>, k: string)
    requires KeyOk(c, perIP, asked, now, k) && k != key
    ensures KeyOk(c, perIP, asked[key := times], now, k)
  {
    hide Consistent, Upto;
  }

  /** One request against the entry of its key, if the table still has one. */
  method Decide(c: Config, o: Option<IpEntry>, now: int, ghost times: seq<int>) returns (e: IpEntry, answer: Answer)
    requires Sensible(c) && Sorted(times)
    requires Consistent(c, o, times, now)
    ensures Faithful(c, e, times + [now]) && answer == AnswerTo(c, times, now)
  {
    OneMore(c, times, now);
    if times != [] { CurrentWindow(c, times); }
    hide After, AdmittedSince;
    if o.None? {
      e := IpEntry(now, 1, now);
      answer := Admit;
    } else {
      e := o.value.(last := now);
      var elapsed := now - e.windowStart;
      if elapsed >= c.window {
        e := e.(windowStart := now, count := 1);
        answer := Admit;
      } else if e.count >= c.max {
        answer := Deny(RetrySeconds(c.window - elapsed));
      } else {
        e := e.(count := e.count + 1);
        answer := Admit;
      }
    }
  }

  /** What one more request does to the window, branch by branch. */
  lemma OneMore(c: Config, times: seq<int>, now: int)
    ensures After(c, times + [now]) == Some(Next(c, After(c, times), now))
    ensures times == [] ==> After(c, times) == None
    ensures times != [] ==> After(c, times).Some?
  {
    assert (times + [now])[..|times|] == times;
  }
}
