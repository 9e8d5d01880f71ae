/** Whole runs of the in-memory cache: what is resident, in which order, and what eviction takes
    (internal/storage/memcache.go). */
module CacheRuns {
  import opened Wrappers
  import opened MemCache
  import opened Subsequences

  datatype Event = Got(key: string, now: int) | Put(key: string, entry: CacheEntry, now: int) | Shedding(now: int)

  datatype Limits = Limits(maxKeys: nat, maxBytes: int, maxBody: int)
  {
    predicate Takes(e: CacheEntry) { EntrySize(e) <= maxBody }
  }

  function Next(l: Limits, slots: seq<Slot>, e: Event): seq<Slot> {
    match e
    case Got(key, now) => AfterGet(slots, key, now)
    case Put(key, entry, now) => AfterSet(slots, key, entry, now, l.maxKeys, l.maxBytes, l.maxBody)
    case Shedding(now) => AfterShed(slots, now)
  }

  /** What is resident after a run, oldest first. */
  function Resident(l: Limits, run: seq<Event>): seq<Slot> {
    if run == [] then [] else Next(l, Resident(l, run[..|run| - 1]), run[|run| - 1])
  }

  predicate Uses(l: Limits, e: Event, key: string) {
    match e
    case Got(k, _) => k == key
    case Put(k, entry, _) => k == key && l.Takes(entry)
    case Shedding(_) => false
  }

  /** When a key was last asked for or stored; -1 if never. */
  function LastUse(l: Limits, run: seq<Event>, key: string): (n: int)
    ensures -1 <= n < |run|
  {
    if run == [] then -1
    else if Uses(l, run[|run| - 1], key) then |run| - 1
    else LastUse(l, run[..|run| - 1], key)
  }

  /** The entry last stored under a key. */
  function LastStored(l: Limits, run: seq<Event>, key: string): Option<CacheEntry> {
    if run == [] then None
    else
      var e := run[|run| - 1];
      if e.Put? && Uses(l, e, key) then Some(Stored(e.entry, e.now)) else LastStored(l, run[..|run| - 1], key)
  }

  /** Oldest use first, no key twice, and every entry the one last stored. */
  ghost predicate Faithful(l: Limits, run: seq<Event>, slots: seq<Slot>) {
    && (forall i, j | 0 <= i < j < |slots| :: LastUse(l, run, slots[i].key) < LastUse(l, run, slots[j].key))
    && (forall i | 0 <= i < |slots| :: LastStored(l, run, slots[i].key) == Some(slots[i].entry))
  }

  /** Leaving slots out keeps the order and the entries. */
  lemma {:induction false} ThinnedFaithful(l: Limits, run: seq<Event>, part: seq<Slot>, whole: seq<Slot>)
    requires Subsequence(part, whole) && Faithful(l, run, whole)
    ensures Faithful(l, run, part)
  {
    hide LastUse, LastStored;
    if part != [] {
      var front, last := whole[..|whole| - 1], whole[|whole| - 1];
      assert Faithful(l, run, front);
      if part[|part| - 1] == last && Subsequence(part[..|part| - 1], front) {
        var p := part[..|part| - 1];
        ThinnedFaithful(l, run, p, front);
        Members(p, front);
        forall i | 0 <= i < |p| ensures LastUse(l, run, part[i].key) < LastUse(l, run, last.key) {
          assert p[i] in front;
          var k :| 0 <= k < |front| && front[k] == p[i];
          assert whole[k] == p[i];
        }
        assert part == p + [last];
      } else {
        ThinnedFaithful(l, run, part, front);
      }
    }
  }

  lemma WithoutThins(slots: seq<Slot>, key: string)
    ensures Subsequence(Without(slots, key), slots)
    ensures Find(slots, key) == |slots| ==> Without(slots, key) == slots
  {
    var i := Find(slots, key);
    Self(slots);
    if i < |slots| {
      Self(slots[..i]);
      assert slots[..i + 1][..i] == slots[..i];
      DropLast(slots[..i + 1]);
      Append(slots[..i], slots[..i + 1], slots[i + 1..]);
      assert slots[..i + 1] + slots[i + 1..] == slots;
    }
  }

  lemma DropLast(slots: seq<Slot>)
    requires slots != []
    ensures Subsequence(slots[..|slots| - 1], slots)
  {
    Self(slots[..|slots| - 1]);
  }

  lemma {:induction false} LiveThins(slots: seq<Slot>, now: int)
    ensures Subsequence(Live(slots, now), slots)
  {
    if slots != [] {
      var first, rest := slots[0], slots[1..];
      LiveThins(rest, now);
      assert slots == [first] + rest;
      Suffix(slots, 1);
      if Expired(first.entry, now) {
        assert Live(slots, now) == Live(rest, now);
        Through(Live(rest, now), rest, slots);
      } else {
        Behind(first, Live(rest, now), rest);
      }
    }
  }

  lemma {:induction false} KeptThins(slots: seq<Slot>, size: nat, maxBytes: int, maxKeys: nat)
    ensures Subsequence(Kept(slots, size, maxBytes, maxKeys), slots)
  {
    hide *;
    var n := KeptIsSuffix(slots, size, maxBytes, maxKeys);
    Suffix(slots, n);
  }

  // ---- one more event -----------------------------------------------------------------

  /** An event that uses none of the resident keys changes nothing about them. */
  lemma UnusedKeeps(l: Limits, run: seq<Event>, e: Event, slots: seq<Slot>)
    requires Faithful(l, run, slots) && forall i | 0 <= i < |slots| :: !Uses(l, e, slots[i].key)
    ensures Faithful(l, run + [e], slots)
  {
    assert (run + [e])[..|run|] == run;
    forall i | 0 <= i < |slots|
      ensures LastUse(l, run + [e], slots[i].key) == LastUse(l, run, slots[i].key)
      ensures LastStored(l, run + [e], slots[i].key) == LastStored(l, run, slots[i].key) { }
    hide LastUse, LastStored, Uses;
  }

  /** The key an event uses is the newest afterwards. */
  lemma UsedLast(l: Limits, run: seq<Event>, e: Event, slots: seq<Slot>, s: Slot)
    requires Faithful(l, run, slots) && (forall i | 0 <= i < |slots| :: !Uses(l, e, slots[i].key)) && Uses(l, e, s.key)
    requires LastStored(l, run + [e], s.key) == Some(s.entry)
    ensures Faithful(l, run + [e], slots + [s])
  {
    UnusedKeeps(l, run, e, slots);
    assert (run + [e])[..|run|] == run;
    assert LastUse(l, run + [e], s.key) == |run|;
    forall i | 0 <= i < |slots| ensures LastUse(l, run + [e], slots[i].key) < |run| {
      assert LastUse(l, run + [e], slots[i].key) == LastUse(l, run, slots[i].key);
    }
    hide LastUse, LastStored, Uses;
  }

  lemma FaithfulDistinct(l: Limits, run: seq<Event>, slots: seq<Slot>)
    requires Faithful(l, run, slots)
    ensures Distinct(slots)
  {
    forall i, j | 0 <= i < |slots| && 0 <= j < |slots| && i != j ensures slots[i].key != slots[j].key {
      if i < j {
        assert LastUse(l, run, slots[i].key) < LastUse(l, run, slots[j].key);
      } else {
        assert LastUse(l, run, slots[j].key) < LastUse(l, run, slots[i].key);
      }
    }
  }

  lemma GotKeeps(l: Limits, run: seq<Event>, slots: seq<Slot>, key: string, now: int)
    requires Faithful(l, run, slots)
    ensures Faithful(l, run + [Got(key, now)], AfterGet(slots, key, now))
  {
    hide Faithful, Subsequence, Distinct, Within, LastUse, Without, Find, Expired, LastStored;
    var e, i := Got(key, now), Find(slots, key);
    FaithfulDistinct(l, run, slots);
    if i == |slots| {
      UnusedKeeps(l, run, e, slots);
    } else {
      var w := Without(slots, key);
      WithoutThins(slots, key);
      WithoutKeeps(slots, key);
      ThinnedFaithful(l, run, w, slots);
      if Expired(slots[i].entry, now) {
        UnusedKeeps(l, run, e, w);
      } else {
        StoredSame(l, run, slots, i, e);
        UsedLast(l, run, e, w, slots[i]);
      }
    }
  }

  lemma StoredSame(l: Limits, run: seq<Event>, slots: seq<Slot>, i: nat, e: Event)
    requires Faithful(l, run, slots) && i < |slots| && !e.Put?
    ensures LastStored(l, run + [e], slots[i].key) == Some(slots[i].entry)
  {
    assert (run + [e])[..|run|] == run;
  }

  lemma PutKeeps(l: Limits, run: seq<Event>, slots: seq<Slot>, key: string, entry: CacheEntry, now: int)
    requires Faithful(l, run, slots)
    ensures Faithful(l, run + [Put(key, entry, now)],
                     AfterSet(slots, key, entry, now, l.maxKeys, l.maxBytes, l.maxBody))
  {
    hide Faithful, Subsequence, Distinct, Within, LastUse, Without, Find, Kept, LastStored;
    var e := Put(key, entry, now);
    if !l.Takes(entry) {
      UnusedKeeps(l, run, e, slots);
    } else {
      var w := Without(slots, key);
      var kept := Kept(w, EntrySize(entry), l.maxBytes, l.maxKeys);
      FaithfulDistinct(l, run, slots);
      WithoutThins(slots, key);
      WithoutKeeps(slots, key);
      KeptThins(w, EntrySize(entry), l.maxBytes, l.maxKeys);
      Members(kept, w);
      LacksWithin(kept, w, key);
      ThinnedFaithful(l, run, w, slots);
      ThinnedFaithful(l, run, kept, w);
      JustStored(l, run, e);
      UsedLast(l, run, e, kept, Slot(key, Stored(entry, now)));
    }
  }

  lemma JustStored(l: Limits, run: seq<Event>, e: Event)
    requires e.Put? && l.Takes(e.entry)
    ensures LastStored(l, run + [e], e.key) == Some(Stored(e.entry, e.now))
  {
  }

  lemma ShedKeeps(l: Limits, run: seq<Event>, slots: seq<Slot>, now: int)
    requires Faithful(l, run, slots)
    ensures Faithful(l, run + [Shedding(now)], AfterShed(slots, now))
  {
    hide Faithful, Subsequence, Live, LastUse, LastStored;
    var live := Live(slots, now);
    LiveThins(slots, now);
    ThinnedFaithful(l, run, live, slots);
    Suffix(live, if |live| / 2 == 0 then |live| else |live| / 2);
    ThinnedFaithful(l, run, AfterShed(slots, now), live);
    UnusedKeeps(l, run, Shedding(now), AfterShed(slots, now));
  }

  // ---- whole runs -------------------------------------------------------------------------

  /** After any run the list holds every key at most once, in the order in which the keys were last asked for
      or stored, each with the entry last stored under it. */
  lemma {:induction false} ResidentFaithful(l: Limits, run: seq<Event>)
    ensures Faithful(l, run, Resident(l, run)) && Distinct(Resident(l, run))
  {
    hide Faithful, Distinct, AfterGet, AfterSet, AfterShed;
    if run == [] {
      NothingFaithful(l);
    } else {
      var front, e := run[..|run| - 1], run[|run| - 1];
      var slots := Resident(l, front);
      ResidentFaithful(l, front);
      assert run == front + [e];
      match e
      case Got(key, now) => GotKeeps(l, front, slots, key, now);
      case Put(key, entry, now) => PutKeeps(l, front, slots, key, entry, now);
      case Shedding(now) => ShedKeeps(l, front, slots, now);
    }
    FaithfulDistinct(l, run, Resident(l, run));
  }

  lemma NothingFaithful(l: Limits)
    ensures Faithful(l, [], [])
  {
  }

  ghost predicate Holds(slots: seq<Slot>, key: string) { exists i :: 0 <= i < |slots| && slots[i].key == key }

  /** Storing evicts the least recently used: every key that goes was last used before every other key that stays. */
  lemma EvictsLeastRecent(l: Limits, run: seq<Event>, key: string, entry: CacheEntry, now: int, gone: string,
                          stays: string)
    requires var before, after := Resident(l, run), Resident(l, run + [Put(key, entry, now)]);
             && Holds(before, gone) && !Holds(after, gone) && Holds(after, stays) && stays != key
    ensures Holds(Resident(l, run), stays) && LastUse(l, run, gone) < LastUse(l, run, stays)
  {
    hide *;
    var before := Resident(l, run);
    PutIs(l, run, key, entry, now);
    if l.Takes(entry) {
      ResidentFaithful(l, run);
      var w := Without(before, key);
      WithoutThins(before, key);
      ThinnedFaithful(l, run, w, before);
      var n := KeptIsSuffix(w, EntrySize(entry), l.maxBytes, l.maxKeys);
      var last := Slot(key, Stored(entry, now));
      HoldsSnoc(w[n..], last, gone);
      HoldsSnoc(w[n..], last, stays);
      HoldsWithout(before, key, gone);
      HoldsWithout(before, key, stays);
      FrontIsOlder(l, run, w, n, gone, stays);
    }
  }

  lemma PutIs(l: Limits, run: seq<Event>, key: string, entry: CacheEntry, now: int)
    ensures var before := Resident(l, run);
            Resident(l, run + [Put(key, entry, now)])
            == if !l.Takes(entry) then before
               else
                 var kept := Kept(Without(before, key), EntrySize(entry), l.maxBytes, l.maxKeys);
                 kept + [Slot(key, Stored(entry, now))]
  {
    assert (run + [Put(key, entry, now)])[..|run|] == run;
  }

  lemma HoldsSnoc(slots: seq<Slot>, s: Slot, key: string)
    ensures Holds(slots + [s], key) <==> Holds(slots, key) || s.key == key
  {
    var all := slots + [s];
    assert all[|slots|] == s;
    assert forall i | 0 <= i < |slots| :: all[i] == slots[i];
  }

  /** Removing one key leaves the others. */
  lemma HoldsWithout(slots: seq<Slot>, key: string, other: string)
    ensures other != key ==> (Holds(Without(slots, key), other) <==> Holds(slots, other))
    ensures Holds(Without(slots, key), other) ==> Holds(slots, other)
  {
    var at, w := Find(slots, key), Without(slots, key);
    forall k | 0 <= k < |slots| && slots[k].key == other && other != key ensures Holds(w, other) {
      assert w[if at < k then k - 1 else k] == slots[k];
    }
    forall k | 0 <= k < |w| && w[k].key == other ensures Holds(slots, other) {
      assert w[k] == slots[if k < at then k else k + 1];
    }
  }

  /** What stands before a suffix was used before what stands in it. */
  lemma FrontIsOlder(l: Limits, run: seq<Event>, w: seq<Slot>, n: nat, gone: string, stays: string)
    requires Faithful(l, run, w) && n <= |w| && Holds(w, gone) && !Holds(w[n..], gone) && Holds(w[n..], stays)
    ensures Holds(w, stays) && LastUse(l, run, gone) < LastUse(l, run, stays)
  {
    hide LastUse, LastStored;
    var i :| 0 <= i < |w| && w[i].key == gone;
    var j :| 0 <= j < |w[n..]| && w[n..][j].key == stays;
    assert w[n..][j] == w[n + j];
    forall k | n <= k < |w| ensures w[k].key != gone { assert w[n..][k - n] == w[k]; }
  }
}
