/** The in-memory cache: an LRU list bounded by entries and by bytes (internal/storage/memcache.go). */
module MemCache {

  import opened Wrappers

  /** `storedAt` is None for a zero time. */
  datatype CacheEntry = CacheEntry(body: seq<bv8>, size: int, storedAt: Option<int>, ttl: int)

  datatype Slot = Slot(key: string, entry: CacheEntry)

  /** Thirty minutes, in nanoseconds. */
  const DEFAULT_TTL: int := 1_800_000_000_000

  function EntrySize(e: CacheEntry): nat { if e.size > 0 then e.size else |e.body| }

  predicate Expired(e: CacheEntry, now: int) {
    e.storedAt.Some? && now - e.storedAt.value > if e.ttl <= 0 then DEFAULT_TTL else e.ttl
  }

  function AtLeastZero(n: int): int { if n < 0 then 0 else n }

  function TotalSize(slots: seq<Slot>): nat {
    if slots == [] then 0 else EntrySize(slots[0].entry) + TotalSize(slots[1..])
  }

  /** Position of a key, or the length. */
  function Find(slots: seq<Slot>, key: string): (i: nat)
    ensures i <= |slots| && (i < |slots| ==> slots[i].key == key)
    ensures forall k | 0 <= k < i :: slots[k].key != key
  {
    if slots == [] || slots[0].key == key then 0
    else
      var i := Find(slots[1..], key);
      assert forall k | 0 < k < |slots| :: slots[k] == slots[1..][k - 1];
      i + 1
  }

  predicate Distinct(slots: seq<Slot>) {
    forall i, j | 0 <= i < |slots| && 0 <= j < |slots| && i != j :: slots[i].key != slots[j].key
  }

  /** The LRU list itself: oldest first; looking an entry up or adding it makes it the newest. */
  function Without(slots: seq<Slot>, key: string): seq<Slot> {
    var i := Find(slots, key);
    if i < |slots| then slots[..i] + slots[i + 1..] else slots
  }

  function Touched(slots: seq<Slot>, key: string): seq<Slot> {
    var i := Find(slots, key);
    if i < |slots| then Without(slots, key) + [slots[i]] else slots
  }

  /** Adding evicts the oldest entry when there is no room for one more key. */
  function Added(slots: seq<Slot>, s: Slot, room: nat): seq<Slot> {
    var all := Without(slots, s.key) + [s];
    if |all| > room then all[1..] else all
  }

  /** What is kept to make room for a new entry: the longest run of the newest entries that leaves room. */
  function Kept(slots: seq<Slot>, size: nat, maxBytes: int, maxKeys: nat): seq<Slot> {
    if slots == [] || (TotalSize(slots) + size <= maxBytes && |slots| < maxKeys) then slots
    else Kept(slots[1..], size, maxBytes, maxKeys)
  }

  function Live(slots: seq<Slot>, now: int): seq<Slot> {
    if slots == [] then []
    else (if Expired(slots[0].entry, now) then [] else [slots[0]]) + Live(slots[1..], now)
  }

  // ---- what one call does to the list ----

  /** A hit makes its entry the newest; an entry that has expired is dropped. */
  function AfterGet(slots: seq<Slot>, key: string, now: int): seq<Slot> {
    var i := Find(slots, key);
    if i == |slots| then slots
    else if Expired(slots[i].entry, now) then Without(slots, key)
    else Touched(slots, key)
  }

  function Stored(entry: CacheEntry, now: int): CacheEntry {
    if entry.storedAt.None? then entry.(storedAt := Some(now)) else entry
  }

  /** An entry that is too large is ignored; any other replaces what its key had and is the newest. */
  function AfterSet(slots: seq<Slot>, key: string, entry: CacheEntry, now: int, maxKeys: nat, maxBytes: int,
                    maxBody: int): seq<Slot> {
    if EntrySize(entry) > maxBody then slots
    else Kept(Without(slots, key), EntrySize(entry), maxBytes, maxKeys) + [Slot(key, Stored(entry, now))]
  }

  /** Expired entries go first, then the older half of the others, or the only one. */
  function AfterShed(slots: seq<Slot>, now: int): seq<Slot> {
    var live := Live(slots, now);
    live[if |live| / 2 == 0 then |live| else |live| / 2..]
  }

  // ---- the list ----

  lemma {:induction false} TotalAppend(a: seq<Slot>, b: seq<Slot>)
    ensures TotalSize(a + b) == TotalSize(a) + TotalSize(b)
  {
    if a == [] {
      assert a + b == b;
    } else {
      TotalAppend(a[1..], b);
      assert (a + b)[1..] == a[1..] + b;
    }
  }

  lemma TotalOne(s: Slot)
    ensures TotalSize([s]) == EntrySize(s.entry)
  {
    assert [s][1..] == [];
  }

  lemma {:induction false} TotalWithout(slots: seq<Slot>, key: string)
    ensures var i := Find(slots, key);
            TotalSize(slots) == TotalSize(Without(slots, key)) + if i < |slots| then EntrySize(slots[i].entry) else 0
  {
    var i := Find(slots, key);
    if i < |slots| {
      hide TotalSize;
      TotalAppend(slots[..i], slots[i + 1..]);
      TotalAppend(slots[..i], [slots[i]]);
      TotalAppend(slots[..i] + [slots[i]], slots[i + 1..]);
      TotalOne(slots[i]);
      assert slots == slots[..i] + [slots[i]] + slots[i + 1..];
    }
  }

  /** `part` holds slots of `whole` only. */
  ghost predicate Within(part: seq<Slot>, whole: seq<Slot>) { forall k | 0 <= k < |part| :: part[k] in whole }

  ghost predicate Lacks(slots: seq<Slot>, key: string) { forall k | 0 <= k < |slots| :: slots[k].key != key }

  lemma CutAt(slots: seq<Slot>, i: nat)
    requires Distinct(slots) && i < |slots|
    ensures var w := slots[..i] + slots[i + 1..];
            Distinct(w) && Within(w, slots) && Lacks(w, slots[i].key) && |w| == |slots| - 1
  {
    var w := slots[..i] + slots[i + 1..];
    forall k | 0 <= k < |w| ensures w[k] == slots[if k < i then k else k + 1] { }
  }

  lemma WithoutKeeps(slots: seq<Slot>, key: string)
    requires Distinct(slots)
    ensures var w := Without(slots, key);
            && Distinct(w) && Within(w, slots) && Lacks(w, key)
            && |w| == |slots| - (if Find(slots, key) < |slots| then 1 else 0)
  {
    var i := Find(slots, key);
    if i < |slots| {
      CutAt(slots, i);
    }
    hide Distinct;
  }

  lemma {:induction false} KeptIsSuffix(slots: seq<Slot>, size: nat, maxBytes: int, maxKeys: nat) returns (n: nat)
    ensures n <= |slots| && Kept(slots, size, maxBytes, maxKeys) == slots[n..]
    ensures slots[n..] == [] || (TotalSize(slots[n..]) + size <= maxBytes && |slots[n..]| < maxKeys)
    ensures n > 0 ==> !(TotalSize(slots[n - 1..]) + size <= maxBytes && |slots[n - 1..]| < maxKeys)
  {
    if slots == [] || (TotalSize(slots) + size <= maxBytes && |slots| < maxKeys) {
      n := 0;
    } else {
      hide TotalSize;
      var m := KeptIsSuffix(slots[1..], size, maxBytes, maxKeys);
      n := m + 1;
      assert slots[1..][m..] == slots[n..];
      if m > 0 { assert slots[1..][m - 1..] == slots[n - 1..]; } else { assert slots[0..] == slots; }
    }
  }

  lemma {:induction false} LiveKeeps(slots: seq<Slot>, now: int)
    requires Distinct(slots)
    ensures var l := Live(slots, now);
            Distinct(l) && |l| <= |slots| && TotalSize(l) <= TotalSize(slots) && Within(l, slots)
    ensures forall k | 0 <= k < |Live(slots, now)| :: !Expired(Live(slots, now)[k].entry, now)
  {
    if slots != [] {
      var first, others := slots[0], slots[1..];
      assert slots == [first] + others;
      DistinctParts(first, others);
      LiveKeeps(others, now);
      LiveStep(first, others, Live(others, now));
      TotalStep(first, others);
      TotalStep(first, Live(others, now));
      LiveFirst(first, others, now);
      assert [] + Live(others, now) == Live(others, now);
      hide Expired, EntrySize, Distinct, Within, TotalSize;
    }
  }

  lemma DistinctParts(first: Slot, others: seq<Slot>)
    requires Distinct([first] + others)
    ensures Distinct(others) && Lacks(others, first.key)
  {
    var all := [first] + others;
    assert all[0] == first;
    forall k | 0 <= k < |others| ensures others[k] == all[k + 1] && others[k].key != first.key { }
  }

  lemma TotalStep(first: Slot, rest: seq<Slot>)
    ensures TotalSize([first] + rest) == EntrySize(first.entry) + TotalSize(rest)
  {
    assert ([first] + rest)[1..] == rest && ([first] + rest)[0] == first;
    hide EntrySize;
  }

  lemma LiveStep(first: Slot, others: seq<Slot>, rest: seq<Slot>)
    requires Distinct([first] + others) && Distinct(rest) && Within(rest, others)
    ensures Within(rest, [first] + others) && Within([first] + rest, [first] + others) && Distinct([first] + rest)
  {
    DistinctParts(first, others);
    LacksWithin(rest, others, first.key);
    var all, live := [first] + others, [first] + rest;
    assert all[0] == first && all[1..] == others;
    assert forall x :: x in others ==> x in all;
    forall k | 0 <= k < |live| ensures live[k] in all { if k > 0 { assert live[k] == rest[k - 1]; } }
    assert Distinct(live) by { hide Within; }
  }

  lemma {:induction false} DropTotal(slots: seq<Slot>, n: nat)
    requires n <= |slots|
    ensures TotalSize(slots[n..]) <= TotalSize(slots)
  {
    TotalAppend(slots[..n], slots[n..]);
    assert slots[..n] + slots[n..] == slots;
  }

  ghost predicate GenuineIn(accepted: map<string, CacheEntry>, slots: seq<Slot>) {
    forall i | 0 <= i < |slots| ::
      slots[i].key in accepted && accepted[slots[i].key] == slots[i].entry && slots[i].entry.storedAt.Some?
  }

  class MemoryCache {
    var entries: seq<Slot>
    var bytes: int
    const maxKeys: nat
    const maxBytes: int
    const maxBody: int

    /** The entry last accepted for each key. */
    ghost var accepted: map<string, CacheEntry>

    constructor (cfgEntries: int, cfgBytes: int, cfgBody: int)
      ensures Valid() && entries == [] && accepted == map[]
      ensures maxKeys == (if cfgEntries <= 0 then 4096 else cfgEntries)
      ensures maxBytes == (if cfgBytes <= 0 then 67108864 else cfgBytes)
      ensures maxBody == (if cfgBody <= 0 then 1572864 else cfgBody)
    {
      entries, bytes, accepted := [], 0, map[];
      maxKeys := if cfgEntries <= 0 then 4096 else cfgEntries;
      maxBytes := if cfgBytes <= 0 then 67108864 else cfgBytes;
      maxBody := if cfgBody <= 0 then 1572864 else cfgBody;
    }

    /** The byte counter is exact and within bounds, except that a single entry may be larger than all the bytes
        allowed when one body may be. */
    ghost predicate Valid()
      reads this
    {
      && maxKeys > 0 && maxBytes > 0 && maxBody > 0
      && Distinct(entries) && |entries| <= maxKeys
      && bytes == TotalSize(entries)
      && (bytes <= maxBytes || (|entries| == 1 && maxBody > maxBytes))
      && Genuine(entries)
    }

    /** Every resident entry is the last one accepted for its key and knows when it was stored. */
    ghost predicate Genuine(slots: seq<Slot>)
      reads this
    {
      GenuineIn(accepted, slots)
    }

    method Get(key: string, now: int) returns (hit: Option<CacheEntry>)
      requires Valid()
      modifies this`entries, this`bytes
      ensures Valid()
      ensures entries == AfterGet(old(entries), key, now)
      ensures var i := Find(old(entries), key);
              hit == if i == |old(entries)| || Expired(old(entries)[i].entry, now) then None
                     else Some(old(entries)[i].entry)
      ensures hit.Some? ==> key in accepted && hit.value == accepted[key] && !Expired(hit.value, now)
    {
      var i := Find(entries, key);
      TotalWithout(entries, key);
      WithoutKeeps(entries, key);
      ghost var was := entries;
      if i == |entries| {
        return None;
      }
      var e := entries[i].entry;
      hide Without, Find, TotalSize, Distinct, EntrySize;
      if Expired(e, now) {
        bytes := AtLeastZero(bytes - EntrySize(e));
        entries := Without(entries, key);
        GenuinePart(was, entries);
        return None;
      }
      entries := Touched(entries, key);
      TouchedKeeps(was, key);
      GenuinePart(was, entries);
      hit := Some(e);
    }

    lemma GenuinePart(slots: seq<Slot>, part: seq<Slot>)
      requires Genuine(slots) && Within(part, slots)
      ensures Genuine(part)
    {
    }

    method Set(key: string, entry: CacheEntry, now: int)
      requires Valid()
      modifies this
      ensures Valid()
      ensures entries == AfterSet(old(entries), key, entry, now, maxKeys, maxBytes, maxBody)
      ensures accepted == if EntrySize(entry) > maxBody then old(accepted) else old(accepted)[key := Stored(entry, now)]
    {
      var bodyLen := EntrySize(entry);
      if bodyLen > maxBody {
        return;
      }
      var stored := if entry.storedAt.None? then entry.(storedAt := Some(now)) else entry;
      var s := Slot(key, stored);
      ghost var was := entries;
      assert EntrySize(stored) == bodyLen && stored.storedAt.Some?;
      RemoveKey(key);
      MakeRoom(bodyLen);
      bytes := AtLeastZero(bytes);
      RoomMade(was, s, bodyLen, maxBytes, maxKeys);
      ghost var kept := entries;
      GenuinePart(was, kept);
      AddNew(s, bodyLen);
      SetKeeps(kept, s);
      accepted := accepted[key := stored];
      hide GenuineIn, Distinct, Within, Lacks, Kept, Without, TotalSize;
    }

    lemma SetKeeps(kept: seq<Slot>, s: Slot)
      requires Genuine(kept) && Lacks(kept, s.key) && Distinct(kept) && s.entry.storedAt.Some?
      ensures GenuineIn(accepted[s.key := s.entry], kept + [s]) && Distinct(kept + [s])
    {
    }

    method RemoveKey(key: string)
      requires bytes == TotalSize(entries)
      modifies this`entries, this`bytes
      ensures entries == Without(old(entries), key) && bytes == TotalSize(entries)
    {
      var i := Find(entries, key);
      TotalWithout(entries, key);
      if i < |entries| {
        bytes := bytes - EntrySize(entries[i].entry);
        entries := Without(entries, key);
      }
    }

    method AddNew(s: Slot, bodyLen: nat)
      requires bytes == TotalSize(entries) && |entries| < maxKeys && bodyLen == EntrySize(s.entry)
      requires Lacks(entries, s.key)
      modifies this`entries, this`bytes
      ensures entries == old(entries) + [s] && bytes == TotalSize(entries) == old(bytes) + bodyLen
    {
      AddedFits(entries, s, maxKeys);
      TotalAppend(entries, [s]);
      TotalOne(s);
      hide Added, TotalSize;
      entries := Added(entries, s, maxKeys);
      bytes := bytes + bodyLen;
    }

    /** Drops the oldest entries until the new one fits. */
    method MakeRoom(bodyLen: nat)
      requires maxKeys > 0 && |entries| <= maxKeys && bytes == TotalSize(entries)
      modifies this`entries, this`bytes
      ensures entries == Kept(old(entries), bodyLen, maxBytes, maxKeys) && bytes == TotalSize(entries)
    {
      while bytes + bodyLen > maxBytes && |entries| > 0
        invariant bytes == TotalSize(entries) && |entries| <= maxKeys
        invariant Kept(entries, bodyLen, maxBytes, maxKeys) == Kept(old(entries), bodyLen, maxBytes, maxKeys)
        decreases |entries|
      {
        bytes := bytes - EntrySize(entries[0].entry);
        entries := entries[1..];
      }
      if |entries| >= maxKeys && |entries| > 0 {
        ghost var before := entries;
        bytes := bytes - EntrySize(entries[0].entry);
        entries := entries[1..];
        assert entries == [] || TotalSize(entries) + bodyLen <= maxBytes;
      }
    }

    method Shed(now: int)
      requires Valid()
      modifies this`entries, this`bytes
      ensures Valid()
      ensures entries == AfterShed(old(entries), now)
    {
      ghost var was := entries;
      LiveKeeps(was, now);
      RemoveExpired(now);
      ghost var live := entries;
      hide Live, Expired;
      GenuinePart(was, live);
      var toRemove := |entries| / 2;
      if toRemove == 0 { toRemove := |entries|; }
      assert live[0..] == live;
      hide GenuineIn, Distinct, Within;
      for i := 0 to toRemove
        invariant entries == live[i..] && bytes == TotalSize(entries)
      {
        assert live[i..][1..] == live[i + 1..];
        bytes := bytes - EntrySize(entries[0].entry);
        entries := entries[1..];
      }
      bytes := AtLeastZero(bytes);
      DropTotal(live, toRemove);
      PartKeeps(live, toRemove);
      GenuinePart(live, entries);
    }

    method RemoveExpired(now: int)
      requires Distinct(entries) && bytes == TotalSize(entries)
      modifies this`entries, this`bytes
      ensures entries == Live(old(entries), now) && bytes == TotalSize(entries)
    {
      var keys := entries;
      LiveNothing(keys, now);
      assert [] + keys == keys && keys[0..] == keys;
      hide *;
      for i := 0 to |keys|
        invariant entries == Live(keys[..i], now) + keys[i..]
        invariant bytes == TotalSize(entries)
      {
        ShedOne(keys, i, now);
        if Expired(keys[i].entry, now) {
          bytes := bytes - EntrySize(keys[i].entry);
          entries := Without(entries, keys[i].key);
        }
      }
      assert keys[..|keys|] == keys;
    }
  }

  lemma LiveNothing(slots: seq<Slot>, now: int)
    ensures Live(slots[..0], now) == []
  {
  }

  /** One more entry looked at while expired ones are removed. */
  lemma ShedOne(keys: seq<Slot>, i: nat, now: int)
    requires i < |keys| && Distinct(keys)
    ensures var s, here := keys[i], Live(keys[..i], now) + keys[i..];
            var next := Live(keys[..i + 1], now) + keys[i + 1..];
            if !Expired(s.entry, now) then here == next
            else Without(here, s.key) == next && TotalSize(here) == TotalSize(next) + EntrySize(s.entry)
  {
    var s, before, after := keys[i], Live(keys[..i], now), keys[i + 1..];
    LiveSnoc(keys, i, now);
    hide *;
    assert keys[i..] == [s] + after;
    if Expired(s.entry, now) {
      RemoveInMiddle(before, s, after);
      assert before + [] == before;
    } else {
      assert before + ([s] + after) == before + [s] + after;
    }
  }

  /** What is left once there is room for a new entry. */
  lemma RoomMade(was: seq<Slot>, s: Slot, bodyLen: nat, maxBytes: int, maxKeys: nat)
    requires Distinct(was) && maxKeys > 0
    ensures var kept := Kept(Without(was, s.key), bodyLen, maxBytes, maxKeys);
            && Distinct(kept) && |kept| < maxKeys
            && (kept == [] || TotalSize(kept) + bodyLen <= maxBytes)
            && Lacks(kept, s.key) && Within(kept, was)
  {
    hide *;
    WithoutKeeps(was, s.key);
    var base := Without(was, s.key);
    var n := KeptIsSuffix(base, bodyLen, maxBytes, maxKeys);
    SuffixKeeps(base, n, was, s.key);
  }

  lemma PartKeeps(slots: seq<Slot>, n: nat)
    requires n <= |slots| && Distinct(slots)
    ensures Distinct(slots[n..]) && Within(slots[n..], slots)
  {
    assert forall k | 0 <= k < |slots[n..]| :: slots[n..][k] == slots[n + k];
  }

  lemma SuffixKeeps(base: seq<Slot>, n: nat, whole: seq<Slot>, key: string)
    requires n <= |base| && Distinct(base) && Within(base, whole) && Lacks(base, key)
    ensures Distinct(base[n..]) && Within(base[n..], whole) && Lacks(base[n..], key)
  {
    assert forall k | 0 <= k < |base[n..]| :: base[n..][k] == base[n + k];
  }

  lemma TouchedKeeps(slots: seq<Slot>, key: string)
    requires Distinct(slots) && Find(slots, key) < |slots|
    ensures var t := Touched(slots, key);
            && Distinct(t) && |t| == |slots| && TotalSize(t) == TotalSize(slots)
            && Within(t, slots)
  {
    var i, w := Find(slots, key), Without(slots, key);
    WithoutKeeps(slots, key);
    TotalWithout(slots, key);
    TotalAppend(w, [slots[i]]);
    TotalOne(slots[i]);
    hide TotalSize, Without, Find;
  }

  /** With room for one more key, and without the key itself, adding evicts nothing. */
  lemma AddedFits(slots: seq<Slot>, s: Slot, room: nat)
    requires |slots| < room && Lacks(slots, s.key)
    ensures Added(slots, s, room) == slots + [s]
  {
  }

  lemma {:induction false} LiveSnoc(slots: seq<Slot>, i: nat, now: int)
    requires i < |slots| && Distinct(slots)
    ensures Live(slots[..i + 1], now) == Live(slots[..i], now) + if Expired(slots[i].entry, now) then [] else [slots[i]]
    ensures Lacks(Live(slots[..i], now), slots[i].key)
  {
    LiveAppend(slots[..i], [slots[i]], now);
    assert slots[..i + 1] == slots[..i] + [slots[i]];
    assert [slots[i]][1..] == [];
    assert Distinct(slots[..i]);
    LiveKeeps(slots[..i], now);
    LacksWithin(Live(slots[..i], now), slots[..i], slots[i].key);
  }

  lemma LacksWithin(part: seq<Slot>, whole: seq<Slot>, key: string)
    requires Within(part, whole) && Lacks(whole, key)
    ensures Lacks(part, key)
  {
    forall k | 0 <= k < |part| ensures part[k].key != key { assert part[k] in whole; }
  }

  lemma LiveFirst(first: Slot, rest: seq<Slot>, now: int)
    ensures Live([first] + rest, now) == (if Expired(first.entry, now) then [] else [first]) + Live(rest, now)
  {
    assert ([first] + rest)[1..] == rest;
    hide Expired;
  }

  lemma {:induction false} LiveAppend(a: seq<Slot>, b: seq<Slot>, now: int)
    ensures Live(a + b, now) == Live(a, now) + Live(b, now)
  {
    hide *;
    if a == [] {
      assert a + b == b && a[..0] == a;
      LiveNothing(a, now);
      assert [] + Live(b, now) == Live(b, now);
    } else {
      var first, rest := a[0], a[1..];
      LiveAppend(rest, b, now);
      LiveFirst(first, rest, now);
      LiveFirst(first, rest + b, now);
      assert a == [first] + rest && a + b == [first] + (rest + b);
    }
  }

  lemma {:induction false} FindInMiddle(a: seq<Slot>, s: Slot, b: seq<Slot>)
    requires Lacks(a, s.key)
    ensures Find(a + ([s] + b), s.key) == |a|
  {
    if a == [] {
      assert a + ([s] + b) == [s] + b;
    } else {
      FindInMiddle(a[1..], s, b);
      assert (a + ([s] + b))[1..] == a[1..] + ([s] + b);
    }
  }

  lemma {:induction false} RemoveInMiddle(a: seq<Slot>, s: Slot, b: seq<Slot>)
    requires Lacks(a, s.key)
    ensures Without(a + ([s] + b), s.key) == a + b
    ensures TotalSize(a + ([s] + b)) == TotalSize(a + b) + EntrySize(s.entry)
  {
    var all := a + ([s] + b);
    FindInMiddle(a, s, b);
    TotalWithout(all, s.key);
    assert all[|a|] == s && all[..|a|] == a && all[|a| + 1..] == b;
  }
}
