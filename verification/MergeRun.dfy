/** One run of a merge: conflicting rows range by range, then the new rows chunk by chunk
    (internal/storage/merger.go, mergeSingleSource and its two resolvers). */
module MergeRun {

  import opened Orders
  import opened Wrappers
  import opened Evaluation
  import opened Merger

  /** One more row of a range, seen from everything that is tracked. */
  lemma {:induction false} Settle(strategy: Strategy, rank: Rank, src: map<int, SrcRow>, was: map<int, MainRow>,
                                  done: set<int>, p: Pair)
    requires UniqueMain(was) && UniqueSrc(src) && done <= src.Keys && p.r in src && p.r !in done
    requires p.id in was && Match(was[p.id], src[p.r])
    ensures After(strategy, rank, src, done, was)[p.id] == was[p.id]
    ensures After(strategy, rank, src, done + {p.r}, was)
         == if Verdict(strategy, rank, Coalesced(src[p.r]), was[p.id].f) == Upgrade
            then After(strategy, rank, src, done, was)[p.id := was[p.id].(f := Coalesced(src[p.r]))]
            else After(strategy, rank, src, done, was)
    ensures forall d: Decision ::
              |Counted(d, strategy, rank, src, was, done + {p.r})| == |Counted(d, strategy, rank, src, was, done)|
              + if Verdict(strategy, rank, Coalesced(src[p.r]), was[p.id].f) == d then 1 else 0
  {
    AfterOneMore(strategy, rank, src, done, was, p.r, p.id);
    forall d: Decision ensures |Counted(d, strategy, rank, src, was, done + {p.r})|
         == |Counted(d, strategy, rank, src, was, done)|
            + if Verdict(strategy, rank, Coalesced(src[p.r]), was[p.id].f) == d then 1 else 0
    {
      CountedOneMore(d, strategy, rank, src, was, done, p.r, p.id);
    }
  }

  /** The rows dealt with after the first `i` of a range. */
  ghost function DoneAfter(done: set<int>, q: seq<Pair>, i: nat): (s: set<int>)
    requires i <= |q|
    ensures forall r :: r in s <==> r in done || RowsOf(q[..i], r)
  {
    if i == 0 then done
    else
      var before := DoneAfter(done, q, i - 1);
      DoneAfterOneMore(done, q, i - 1, before);
      before + {q[i - 1].r}
  }

  lemma DoneAfterOneMore(done: set<int>, q: seq<Pair>, i: nat, before: set<int>)
    requires i < |q| && forall r :: r in before <==> r in done || RowsOf(q[..i], r)
    ensures forall r :: r in before + {q[i].r} <==> r in done || RowsOf(q[..i + 1], r)
  {
    forall r ensures RowsOf(q[..i + 1], r) <==> RowsOf(q[..i], r) || r == q[i].r {
      if RowsOf(q[..i], r) {
        var k :| 0 <= k < |q[..i]| && q[..i][k].r == r;
        assert q[..i + 1][k].r == r;
      }
      assert q[..i + 1][i].r == q[i].r;
      if RowsOf(q[..i + 1], r) {
        var k :| 0 <= k < |q[..i + 1]| && q[..i + 1][k].r == r;
        if k < i { assert q[..i][k].r == r; }
      }
    }
  }

  lemma {:induction false} DoneAfterIs(q: seq<Pair>, src: map<int, SrcRow>, was: map<int, MainRow>,
                                       done: set<int>, next: set<int>, i: nat)
    requires NextRange(q, src, was, done, next) && i <= |q|
    ensures DoneAfter(done, q, i) <= src.Keys
    ensures |DoneAfter(done, q, i)| == |done| + i
    ensures DoneAfter(done, q, 0) == done
    ensures i < |q| ==> q[i].r !in DoneAfter(done, q, i)
    ensures i == |q| ==> DoneAfter(done, q, i) == next
  {
    if i > 0 { DoneAfterIs(q, src, was, done, next, i - 1); }
    if i == |q| {
      assert q[..i] == q;
      forall r ensures r in DoneAfter(done, q, i) <==> r in next {
        if RowsOf(q, r) { var k :| 0 <= k < |q| && q[k].r == r; assert q[k].r in src; }
      }
    }
    if i < |q| {
      forall k | 0 <= k < |q[..i]| ensures q[..i][k].r != q[i].r {
        assert q[k].r != q[i].r;
      }
    }
  }

  /** A range of the join, read from the target as it is now, is the next range as it was. */
  lemma {:induction false} RangeIsNext(strategy: Strategy, rank: Rank, src: map<int, SrcRow>, was: map<int, MainRow>,
                                       main: map<int, MainRow>, drive: bool, cur: int, next: int, q: seq<Pair>)
    requires UniqueMain(was) && UniqueSrc(src) && cur <= next
    requires main == After(strategy, rank, src, Upto(strategy, src, was, drive, cur), was)
    requires forall p :: p in q <==> p in Joined(strategy, src, main, drive, cur, next)
    requires forall j, k | 0 <= j < |q| && 0 <= k < |q| && j != k :: q[j] != q[k]
    ensures Upto(strategy, src, was, drive, next) <= src.Keys
    ensures NextRange(q, src, was, Upto(strategy, src, was, drive, cur), Upto(strategy, src, was, drive, next))
    ensures forall k | 0 <= k < |q| :: Wanted(strategy, Coalesced(src[q[k].r]), was[q[k].id].f)
  {
    var done, more := Upto(strategy, src, was, drive, cur), Upto(strategy, src, was, drive, next);
    AfterKeepsKeys(strategy, rank, src, done, was);
    forall k | 0 <= k < |q|
      ensures q[k].r in src && q[k].id in was && Match(was[q[k].id], src[q[k].r])
      ensures Conflicts(was, src[q[k].r]) && Target(was, src[q[k].r]) == q[k].id
      ensures q[k].r !in done && q[k].r in more
      ensures Wanted(strategy, Coalesced(src[q[k].r]), was[q[k].id].f)
    {
      assert q[k] in Joined(strategy, src, main, drive, cur, next);
      TargetIs(was, src[q[k].r], q[k].id);
      AfterOneMore(strategy, rank, src, done, was, q[k].r, q[k].id);
    }
    forall j, k | 0 <= j < |q| && 0 <= k < |q| && j != k ensures q[j].r != q[k].r {
      assert Target(was, src[q[j].r]) == q[j].id && Target(was, src[q[k].r]) == q[k].id;
    }
    forall r | r in src ensures r in more <==> r in done || RowsOf(q, r) {
      if r in more && r !in done {
        var id := Target(was, src[r]);
        AfterOneMore(strategy, rank, src, done, was, r, id);
        assert Pair(id, r) in q;
      }
    }
  }

  ghost predicate AllPicked(strategy: Strategy, src: map<int, SrcRow>, was: map<int, MainRow>, done: set<int>) {
    && done <= src.Keys
    && (forall r | r in done :: Conflicts(was, src[r]))
    && (forall r | r in src && r !in done && Conflicts(was, src[r]) ::
         !Wanted(strategy, Coalesced(src[r]), was[Target(was, src[r])].f))
  }

  lemma UptoEnd(strategy: Strategy, src: map<int, SrcRow>, was: map<int, MainRow>, drive: bool, end: int)
    requires forall r | r in src && Conflicts(was, src[r]) :: Position(src, was, drive, r) <= end
    ensures AllPicked(strategy, src, was, Upto(strategy, src, was, drive, end))
  {
  }

  /** Rows that are not picked change nothing... */
  lemma {:induction false} PickedSuffice(strategy: Strategy, rank: Rank, src: map<int, SrcRow>, was: map<int, MainRow>,
                                         done: set<int>)
    requires UniqueMain(was) && UniqueSrc(src) && AllPicked(strategy, src, was, done)
    ensures After(strategy, rank, src, done, was) == After(strategy, rank, src, src.Keys, was)
  {
    forall r, id | r in src && r !in done && id in was && Match(was[id], src[r])
      ensures !Takes(strategy, rank, Coalesced(src[r]), was[id].f)
    {
      TargetIs(was, src[r], id);
      UnwantedIsSame(strategy, rank, Coalesced(src[r]), was[id].f);
    }
    hide Takes, Conflicts, Match, AllPicked;
    AfterOmits(strategy, rank, src, done, was);
  }

  /** ...and count as the same. */
  lemma {:induction false} PickedCount(strategy: Strategy, rank: Rank, src: map<int, SrcRow>, was: map<int, MainRow>,
                                       done: set<int>)
    requires AllPicked(strategy, src, was, done)
    ensures Counted(Upgrade, strategy, rank, src, was, done) == Counted(Upgrade, strategy, rank, src, was, src.Keys)
    ensures Counted(SkipLower, strategy, rank, src, was, done) == Counted(SkipLower, strategy, rank, src, was, src.Keys)
    ensures |Counted(SkipSame, strategy, rank, src, was, src.Keys)|
         == |Counted(SkipSame, strategy, rank, src, was, done)| + |src| - |Newcomers(was, src)| - |done|
  {
    PickedDiffer(Upgrade, strategy, rank, src, was, done);
    PickedDiffer(SkipLower, strategy, rank, src, was, done);
    CountedPartition(strategy, rank, src, was, done);
    CountedPartition(strategy, rank, src, was, src.Keys);
    forall r | r in done ensures r !in Newcomers(was, src) {
      assert Conflicts(was, src[r]);
    }
    assert done * Newcomers(was, src) == {};
    assert src.Keys * Newcomers(was, src) == Newcomers(was, src);
    assert |src.Keys| == |src|;
  }

  lemma PickedDiffer(d: Decision, strategy: Strategy, rank: Rank, src: map<int, SrcRow>, was: map<int, MainRow>,
                     done: set<int>)
    requires AllPicked(strategy, src, was, done) && d != SkipSame
    ensures Counted(d, strategy, rank, src, was, done) == Counted(d, strategy, rank, src, was, src.Keys)
  {
    forall r | r in src && r !in done && Conflicts(was, src[r])
      ensures Verdict(strategy, rank, Coalesced(src[r]), was[Target(was, src[r])].f) == SkipSame
    {
      UnwantedIsSame(strategy, rank, Coalesced(src[r]), was[Target(was, src[r])].f);
    }
    hide Verdict, Conflicts, Target;
  }

  // ---- phase 2: new rows ----

  /** The state of the target while new rows are placed: `tried` are the source rows seen so far. */
  ghost predicate Placing(src: map<int, SrcRow>, tried: set<int>, mid: map<int, MainRow>, main: map<int, MainRow>,
                          placed: map<int, int>)
    requires tried <= src.Keys
  {
    && placed.Keys == tried * Newcomers(mid, src)
    && (forall r, t | r in placed && t in placed && r != t :: placed[r] != placed[t])
    && (forall r | r in placed :: placed[r] !in mid && placed[r] in main && main[placed[r]] == NewRow(src[r]))
    && (forall id | id in mid :: id in main && main[id] == mid[id])
    && (forall id | id in main :: id in mid || exists r :: r in placed && placed[r] == id)
  }

  lemma {:induction false} PlaceOne(src: map<int, SrcRow>, tried: set<int>, mid: map<int, MainRow>,
                                    main: map<int, MainRow>, placed: map<int, int>, r: int, id: int)
    requires UniqueSrc(src) && tried <= src.Keys && Placing(src, tried, mid, main, placed)
    requires r in src && r !in tried && id !in main
    ensures Conflicts(main, src[r]) <==> Conflicts(mid, src[r])
    ensures Conflicts(main, src[r]) ==> Placing(src, tried + {r}, mid, main, placed)
    ensures !Conflicts(main, src[r]) ==> Placing(src, tried + {r}, mid, main[id := NewRow(src[r])], placed[r := id])
  {
    forall i | i in main && i !in mid ensures !Match(main[i], src[r]) {
      var t :| t in placed && placed[t] == i;
      assert t != r;
    }
    assert Conflicts(main, src[r]) <==> Conflicts(mid, src[r]) by {
      if j :| j in mid && Match(mid[j], src[r]) { assert Match(main[j], src[r]); }
    }
    if Conflicts(main, src[r]) {
      assert (tried + {r}) * Newcomers(mid, src) == tried * Newcomers(mid, src);
    } else {
      PlaceFresh(src, tried, mid, main, placed, r, id);
    }
  }

  lemma {:induction false} PlaceFresh(src: map<int, SrcRow>, tried: set<int>, mid: map<int, MainRow>,
                                      main: map<int, MainRow>, placed: map<int, int>, r: int, id: int)
    requires tried <= src.Keys && Placing(src, tried, mid, main, placed)
    requires r in src && r !in tried && id !in main && !Conflicts(mid, src[r])
    ensures Placing(src, tried + {r}, mid, main[id := NewRow(src[r])], placed[r := id])
  {
    assert r in Newcomers(mid, src);
    hide Newcomers, Conflicts;
    var after, where := main[id := NewRow(src[r])], placed[r := id];
    assert where.Keys == (tried + {r}) * Newcomers(mid, src);
    forall t | t in placed ensures placed[t] != id { }
    forall i | i in after ensures i in mid || exists t :: t in where && where[t] == i {
      if i == id { assert where[r] == i; }
      else if i !in mid { var t :| t in placed && placed[t] == i; assert where[t] == i; }
    }
  }

  /** Resolving, then placing, is a merge. */
  lemma {:induction false} BothPhases(strategy: Strategy, rank: Rank, src: map<int, SrcRow>, was: map<int, MainRow>,
                                      mid: map<int, MainRow>, now: map<int, MainRow>, placed: map<int, int>)
    requires mid == After(strategy, rank, src, src.Keys, was)
    requires Placing(src, src.Keys, mid, now, placed)
    ensures IsMerge(strategy, rank, src, was, now, placed)
    ensures placed.Keys == Newcomers(was, src)
  {
    SameNewcomers(strategy, rank, src, was, mid);
    assert src.Keys * Newcomers(mid, src) == Newcomers(mid, src);
    hide Newcomers, RowAfter;
  }

  lemma {:induction false} SameNewcomers(strategy: Strategy, rank: Rank, src: map<int, SrcRow>, was: map<int, MainRow>,
                                         mid: map<int, MainRow>)
    requires mid == After(strategy, rank, src, src.Keys, was)
    ensures Newcomers(mid, src) == Newcomers(was, src)
  {
    AfterKeepsKeys(strategy, rank, src, src.Keys, was);
    forall r | r in src ensures Conflicts(mid, src[r]) <==> Conflicts(was, src[r]) {
      if id :| id in was && Match(was[id], src[r]) { assert Match(mid[id], src[r]); }
      if id :| id in mid && Match(mid[id], src[r]) { assert Match(was[id], src[r]); }
    }
  }

  /** The smallest and the largest of a set of row ids; 0 for an empty table. */
  method Extent(ids: set<int>) returns (lo: int, hi: int)
    ensures forall id | id in ids :: lo <= id <= hi
    ensures ids == {} ==> lo == hi == 0
    ensures ids != {} ==> lo in ids && hi in ids
  {
    lo, hi := 0, 0;
    var q := InAnyOrder(ids);
    for i := 0 to |q|
      invariant forall k | 0 <= k < i :: lo <= q[k] <= hi
      invariant if i == 0 then lo == hi == 0 else lo in ids && hi in ids
    {
      assert q[i] in ids;
      if i == 0 || q[i] < lo { lo := q[i]; }
      if i == 0 || q[i] > hi { hi := q[i]; }
    }
    if ids != {} {
      ghost var id := Inhabited(ids);
      assert id in q;
    }
  }

  lemma Inhabited<T>(ids: set<T>) returns (id: T)
    requires ids != {}
    ensures id in ids
  {
    id :| id in ids;
  }

  function RowsBetween(src: map<int, SrcRow>, lo: int, hi: int): set<int> {
    set r | r in src && lo < r <= hi
  }

  ghost predicate IdsBelow(main: map<int, MainRow>, nextId: int) {
    nextId > 0 && forall id | id in main :: 0 < id < nextId
  }

  ghost predicate IdsUpto(main: map<int, MainRow>, maxId: int) {
    forall id | id in main :: 0 < id <= maxId
  }

  ghost predicate RowsIn(src: map<int, SrcRow>, lo: int, hi: int) {
    forall r | r in src :: lo <= r <= hi
  }

  class Merge {
    var main: map<int, MainRow>
    var nextId: int
    var totalExamined: int
    var inserted: int
    var upgraded: int
    var skippedSame: int
    var skippedLower: int
    var skippedExists: int

    ghost predicate Valid()
      reads this
    {
      UniqueMain(main) && IdsBelow(main, nextId)
    }

    constructor (target: map<int, MainRow>, next: int)
      requires UniqueMain(target) && IdsBelow(target, next)
      ensures Valid() && main == target && nextId == next
      ensures totalExamined == inserted == upgraded == skippedSame == skippedLower == skippedExists == 0
    {
      main, nextId := target, next;
      totalExamined, inserted, upgraded, skippedSame, skippedLower, skippedExists := 0, 0, 0, 0, 0, 0;
    }

    /** Judges the rows of one range and carries out the decisions, row by row. */
    method ApplyDecisions(rank: Rank, src: map<int, SrcRow>, q: seq<Pair>, workers: int,
                          ghost was: map<int, MainRow>, ghost done: set<int>, ghost next: set<int>)
      requires UniqueMain(was) && UniqueSrc(src) && NextRange(q, src, was, done, next)
      requires main == After(Quality, rank, src, done, was)
      modifies this`main, this`upgraded, this`skippedSame, this`skippedLower
      ensures main == After(Quality, rank, src, next, was)
      ensures |next| == |done| + |q|
      ensures upgraded - old(upgraded)
           == |Counted(Upgrade, Quality, rank, src, was, next)| - |Counted(Upgrade, Quality, rank, src, was, done)|
      ensures skippedSame - old(skippedSame)
           == |Counted(SkipSame, Quality, rank, src, was, next)| - |Counted(SkipSame, Quality, rank, src, was, done)|
      ensures skippedLower - old(skippedLower)
           == |Counted(SkipLower, Quality, rank, src, was, next)| - |Counted(SkipLower, Quality, rank, src, was, done)|
    {
      hide *;
      StillThere(Quality, rank, src, was, done, next, q);
      var candidates := Judge(rank, src, main, q, workers);
      DoneAfterIs(q, src, was, done, next, |q|);
      DoneAfterIs(q, src, was, done, next, 0);
      var judged := candidates[..];
      assert forall k | 0 <= k < |q| ::
          && judged[k].targetID == q[k].id && judged[k].source == Coalesced(src[q[k].r])
          && judged[k].decision == Verdict(Quality, rank, Coalesced(src[q[k].r]), was[q[k].id].f);
      for i := 0 to |q|
        invariant DoneAfter(done, q, i) <= src.Keys
        invariant main == After(Quality, rank, src, DoneAfter(done, q, i), was)
        invariant upgraded - old(upgraded) == |Counted(Upgrade, Quality, rank, src, was, DoneAfter(done, q, i))|
                                            - |Counted(Upgrade, Quality, rank, src, was, done)|
        invariant skippedSame - old(skippedSame) == |Counted(SkipSame, Quality, rank, src, was, DoneAfter(done, q, i))|
                                                  - |Counted(SkipSame, Quality, rank, src, was, done)|
        invariant skippedLower - old(skippedLower) == |Counted(SkipLower, Quality, rank, src, was,
                                                               DoneAfter(done, q, i))|
                                                    - |Counted(SkipLower, Quality, rank, src, was, done)|
      {
        SettleNext(Quality, rank, src, was, done, next, q, i);
        var c := judged[i];
        CarryOut(c);
      }
    }

    /** UPDATE ... FROM over one range: every picked row takes over. */
    method ApplyUpdate(strategy: Strategy, ghost rank: Rank, src: map<int, SrcRow>, q: seq<Pair>,
                       ghost was: map<int, MainRow>, ghost done: set<int>, ghost next: set<int>)
      requires strategy == Newer || strategy == Force
      requires UniqueMain(was) && UniqueSrc(src) && NextRange(q, src, was, done, next)
      requires forall k | 0 <= k < |q| :: Wanted(strategy, Coalesced(src[q[k].r]), was[q[k].id].f)
      requires main == After(strategy, rank, src, done, was)
      modifies this`main
      ensures main == After(strategy, rank, src, next, was)
      ensures |next| == |done| + |q|
      ensures |Counted(Upgrade, strategy, rank, src, was, next)|
           == |Counted(Upgrade, strategy, rank, src, was, done)| + |q|
    {
      hide *;
      AllTake(strategy, rank, src, was, done, next, q);
      DoneAfterIs(q, src, was, done, next, |q|);
      DoneAfterIs(q, src, was, done, next, 0);
      for i := 0 to |q|
        invariant DoneAfter(done, q, i) <= src.Keys
        invariant main == After(strategy, rank, src, DoneAfter(done, q, i), was)
        invariant |Counted(Upgrade, strategy, rank, src, was, DoneAfter(done, q, i))|
               == |Counted(Upgrade, strategy, rank, src, was, done)| + i
      {
        SettleNext(strategy, rank, src, was, done, next, q, i);
        main := main[q[i].id := main[q[i].id].(f := Coalesced(src[q[i].r]))];
      }
    }

    /** One range of conflicting rows. */
    method QualityRange(rank: Rank, src: map<int, SrcRow>, drive: bool, cur: int, next: int, workers: int,
                        ghost was: map<int, MainRow>, ghost base: Tally)
      returns (examined: int)
      requires UniqueMain(was) && UniqueSrc(src) && cur <= next
      requires main == After(Quality, rank, src, Upto(Quality, src, was, drive, cur), was)
      requires Tallied(rank, src, was, Upto(Quality, src, was, drive, cur), base,
                       Tally(upgraded, skippedSame, skippedLower))
      modifies this`main, this`upgraded, this`skippedSame, this`skippedLower
      ensures Upto(Quality, src, was, drive, next) <= src.Keys
      ensures main == After(Quality, rank, src, Upto(Quality, src, was, drive, next), was)
      ensures Tallied(rank, src, was, Upto(Quality, src, was, drive, next), base,
                      Tally(upgraded, skippedSame, skippedLower))
      ensures examined == |Upto(Quality, src, was, drive, next)| - |Upto(Quality, src, was, drive, cur)|
    {
      hide *;
      var q := InAnyOrder(Joined(Quality, src, main, drive, cur, next));
      RangeIsNext(Quality, rank, src, was, main, drive, cur, next, q);
      ghost var done, more := Upto(Quality, src, was, drive, cur), Upto(Quality, src, was, drive, next);
      ghost var before := Tally(upgraded, skippedSame, skippedLower);
      ApplyDecisions(rank, src, q, workers, was, done, more);
      TallyMore(rank, src, was, done, more, base, before, Tally(upgraded, skippedSame, skippedLower));
      examined := |q|;
    }

    /** Judges conflicting rows range by range, ranges of target ids or of source row ids. */
    method ResolveByQuality(rank: Rank, src: map<int, SrcRow>, drive: bool, maxId: int, minRow: int, maxRow: int,
                            workers: int)
      returns (examined: int)
      requires Valid() && UniqueSrc(src) && 0 < maxId && minRow <= maxRow
      requires IdsUpto(main, maxId)
      requires RowsIn(src, minRow, maxRow)
      modifies this`main, this`upgraded, this`skippedSame, this`skippedLower
      ensures main == After(Quality, rank, src, src.Keys, old(main))
      ensures upgraded == old(upgraded) + |Counted(Upgrade, Quality, rank, src, old(main), src.Keys)|
      ensures skippedLower == old(skippedLower) + |Counted(SkipLower, Quality, rank, src, old(main), src.Keys)|
      ensures skippedSame + (|src| - |Newcomers(old(main), src)| - examined)
           == old(skippedSame) + |Counted(SkipSame, Quality, rank, src, old(main), src.Keys)|
      ensures examined <= |src| - |Newcomers(old(main), src)|
    {
      hide *;
      ghost var was, base := main, Tally(upgraded, skippedSame, skippedLower);
      ValidMeans();
      var cur, end := if drive then 0 else minRow - 1, if drive then maxId else maxRow;
      examined := 0;
      Range(Quality, rank, src, was, drive, maxId, minRow, maxRow);
      TallyStart(rank, src, was, base);
      while cur < end
        invariant cur <= end && Upto(Quality, src, was, drive, cur) <= src.Keys
        invariant main == After(Quality, rank, src, Upto(Quality, src, was, drive, cur), was)
        invariant examined == |Upto(Quality, src, was, drive, cur)|
        invariant Tallied(rank, src, was, Upto(Quality, src, was, drive, cur), base,
                          Tally(upgraded, skippedSame, skippedLower))
      {
        var next := if cur + 25000 > end then end else cur + 25000;
        var some := QualityRange(rank, src, drive, cur, next, workers, was, base);
        examined := examined + some;
        cur := next;
      }
      ghost var done := Upto(Quality, src, was, drive, end);
      WholeRange(rank, src, was, done, base, Tally(upgraded, skippedSame, skippedLower));
    }

    /** Force and newer: every picked row takes over, range by range. */
    method ResolveByUpdate(strategy: Strategy, ghost rank: Rank, src: map<int, SrcRow>, drive: bool, maxId: int,
                           minRow: int, maxRow: int, chunk: int)
      returns (total: int)
      requires strategy == Newer || strategy == Force
      requires Valid() && UniqueSrc(src) && 0 < maxId && minRow <= maxRow && 0 < chunk
      requires IdsUpto(main, maxId)
      requires RowsIn(src, minRow, maxRow)
      modifies this`main
      ensures main == After(strategy, rank, src, src.Keys, old(main))
      ensures total == |Counted(Upgrade, strategy, rank, src, old(main), src.Keys)|
    {
      hide *;
      ghost var was := main;
      ValidMeans();
      var cur, end := if drive then 0 else minRow - 1, if drive then maxId else maxRow;
      total := 0;
      Range(strategy, rank, src, was, drive, maxId, minRow, maxRow);
      NothingCounted(Upgrade, strategy, rank, src, was);
      while cur < end
        invariant cur <= end
        invariant Upto(strategy, src, was, drive, cur) <= src.Keys
        invariant main == After(strategy, rank, src, Upto(strategy, src, was, drive, cur), was)
        invariant total == |Counted(Upgrade, strategy, rank, src, was, Upto(strategy, src, was, drive, cur))|
      {
        var next := if cur + chunk > end then end else cur + chunk;
        var aff := UpdateRange(strategy, rank, src, drive, cur, next, was);
        total := total + aff;
        cur := next;
      }
      ghost var done := Upto(strategy, src, was, drive, end);
      PickedSuffice(strategy, rank, src, was, done);
      PickedCount(strategy, rank, src, was, done);
    }

    method UpdateRange(strategy: Strategy, ghost rank: Rank, src: map<int, SrcRow>, drive: bool, cur: int, next: int,
                       ghost was: map<int, MainRow>)
      returns (aff: int)
      requires strategy == Newer || strategy == Force
      requires UniqueMain(was) && UniqueSrc(src) && cur <= next
      requires main == After(strategy, rank, src, Upto(strategy, src, was, drive, cur), was)
      modifies this`main
      ensures Upto(strategy, src, was, drive, next) <= src.Keys
      ensures main == After(strategy, rank, src, Upto(strategy, src, was, drive, next), was)
      ensures aff == |Counted(Upgrade, strategy, rank, src, was, Upto(strategy, src, was, drive, next))|
                   - |Counted(Upgrade, strategy, rank, src, was, Upto(strategy, src, was, drive, cur))|
    {
      hide *;
      var q := InAnyOrder(Joined(strategy, src, main, drive, cur, next));
      RangeIsNext(strategy, rank, src, was, main, drive, cur, next, q);
      ghost var done, more := Upto(strategy, src, was, drive, cur), Upto(strategy, src, was, drive, next);
      ApplyUpdate(strategy, rank, src, q, was, done, more);
      aff := |q|;
    }

    /** INSERT OR IGNORE for one chunk of source row ids. */
    method InsertChunk(src: map<int, SrcRow>, lo: int, hi: int,
                       ghost mid: map<int, MainRow>, ghost tried: set<int>, ghost placed: map<int, int>)
      returns (ins: int, ghost where: map<int, int>)
      requires UniqueSrc(src) && tried <= src.Keys && tried !! RowsBetween(src, lo, hi)
      requires Placing(src, tried, mid, main, placed) && IdsBelow(main, nextId)
      modifies this`main, this`nextId
      ensures Placing(src, tried + RowsBetween(src, lo, hi), mid, main, where)
      ensures IdsBelow(main, nextId)
      ensures ins == |where| - |placed|
    {
      hide *;
      var q := InAnyOrder(RowsBetween(src, lo, hi));
      ins, where := 0, placed;
      TriedAfterIs(tried, q, src, lo, hi, 0);
      TriedAfterIs(tried, q, src, lo, hi, |q|);
      for i := 0 to |q|
        invariant TriedAfter(tried, q, i) <= src.Keys
        invariant Placing(src, TriedAfter(tried, q, i), mid, main, where)
        invariant IdsBelow(main, nextId)
        invariant ins == |where| - |placed|
      {
        TriedAfterIs(tried, q, src, lo, hi, i);
        TriedAfterIs(tried, q, src, lo, hi, i + 1);
        var one;
        one, where := InsertOrIgnore(src, q[i], mid, TriedAfter(tried, q, i), where);
        ins := ins + one;
      }
    }

    method InsertOrIgnore(src: map<int, SrcRow>, r: int,
                          ghost mid: map<int, MainRow>, ghost tried: set<int>, ghost placed: map<int, int>)
      returns (ins: int, ghost where: map<int, int>)
      requires UniqueSrc(src) && tried <= src.Keys && r in src && r !in tried
      requires Placing(src, tried, mid, main, placed) && IdsBelow(main, nextId)
      modifies this`main, this`nextId
      ensures Placing(src, tried + {r}, mid, main, where)
      ensures IdsBelow(main, nextId)
      ensures ins == |where| - |placed|
    {
      hide *;
      ins, where := 0, placed;
      NextIdFree(main, nextId, NewRow(src[r]));
      PlaceOne(src, tried, mid, main, placed, r, nextId);
      NotPlaced(src, tried, mid, main, placed, r);
      if !Conflicts(main, src[r]) {
        main := main[nextId := NewRow(src[r])];
        where := where[r := nextId];
        nextId := nextId + 1;
        ins := 1;
      }
    }

    /** Inserts the new rows chunk by chunk.  When the row ids have no gaps the rows of a chunk are counted
        by subtraction instead of by a query. */
    method InsertNew(src: map<int, SrcRow>, minRow: int, maxRow: int, chunk: int)
      returns (srcInserted: int, ghost placed: map<int, int>)
      requires UniqueSrc(src) && 0 < chunk && minRow <= maxRow
      requires RowsIn(src, minRow, maxRow)
      requires IdsBelow(main, nextId)
      modifies this`main, this`nextId, this`totalExamined, this`inserted
      ensures Placing(src, src.Keys, old(main), main, placed)
      ensures IdsBelow(main, nextId)
      ensures srcInserted == |placed| && inserted == old(inserted) + |placed|
      ensures totalExamined == old(totalExamined) + |src|
    {
      hide *;
      ghost var mid := main;
      var contiguous := maxRow - minRow + 1 == |src|;
      placed := map[];
      srcInserted := 0;
      var cur := minRow - 1;
      Ends(src, minRow, maxRow);
      NothingPlaced(src, mid);
      while cur < maxRow
        invariant cur <= maxRow && RowsUpto(src, cur) <= src.Keys
        invariant Placing(src, RowsUpto(src, cur), mid, main, placed)
        invariant IdsBelow(main, nextId)
        invariant srcInserted == |placed| && inserted == old(inserted) + |placed|
        invariant totalExamined == old(totalExamined)
                                 + if contiguous then cur - (minRow - 1) else |RowsUpto(src, cur)|
      {
        var next := if cur + chunk > maxRow then maxRow else cur + chunk;
        var ins;
        ins, placed := InsertNext(src, cur, next, contiguous, mid, placed);
        srcInserted := srcInserted + ins;
        cur := next;
      }
    }

    method InsertNext(src: map<int, SrcRow>, cur: int, next: int, contiguous: bool,
                      ghost mid: map<int, MainRow>, ghost placed: map<int, int>)
      returns (ins: int, ghost where: map<int, int>)
      requires UniqueSrc(src) && cur <= next && RowsUpto(src, cur) <= src.Keys
      requires Placing(src, RowsUpto(src, cur), mid, main, placed) && IdsBelow(main, nextId)
      modifies this`main, this`nextId, this`totalExamined, this`inserted
      ensures RowsUpto(src, next) <= src.Keys
      ensures Placing(src, RowsUpto(src, next), mid, main, where) && IdsBelow(main, nextId)
      ensures ins == |where| - |placed| && inserted == old(inserted) + ins
      ensures totalExamined == old(totalExamined)
                             + if contiguous then next - cur else |RowsUpto(src, next)| - |RowsUpto(src, cur)|
    {
      hide *;
      NextChunk(src, cur, next);
      var chunkRows := if contiguous then next - cur else |RowsBetween(src, cur, next)|;
      ins, where := InsertChunk(src, cur, next, mid, RowsUpto(src, cur), placed);
      totalExamined := totalExamined + chunkRows;
      inserted := inserted + ins;
    }

    /** Merges one source.  `indexed` says whether the source has an index that starts with the file name. */
    method MergeSource(strategy: Strategy, rank: Rank, src: map<int, SrcRow>, batch: int, indexed: bool, workers: int)
      returns (ghost placed: map<int, int>)
      requires Valid() && UniqueSrc(src)
      modifies this
      ensures Valid()
      ensures IsMerge(strategy, rank, src, old(main), main, placed)
      ensures totalExamined == old(totalExamined) + |src|
      ensures inserted == old(inserted) + |Newcomers(old(main), src)|
      ensures upgraded == old(upgraded) + |Counted(Upgrade, strategy, rank, src, old(main), src.Keys)|
      ensures skippedLower == old(skippedLower) + |Counted(SkipLower, strategy, rank, src, old(main), src.Keys)|
      ensures skippedSame == old(skippedSame)
              + if strategy == InsertOnly then 0 else |Counted(SkipSame, strategy, rank, src, old(main), src.Keys)|
      ensures skippedExists == old(skippedExists)
              + if strategy == InsertOnly then |Counted(SkipSame, strategy, rank, src, old(main), src.Keys)| else 0
    {
      hide *;
      placed := map[];
      if |src| == 0 {
        NothingToMerge(strategy, rank, src, main);
        return;
      }
      ghost var was := main;
      ValidMeans();
      var minRow, maxRow := Extent(src.Keys);
      var minId, maxId := Extent(main.Keys);
      ExtentsCover(main, nextId, src, minId, maxId, minRow, maxRow);
      var chunk := if batch <= 1000 then 100000 else batch;
      var drive := indexed && |main| <= |src|;
      NonEmptyExtent(src, minRow, maxRow);
      Untouched(strategy, rank, src, was);
      CountedAll(strategy, rank, src, was);
      var resolved, examined := ResolveConflicts(strategy, rank, src, drive, maxId, minRow, maxRow, chunk, workers);
      SameIds(strategy, rank, src, was, nextId);
      var srcInserted;
      ghost var mid := main;
      srcInserted, placed := InsertNew(src, minRow, maxRow, chunk);
      BothPhases(strategy, rank, src, was, mid, main, placed);
      MergeKeepsUnique(strategy, rank, src, was, main, placed);
      assert |placed| == |placed.Keys|;
      CountConflicts(strategy, |src| - srcInserted, resolved, examined);
      ValidMeans();
    }

    /** First half of a merge: rows that have a counterpart in the target. */
    method ResolveConflicts(strategy: Strategy, rank: Rank, src: map<int, SrcRow>, drive: bool, maxId: int,
                            minRow: int, maxRow: int, chunk: int, workers: int)
      returns (resolved: int, examined: int)
      requires Valid() && UniqueSrc(src) && minRow <= maxRow && 0 < chunk
      requires IdsUpto(main, maxId)
      requires RowsIn(src, minRow, maxRow)
      modifies this`main, this`upgraded, this`skippedSame, this`skippedLower
      ensures main == After(strategy, rank, src, src.Keys, old(main))
      ensures upgraded == old(upgraded) + |Counted(Upgrade, strategy, rank, src, old(main), src.Keys)|
      ensures skippedLower == old(skippedLower) + |Counted(SkipLower, strategy, rank, src, old(main), src.Keys)|
      ensures strategy == Newer || strategy == Force ==>
                resolved == |Counted(Upgrade, strategy, rank, src, old(main), src.Keys)|
      ensures strategy == Quality ==> examined <= |src| - |Newcomers(old(main), src)|
      ensures skippedSame == old(skippedSame) + if strategy != Quality then 0 else
                |Counted(SkipSame, strategy, rank, src, old(main), src.Keys)|
                - (|src| - |Newcomers(old(main), src)| - examined)
    {
      hide *;
      ValidMeans();
      Untouched(strategy, rank, src, main);
      CountedAll(strategy, rank, src, main);
      resolved, examined := 0, 0;
      if |main| == 0 { return; }
      NonEmptyTarget(main, maxId);
      match strategy {
        case InsertOnly =>
        case Quality =>
          examined := ResolveByQuality(rank, src, drive, maxId, minRow, maxRow, workers);
        case _ =>
          resolved := ResolveByUpdate(strategy, rank, src, drive, maxId, minRow, maxRow, chunk);
          upgraded := upgraded + resolved;
      }
    }

    /** The conflicting rows that no statement has counted. */
    method CountConflicts(strategy: Strategy, conflicts: int, resolved: int, examined: int)
      modifies this`skippedExists, this`skippedSame
      ensures skippedExists == old(skippedExists) + if strategy == InsertOnly then conflicts else 0
      ensures skippedSame == old(skippedSame)
              + match strategy
                case Newer => (if conflicts > resolved then conflicts - resolved else 0)
                case Quality => (if conflicts > examined then conflicts - examined else 0)
                case _ => 0
    {
      match strategy {
        case InsertOnly => skippedExists := skippedExists + conflicts;
        case Newer =>
          if conflicts - resolved > 0 { skippedSame := skippedSame + (conflicts - resolved); }
        case Quality =>
          if conflicts - examined > 0 { skippedSame := skippedSame + (conflicts - examined); }
        case Force =>
      }
    }

    lemma ValidMeans()
      ensures Valid() <==> UniqueMain(main) && IdsBelow(main, nextId)
    {
    }

    method CarryOut(c: Candidate)
      requires c.targetID in main
      modifies this`main, this`upgraded, this`skippedSame, this`skippedLower
      ensures main == if c.decision != Upgrade then old(main)
                      else old(main)[c.targetID := old(main)[c.targetID].(f := c.source)]
      ensures upgraded == old(upgraded) + if c.decision == Upgrade then 1 else 0
      ensures skippedSame == old(skippedSame) + if c.decision == SkipSame then 1 else 0
      ensures skippedLower == old(skippedLower) + if c.decision == SkipLower then 1 else 0
    {
      match c.decision {
        case Upgrade =>
          main := main[c.targetID := main[c.targetID].(f := c.source)];
          upgraded := upgraded + 1;
        case SkipSame => skippedSame := skippedSame + 1;
        case SkipLower => skippedLower := skippedLower + 1;
      }
    }
  }

  lemma AllTake(strategy: Strategy, rank: Rank, src: map<int, SrcRow>, was: map<int, MainRow>, done: set<int>,
                next: set<int>, q: seq<Pair>)
    requires (strategy == Newer || strategy == Force) && NextRange(q, src, was, done, next)
    requires forall k | 0 <= k < |q| :: Wanted(strategy, Coalesced(src[q[k].r]), was[q[k].id].f)
    ensures forall k | 0 <= k < |q| :: Verdict(strategy, rank, Coalesced(src[q[k].r]), was[q[k].id].f) == Upgrade
  {
  }

  datatype Tally = Tally(upgraded: int, same: int, lower: int)

  /** What has been counted since `base` is what the rows in `done` come to. */
  ghost predicate Tallied(rank: Rank, src: map<int, SrcRow>, was: map<int, MainRow>, done: set<int>, base: Tally,
                          now: Tally) {
    && done <= src.Keys
    && now.upgraded == base.upgraded + |Counted(Upgrade, Quality, rank, src, was, done)|
    && now.same == base.same + |Counted(SkipSame, Quality, rank, src, was, done)|
    && now.lower == base.lower + |Counted(SkipLower, Quality, rank, src, was, done)|
  }

  lemma NothingCounted(d: Decision, strategy: Strategy, rank: Rank, src: map<int, SrcRow>, was: map<int, MainRow>)
    ensures Counted(d, strategy, rank, src, was, {}) == {}
  {
  }

  lemma ExtentsCover(main: map<int, MainRow>, nextId: int, src: map<int, SrcRow>, minId: int, maxId: int, minRow: int,
                     maxRow: int)
    requires IdsBelow(main, nextId)
    requires forall id | id in main.Keys :: minId <= id <= maxId
    requires forall r | r in src.Keys :: minRow <= r <= maxRow
    ensures IdsUpto(main, maxId) && RowsIn(src, minRow, maxRow)
  {
  }

  lemma SameIds(strategy: Strategy, rank: Rank, src: map<int, SrcRow>, was: map<int, MainRow>, nextId: int)
    requires IdsBelow(was, nextId)
    ensures IdsBelow(After(strategy, rank, src, src.Keys, was), nextId)
  {
  }

  lemma NextIdFree(main: map<int, MainRow>, nextId: int, row: MainRow)
    requires IdsBelow(main, nextId)
    ensures nextId !in main && IdsBelow(main[nextId := row], nextId + 1)
  {
  }

  lemma TallyMore(rank: Rank, src: map<int, SrcRow>, was: map<int, MainRow>, done: set<int>, next: set<int>,
                  base: Tally, before: Tally, now: Tally)
    requires Tallied(rank, src, was, done, base, before) && next <= src.Keys
    requires now.upgraded - before.upgraded
          == |Counted(Upgrade, Quality, rank, src, was, next)| - |Counted(Upgrade, Quality, rank, src, was, done)|
    requires now.same - before.same
          == |Counted(SkipSame, Quality, rank, src, was, next)| - |Counted(SkipSame, Quality, rank, src, was, done)|
    requires now.lower - before.lower
          == |Counted(SkipLower, Quality, rank, src, was, next)| - |Counted(SkipLower, Quality, rank, src, was, done)|
    ensures Tallied(rank, src, was, next, base, now)
  {
  }

  lemma TallyStart(rank: Rank, src: map<int, SrcRow>, was: map<int, MainRow>, base: Tally)
    ensures Tallied(rank, src, was, {}, base, base)
  {
    assert forall d: Decision :: Counted(d, Quality, rank, src, was, {}) == {};
  }

  /** Once every range is done, the picked rows account for everything. */
  lemma WholeRange(rank: Rank, src: map<int, SrcRow>, was: map<int, MainRow>, done: set<int>, base: Tally, now: Tally)
    requires UniqueMain(was) && UniqueSrc(src) && AllPicked(Quality, src, was, done)
    requires Tallied(rank, src, was, done, base, now)
    ensures After(Quality, rank, src, done, was) == After(Quality, rank, src, src.Keys, was)
    ensures now.upgraded == base.upgraded + |Counted(Upgrade, Quality, rank, src, was, src.Keys)|
    ensures now.lower == base.lower + |Counted(SkipLower, Quality, rank, src, was, src.Keys)|
    ensures now.same + (|src| - |Newcomers(was, src)| - |done|)
         == base.same + |Counted(SkipSame, Quality, rank, src, was, src.Keys)|
    ensures |done| <= |src| - |Newcomers(was, src)|
  {
    PickedSuffice(Quality, rank, src, was, done);
    PickedCount(Quality, rank, src, was, done);
    CountedPartition(Quality, rank, src, was, done);
    DoneAreOld(src, was, done);
  }

  lemma DoneAreOld(src: map<int, SrcRow>, was: map<int, MainRow>, done: set<int>)
    requires AllPicked(Quality, src, was, done)
    ensures |done| <= |src| - |Newcomers(was, src)|
  {
    var n := Newcomers(was, src);
    forall r | r in done ensures r !in n {
      assert Conflicts(was, src[r]);
    }
    assert done + n <= src.Keys;
    Subset(done + n, src.Keys);
    assert |done + n| == |done| + |n|;
  }

  lemma Subset(a: set<int>, b: set<int>)
    requires a <= b
    ensures |a| <= |b|
  {
    assert b == a + (b - a);
  }

  /** Before the first range nothing has been picked, after the last everything has. */
  lemma Range(strategy: Strategy, rank: Rank, src: map<int, SrcRow>, was: map<int, MainRow>, drive: bool,
              maxId: int, minRow: int, maxRow: int)
    requires IdsUpto(was, maxId)
    requires RowsIn(src, minRow, maxRow)
    ensures Upto(strategy, src, was, drive, if drive then 0 else minRow - 1) == {}
    ensures After(strategy, rank, src, {}, was) == was
    ensures AllPicked(strategy, src, was, Upto(strategy, src, was, drive, if drive then maxId else maxRow))
  {
    AfterNothing(strategy, rank, src, was);
    UptoEnd(strategy, src, was, drive, if drive then maxId else maxRow);
  }

  lemma NotPlaced(src: map<int, SrcRow>, tried: set<int>, mid: map<int, MainRow>, main: map<int, MainRow>,
                  placed: map<int, int>, r: int)
    requires tried <= src.Keys && Placing(src, tried, mid, main, placed) && r !in tried
    ensures r !in placed
  {
    assert r !in placed.Keys;
  }

  /** The source rows tried after the first `i` of a chunk. */
  ghost function TriedAfter(tried: set<int>, q: seq<int>, i: nat): (s: set<int>)
    requires i <= |q|
  {
    if i == 0 then tried else TriedAfter(tried, q, i - 1) + {q[i - 1]}
  }

  lemma {:induction false} TriedAfterHas(tried: set<int>, q: seq<int>, i: nat)
    requires i <= |q|
    ensures forall r :: r in TriedAfter(tried, q, i) <==> r in tried || exists k :: 0 <= k < i && q[k] == r
  {
    if i > 0 { TriedAfterHas(tried, q, i - 1); }
  }

  lemma TriedAfterIs(tried: set<int>, q: seq<int>, src: map<int, SrcRow>, lo: int, hi: int, i: nat)
    requires tried <= src.Keys && tried !! RowsBetween(src, lo, hi) && i <= |q|
    requires forall r :: r in q <==> r in RowsBetween(src, lo, hi)
    requires forall j, k | 0 <= j < |q| && 0 <= k < |q| && j != k :: q[j] != q[k]
    ensures TriedAfter(tried, q, i) <= src.Keys
    ensures i < |q| ==> q[i] in src && q[i] !in TriedAfter(tried, q, i)
    ensures i < |q| ==> TriedAfter(tried, q, i + 1) == TriedAfter(tried, q, i) + {q[i]}
    ensures i == |q| ==> TriedAfter(tried, q, i) == tried + RowsBetween(src, lo, hi)
    ensures TriedAfter(tried, q, 0) == tried
  {
    TriedAfterHas(tried, q, i);
    var rows := RowsBetween(src, lo, hi);
    assert rows <= src.Keys;
    hide RowsBetween;
    assert forall k | 0 <= k < |q| :: q[k] in q && q[k] in rows;
    forall r | r in TriedAfter(tried, q, i) ensures r in src.Keys {
      if r !in tried { var k :| 0 <= k < i && q[k] == r; assert q[k] in rows; }
    }
    if i < |q| {
      assert q[i] in rows && q[i] !in tried;
      assert forall k | 0 <= k < i :: q[k] != q[i];
    } else {
      forall r ensures r in TriedAfter(tried, q, i) <==> r in tried + rows {
        if r in rows { assert r in q; }
        if r in TriedAfter(tried, q, i) && r !in tried { var k :| 0 <= k < i && q[k] == r; assert q[k] in rows; }
      }
    }
  }

  function RowsUpto(src: map<int, SrcRow>, hi: int): set<int> {
    set r | r in src && r <= hi
  }

  lemma NextChunk(src: map<int, SrcRow>, cur: int, next: int)
    requires cur <= next
    ensures RowsUpto(src, cur) <= src.Keys && RowsUpto(src, next) <= src.Keys
    ensures RowsUpto(src, cur) !! RowsBetween(src, cur, next)
    ensures RowsUpto(src, next) == RowsUpto(src, cur) + RowsBetween(src, cur, next)
    ensures |RowsUpto(src, next)| == |RowsUpto(src, cur)| + |RowsBetween(src, cur, next)|
  {
    assert RowsUpto(src, next) == RowsUpto(src, cur) + RowsBetween(src, cur, next);
  }

  lemma Ends(src: map<int, SrcRow>, minRow: int, maxRow: int)
    requires RowsIn(src, minRow, maxRow)
    ensures RowsUpto(src, minRow - 1) == {} && RowsUpto(src, maxRow) == src.Keys && |src.Keys| == |src|
  {
  }

  lemma NothingPlaced(src: map<int, SrcRow>, mid: map<int, MainRow>)
    ensures Placing(src, {}, mid, mid, map[])
  {
  }

  lemma NothingToMerge(strategy: Strategy, rank: Rank, src: map<int, SrcRow>, was: map<int, MainRow>)
    requires |src| == 0
    ensures IsMerge(strategy, rank, src, was, was, map[])
    ensures Newcomers(was, src) == {}
    ensures forall d: Decision :: Counted(d, strategy, rank, src, was, src.Keys) == {}
  {
    assert src.Keys == {};
    AfterNothing(strategy, rank, src, was);
    assert forall id | id in was ::
            RowAfter(strategy, rank, src, {}, was[id]) == After(strategy, rank, src, {}, was)[id];
  }

  lemma NonEmptyExtent(src: map<int, SrcRow>, minRow: int, maxRow: int)
    requires |src| != 0 && RowsIn(src, minRow, maxRow)
    ensures minRow <= maxRow
  {
    assert |src.Keys| == |src|;
    var r := Inhabited(src.Keys);
    assert r in src;
  }

  lemma NonEmptyTarget(main: map<int, MainRow>, maxId: int)
    requires |main| > 0 && IdsUpto(main, maxId)
    ensures 0 < maxId
  {
    assert |main.Keys| == |main|;
    var id := Inhabited(main.Keys);
    assert id in main;
  }

  /** An empty target, or one that is only added to, has nothing to resolve. */
  lemma Untouched(strategy: Strategy, rank: Rank, src: map<int, SrcRow>, was: map<int, MainRow>)
    requires UniqueMain(was) && UniqueSrc(src)
    ensures |was| == 0 || strategy == InsertOnly ==> After(strategy, rank, src, src.Keys, was) == was
    ensures |was| == 0 ==> forall d: Decision :: Counted(d, strategy, rank, src, was, src.Keys) == {}
    ensures strategy == InsertOnly ==> forall d: Decision | d != SkipSame ::
            Counted(d, strategy, rank, src, was, src.Keys) == {}
    ensures strategy != Quality ==> Counted(SkipLower, strategy, rank, src, was, src.Keys) == {}
    ensures strategy == Force ==> Counted(SkipSame, strategy, rank, src, was, src.Keys) == {}
  {
    if |was| == 0 {
      assert |was.Keys| == 0;
      assert was.Keys == {};
      assert forall r | r in src :: !Conflicts(was, src[r]);
    }
    if strategy == InsertOnly {
      forall id | id in was ensures RowAfter(strategy, rank, src, src.Keys, was[id]) == was[id] { }
    }
    forall d: Decision | |was| == 0 || (strategy == InsertOnly && d != SkipSame)
                         || (strategy != Quality && d == SkipLower) || (strategy == Force && d == SkipSame)
      ensures Counted(d, strategy, rank, src, was, src.Keys) == {}
    {
      forall r | r in src && Conflicts(was, src[r])
        ensures Verdict(strategy, rank, Coalesced(src[r]), was[Target(was, src[r])].f) != d { }
    }
  }

  lemma CountedAll(strategy: Strategy, rank: Rank, src: map<int, SrcRow>, was: map<int, MainRow>)
    ensures |Counted(Upgrade, strategy, rank, src, was, src.Keys)|
            + |Counted(SkipSame, strategy, rank, src, was, src.Keys)|
            + |Counted(SkipLower, strategy, rank, src, was, src.Keys)| + |Newcomers(was, src)| == |src|
  {
    CountedPartition(strategy, rank, src, was, src.Keys);
    assert src.Keys * Newcomers(was, src) == Newcomers(was, src);
    assert |src.Keys| == |src|;
  }

  lemma StillThere(strategy: Strategy, rank: Rank, src: map<int, SrcRow>, was: map<int, MainRow>, done: set<int>,
                   next: set<int>, q: seq<Pair>)
    requires UniqueMain(was) && UniqueSrc(src) && NextRange(q, src, was, done, next)
    ensures forall k | 0 <= k < |q| :: q[k].id in was && q[k].r in src
    ensures forall k | 0 <= k < |q| :: q[k].id in After(strategy, rank, src, done, was)
    ensures forall k | 0 <= k < |q| :: After(strategy, rank, src, done, was)[q[k].id] == was[q[k].id]
  {
    forall k | 0 <= k < |q| ensures After(strategy, rank, src, done, was)[q[k].id] == was[q[k].id] {
      AfterOneMore(strategy, rank, src, done, was, q[k].r, q[k].id);
    }
  }

  /** `Settle` for the next row of a range. */
  lemma SettleNext(strategy: Strategy, rank: Rank, src: map<int, SrcRow>, was: map<int, MainRow>, done: set<int>,
                   next: set<int>, q: seq<Pair>, i: nat)
    requires UniqueMain(was) && UniqueSrc(src) && NextRange(q, src, was, done, next) && i < |q|
    ensures q[i].r in src && q[i].id in was
    ensures var before, after, verdict := DoneAfter(done, q, i), DoneAfter(done, q, i + 1),
                                          Verdict(strategy, rank, Coalesced(src[q[i].r]), was[q[i].id].f);
            && before <= src.Keys && after <= src.Keys
            && q[i].id in After(strategy, rank, src, before, was)
            && After(strategy, rank, src, before, was)[q[i].id] == was[q[i].id]
            && After(strategy, rank, src, after, was)
               == (if verdict == Upgrade
                   then After(strategy, rank, src, before, was)[q[i].id := was[q[i].id].(f := Coalesced(src[q[i].r]))]
                   else After(strategy, rank, src, before, was))
            && |Counted(Upgrade, strategy, rank, src, was, after)|
               == |Counted(Upgrade, strategy, rank, src, was, before)| + (if verdict == Upgrade then 1 else 0)
            && |Counted(SkipSame, strategy, rank, src, was, after)|
               == |Counted(SkipSame, strategy, rank, src, was, before)| + (if verdict == SkipSame then 1 else 0)
            && |Counted(SkipLower, strategy, rank, src, was, after)|
               == |Counted(SkipLower, strategy, rank, src, was, before)| + (if verdict == SkipLower then 1 else 0)
  {
    DoneAfterIs(q, src, was, done, next, i);
    DoneAfterIs(q, src, was, done, next, i + 1);
    DoneAfterSnoc(done, q, i);
    AfterKeepsKeys(strategy, rank, src, DoneAfter(done, q, i), was);
    hide After, Counted, Verdict, DoneAfter;
    Settle(strategy, rank, src, was, DoneAfter(done, q, i), q[i]);
  }

  /** Reads the rows of a range and has them judged. */
  method Judge(rank: Rank, src: map<int, SrcRow>, main: map<int, MainRow>, q: seq<Pair>, workers: int)
    returns (candidates: array<Candidate>)
    requires forall k | 0 <= k < |q| :: q[k].id in main && q[k].r in src
    ensures fresh(candidates) && candidates.Length == |q|
    ensures forall k | 0 <= k < |q| ::
              && candidates[k].targetID == q[k].id && candidates[k].source == Coalesced(src[q[k].r])
              && candidates[k].decision == Verdict(Quality, rank, Coalesced(src[q[k].r]), main[q[k].id].f)
  {
    candidates := new Candidate[|q|](k requires 0 <= k < |q| && q[k].id in main && q[k].r in src =>
      Candidate(q[k].id, main[q[k].id].f, Coalesced(src[q[k].r]), SkipSame));
    EvaluateParallel(rank, candidates, workers);
  }

  lemma DoneAfterSnoc(done: set<int>, q: seq<Pair>, i: nat)
    requires i < |q|
    ensures DoneAfter(done, q, i + 1) == DoneAfter(done, q, i) + {q[i].r}
  {
  }
}
