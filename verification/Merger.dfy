/** Merging one lyrics database into another (internal/storage/merger.go).  SQL statements act on keyed
    row sets; a statement visits its rows in no particular order. */
module Merger {

  import opened Wrappers
  import opened Evaluation

  datatype Strategy = Quality | Newer | InsertOnly | Force

  datatype MainRow = MainRow(filename: string, source: Option<string>, f: Fields)

  /** A source row; absent columns are NULL. */
  datatype SrcRow = SrcRow(filename: string, source: Option<string>, content: Blob, isrc: Option<string>,
                           platformId: Option<string>, title: Option<string>, artist: Option<string>,
                           durationMs: Option<int>, createdAt: Option<int>)

  function OrElse<T>(o: Option<T>, default: T): T { if o.Some? then o.value else default }

  function Coalesced(s: SrcRow): Fields {
    Fields(s.content, OrElse(s.isrc, ""), OrElse(s.platformId, ""), OrElse(s.title, ""), OrElse(s.artist, ""),
           OrElse(s.durationMs, 0), OrElse(s.createdAt, 0))
  }

  function NewRow(s: SrcRow): MainRow { MainRow(s.filename, s.source, Coalesced(s)) }

  /** The join condition.  NULL sources never compare equal. */
  predicate Match(m: MainRow, s: SrcRow) {
    m.source.Some? && m.source == s.source && m.filename == s.filename
  }

  /** UNIQUE(filename, source), under which NULL sources never clash. */
  ghost predicate UniqueMain(main: map<int, MainRow>) {
    forall i, j | i in main && j in main && i != j && main[i].source.Some? ::
      !(main[i].source == main[j].source && main[i].filename == main[j].filename)
  }

  ghost predicate UniqueSrc(src: map<int, SrcRow>) {
    forall r, t | r in src && t in src && r != t && src[r].source.Some? ::
      !(src[r].source == src[t].source && src[r].filename == src[t].filename)
  }

  /** Whether a source row takes over the target row it conflicts with. */
  predicate Takes(strategy: Strategy, rank: Rank, s: Fields, m: Fields) {
    match strategy
    case Quality => Better(rank, s, m)
    case Newer => s.createdAt > m.createdAt
    case InsertOnly => false
    case Force => true
  }

  predicate Conflicts(main: map<int, MainRow>, s: SrcRow) {
    exists id :: id in main && Match(main[id], s)
  }

  ghost function Target(main: map<int, MainRow>, s: SrcRow): (id: int)
    requires Conflicts(main, s)
    ensures id in main && Match(main[id], s)
  {
    var id :| id in main && Match(main[id], s);
    id
  }

  lemma TargetIs(main: map<int, MainRow>, s: SrcRow, id: int)
    requires UniqueMain(main) && id in main && Match(main[id], s)
    ensures Conflicts(main, s) && Target(main, s) == id
  {
    var t := Target(main, s);
    assert Match(main[t], s);
  }

  /** The source row among `done` that a target row conflicts with. */
  ghost function Source(src: map<int, SrcRow>, done: set<int>, m: MainRow): (o: Option<int>)
    requires done <= src.Keys
    ensures o.Some? ==> o.value in done && Match(m, src[o.value])
    ensures o.None? ==> forall r | r in done :: !Match(m, src[r])
  {
    if exists r :: r in done && Match(m, src[r]) then
      var r :| r in done && Match(m, src[r]);
      Some(r)
    else
      None
  }

  lemma SourceIs(src: map<int, SrcRow>, done: set<int>, m: MainRow, r: int)
    requires UniqueSrc(src) && done <= src.Keys && r in done && Match(m, src[r])
    ensures Source(src, done, m) == Some(r)
  {
    assert Source(src, done, m).Some?;
    var t := Source(src, done, m).value;
    assert Match(m, src[t]);
  }

  /** What a target row becomes once the source rows in `done` have been dealt with. */
  ghost function RowAfter(strategy: Strategy, rank: Rank, src: map<int, SrcRow>, done: set<int>, m: MainRow): MainRow
    requires done <= src.Keys
  {
    match Source(src, done, m)
    case None => m
    case Some(r) => if Takes(strategy, rank, Coalesced(src[r]), m.f) then m.(f := Coalesced(src[r])) else m
  }

  ghost function After(strategy: Strategy, rank: Rank, src: map<int, SrcRow>, done: set<int>,
                       main: map<int, MainRow>): map<int, MainRow>
    requires done <= src.Keys
  {
    map id | id in main :: RowAfter(strategy, rank, src, done, main[id])
  }

  lemma AfterNothing(strategy: Strategy, rank: Rank, src: map<int, SrcRow>, main: map<int, MainRow>)
    ensures After(strategy, rank, src, {}, main) == main
  {
    forall id | id in main ensures RowAfter(strategy, rank, src, {}, main[id]) == main[id] {
      assert Source(src, {}, main[id]).None?;
    }
  }

  /** Keys never change while conflicts are resolved. */
  lemma AfterKeepsKeys(strategy: Strategy, rank: Rank, src: map<int, SrcRow>, done: set<int>, main: map<int, MainRow>)
    requires done <= src.Keys
    ensures After(strategy, rank, src, done, main).Keys == main.Keys
    ensures forall id | id in main :: After(strategy, rank, src, done, main)[id].filename == main[id].filename
    ensures forall id | id in main :: After(strategy, rank, src, done, main)[id].source == main[id].source
  {
  }

  /** Dealing with one more source row touches its target and nothing else, and finds it untouched. */
  lemma {:induction false} AfterOneMore(strategy: Strategy, rank: Rank, src: map<int, SrcRow>, done: set<int>,
                                        main: map<int, MainRow>, r: int, id: int)
    requires UniqueMain(main) && UniqueSrc(src) && done <= src.Keys && r in src && r !in done
    requires id in main && Match(main[id], src[r])
    ensures After(strategy, rank, src, done, main)[id] == main[id]
    ensures After(strategy, rank, src, done + {r}, main)
         == if Takes(strategy, rank, Coalesced(src[r]), main[id].f)
            then After(strategy, rank, src, done, main)[id := main[id].(f := Coalesced(src[r]))]
            else After(strategy, rank, src, done, main)
  {
    forall t | t in done ensures !Match(main[id], src[t]) {
      assert t != r;
    }
    SourceIs(src, done + {r}, main[id], r);
    forall i | i in main && i != id
      ensures RowAfter(strategy, rank, src, done + {r}, main[i]) == RowAfter(strategy, rank, src, done, main[i])
    {
      assert !Match(main[i], src[r]);
      var p := Source(src, done, main[i]);
      if p.Some? { SourceIs(src, done + {r}, main[i], p.value); }
    }
  }

  /** Source rows that would not take over can be left out. */
  lemma {:induction false} AfterOmits(strategy: Strategy, rank: Rank, src: map<int, SrcRow>, done: set<int>,
                                      main: map<int, MainRow>)
    requires UniqueMain(main) && UniqueSrc(src) && done <= src.Keys
    requires forall r, id | r in src && r !in done && id in main && Match(main[id], src[r]) ::
               !Takes(strategy, rank, Coalesced(src[r]), main[id].f)
    ensures After(strategy, rank, src, done, main) == After(strategy, rank, src, src.Keys, main)
  {
    forall id | id in main
      ensures RowAfter(strategy, rank, src, done, main[id]) == RowAfter(strategy, rank, src, src.Keys, main[id])
    {
      var o := Source(src, done, main[id]);
      if o.Some? {
        SourceIs(src, src.Keys, main[id], o.value);
      }
    }
  }

  // ---- what a merge of one source leaves behind ----

  function Newcomers(main: map<int, MainRow>, src: map<int, SrcRow>): set<int> {
    set r | r in src && !Conflicts(main, src[r])
  }

  /** `placed` says where each new row went. */
  ghost predicate IsMerge(strategy: Strategy, rank: Rank, src: map<int, SrcRow>, was: map<int, MainRow>,
                          now: map<int, MainRow>, placed: map<int, int>)
  {
    && placed.Keys == Newcomers(was, src)
    && (forall r, t | r in placed && t in placed && r != t :: placed[r] != placed[t])
    && (forall r | r in placed :: placed[r] !in was && placed[r] in now && now[placed[r]] == NewRow(src[r]))
    && (forall id | id in was :: id in now && now[id] == RowAfter(strategy, rank, src, src.Keys, was[id]))
    && (forall id | id in now :: id in was || exists r :: r in placed && placed[r] == id)
  }

  datatype Key = Key(filename: string, source: string)

  ghost predicate At(m: MainRow, k: Key) { m.source == Some(k.source) && m.filename == k.filename }

  /** What a database holds under a key. */
  ghost function Held(main: map<int, MainRow>, k: Key): Option<Fields> {
    if exists id :: id in main && At(main[id], k) then
      var id :| id in main && At(main[id], k);
      Some(main[id].f)
    else
      None
  }

  ghost function Offered(src: map<int, SrcRow>, k: Key): Option<Fields> {
    if exists r :: r in src && At(NewRow(src[r]), k) then
      var r :| r in src && At(NewRow(src[r]), k);
      Some(Coalesced(src[r]))
    else
      None
  }

  /** The simple form of a merge, one key at a time. */
  function Join(strategy: Strategy, rank: Rank, held: Option<Fields>, offered: Option<Fields>): Option<Fields> {
    if held.None? then offered
    else if offered.None? then held
    else if Takes(strategy, rank, offered.value, held.value) then offered
    else held
  }

  lemma HeldIs(main: map<int, MainRow>, k: Key, id: int)
    requires UniqueMain(main) && id in main && At(main[id], k)
    ensures Held(main, k) == Some(main[id].f)
  {
  }

  lemma OfferedIs(src: map<int, SrcRow>, k: Key, r: int)
    requires UniqueSrc(src) && r in src && At(NewRow(src[r]), k)
    ensures Offered(src, k) == Some(Coalesced(src[r]))
  {
  }

  lemma {:induction false} MergeKeepsUnique(strategy: Strategy, rank: Rank, src: map<int, SrcRow>,
                                            was: map<int, MainRow>, now: map<int, MainRow>, placed: map<int, int>)
    requires UniqueMain(was) && UniqueSrc(src) && IsMerge(strategy, rank, src, was, now, placed)
    ensures UniqueMain(now)
  {
    forall i, j | i in now && j in now && i != j && now[i].source.Some?
      ensures !(now[i].source == now[j].source && now[i].filename == now[j].filename)
    {
      if i !in was {
        var r :| r in placed && placed[r] == i;
        if j in was { assert !Conflicts(was, src[r]) && !Match(was[j], src[r]); }
        else { var t :| t in placed && placed[t] == j; }
      } else if j !in was {
        var t :| t in placed && placed[t] == j;
        assert !Conflicts(was, src[t]) && !Match(was[i], src[t]);
      }
    }
  }

  /** Under every key a merge is the pointwise join: for the quality strategy, the lexicographic maximum of
      quality and age with the target kept on ties. */
  lemma {:induction false} MergeIsPointwise(strategy: Strategy, rank: Rank, src: map<int, SrcRow>,
                                            was: map<int, MainRow>, now: map<int, MainRow>, placed: map<int, int>,
                                            k: Key)
    requires UniqueMain(was) && UniqueSrc(src) && IsMerge(strategy, rank, src, was, now, placed)
    ensures Held(now, k) == Join(strategy, rank, Held(was, k), Offered(src, k))
  {
    hide *;
    MergeKeepsUnique(strategy, rank, src, was, now, placed);
    if id :| id in was && At(was[id], k) {
      HeldStays(strategy, rank, src, was, now, placed, k, id);
    } else if r :| r in src && At(NewRow(src[r]), k) {
      OfferedEnters(strategy, rank, src, was, now, placed, k, r);
    } else {
      NeitherHolds(strategy, rank, src, was, now, placed, k);
    }
  }

  lemma NeitherHolds(strategy: Strategy, rank: Rank, src: map<int, SrcRow>, was: map<int, MainRow>,
                     now: map<int, MainRow>, placed: map<int, int>, k: Key)
    requires IsMerge(strategy, rank, src, was, now, placed)
    requires forall id | id in was :: !At(was[id], k)
    requires forall r | r in src :: !At(NewRow(src[r]), k)
    ensures Held(now, k) == Join(strategy, rank, Held(was, k), Offered(src, k))
  {
    forall id | id in now ensures !At(now[id], k) {
      if id in was { assert !At(was[id], k); }
      else { var r :| r in placed && placed[r] == id; assert !At(NewRow(src[r]), k); }
    }
  }

  /** A key the target holds. */
  lemma HeldStays(strategy: Strategy, rank: Rank, src: map<int, SrcRow>, was: map<int, MainRow>,
                  now: map<int, MainRow>, placed: map<int, int>, k: Key, id: int)
    requires UniqueMain(was) && UniqueMain(now) && UniqueSrc(src) && IsMerge(strategy, rank, src, was, now, placed)
    requires id in was && At(was[id], k)
    ensures Held(now, k) == Join(strategy, rank, Held(was, k), Offered(src, k))
  {
    HeldIs(was, k, id);
    HeldIs(now, k, id);
    if r :| r in src && At(NewRow(src[r]), k) {
      OfferedIs(src, k, r);
      SourceIs(src, src.Keys, was[id], r);
    } else {
      forall t | t in src ensures !Match(was[id], src[t]) {
        assert !At(NewRow(src[t]), k);
      }
    }
  }

  /** A key only the source offers. */
  lemma OfferedEnters(strategy: Strategy, rank: Rank, src: map<int, SrcRow>, was: map<int, MainRow>,
                      now: map<int, MainRow>, placed: map<int, int>, k: Key, r: int)
    requires UniqueMain(was) && UniqueMain(now) && UniqueSrc(src) && IsMerge(strategy, rank, src, was, now, placed)
    requires r in src && At(NewRow(src[r]), k) && forall id | id in was :: !At(was[id], k)
    ensures Held(now, k) == Join(strategy, rank, Held(was, k), Offered(src, k))
  {
    OfferedIs(src, k, r);
    forall id | id in was ensures !Match(was[id], src[r]) { assert !At(was[id], k); }
    assert r in placed;
    HeldIs(now, k, placed[r]);
  }

  /** Whatever the plan, the chunk size and the order of the rows: rows that were there end up the same, every
      key holds the same, and as many rows are new. */
  lemma {:induction false} PlanDoesNotMatter(strategy: Strategy, rank: Rank, src: map<int, SrcRow>,
                                             was: map<int, MainRow>,
                                             one: map<int, MainRow>, placedOne: map<int, int>,
                                             two: map<int, MainRow>, placedTwo: map<int, int>, k: Key)
    requires UniqueMain(was) && UniqueSrc(src)
    requires IsMerge(strategy, rank, src, was, one, placedOne) && IsMerge(strategy, rank, src, was, two, placedTwo)
    ensures forall id | id in was :: id in one && id in two && one[id] == two[id]
    ensures Held(one, k) == Held(two, k)
    ensures placedOne.Keys == placedTwo.Keys
    ensures forall r | r in placedOne :: one[placedOne[r]] == two[placedTwo[r]]
  {
    MergeIsPointwise(strategy, rank, src, was, one, placedOne, k);
    MergeIsPointwise(strategy, rank, src, was, two, placedTwo, k);
    hide RowAfter, Newcomers, Held, Join, Offered;
  }

  /** Of no higher quality, and of the same quality no younger; holding nothing is worst. */
  predicate NotAbove(rank: Rank, a: Option<Fields>, b: Option<Fields>) {
    a.None? || (b.Some? && !Better(rank, a.value, b.value))
  }

  /** The order in which two sources are merged makes no difference to the quality and age of what ends up
      under a key, and nothing ever gets worse. */
  lemma SourcesCommute(rank: Rank, held: Option<Fields>, a: Option<Fields>, b: Option<Fields>)
    ensures var ab := Join(Quality, rank, Join(Quality, rank, held, a), b);
            var ba := Join(Quality, rank, Join(Quality, rank, held, b), a);
            NotAbove(rank, ab, ba) && NotAbove(rank, ba, ab)
            && NotAbove(rank, held, ab) && NotAbove(rank, a, ab) && NotAbove(rank, b, ab)
            && (ab == held || ab == a || ab == b)
  {
  }

  /** Merging the same source a second time changes nothing exactly when no source row has a NULL source
      column: those rows conflict with nothing and are inserted again. */
  lemma {:induction false} MergeTwice(strategy: Strategy, rank: Rank, src: map<int, SrcRow>, was: map<int, MainRow>,
                                      mid: map<int, MainRow>, placed: map<int, int>,
                                      now: map<int, MainRow>, again: map<int, int>)
    requires UniqueMain(was) && UniqueSrc(src)
    requires IsMerge(strategy, rank, src, was, mid, placed) && IsMerge(strategy, rank, src, mid, now, again)
    ensures now == mid <==> forall r | r in src :: src[r].source.Some?
    ensures again.Keys == (set r | r in src && src[r].source.None?)
  {
    NowAllConflict(strategy, rank, src, was, mid, placed);
    assert again.Keys == Newcomers(mid, src);
    assert Newcomers(mid, src) == (set r | r in src && src[r].source.None?) by {
      hide Conflicts;
      forall r | r in src ensures r in Newcomers(mid, src) <==> src[r].source.None? {
        assert Conflicts(mid, src[r]) <==> src[r].source.Some?;
      }
    }
    forall id | id in mid ensures id in now && now[id] == mid[id] {
      SettledRow(strategy, rank, src, was, mid, placed, id);
    }
    hide Conflicts, RowAfter;
    if r :| r in src && src[r].source.None? {
      assert r in again.Keys;
      assert again[r] in now && again[r] !in mid;
    } else {
      forall r | r in src ensures src[r].source.Some? && r !in again.Keys {
        assert !src[r].source.None?;
      }
      assert again.Keys == {};
      assert forall id | id in now :: id in mid;
      assert now.Keys == mid.Keys;
    }
  }

  /** A source of one row with a NULL source column, merged twice into an empty target, is there twice. */
  lemma NullSourceTwice(strategy: Strategy, rank: Rank, s: SrcRow)
    requires s.source.None?
    ensures var src, once := map[0 := s], map[1 := NewRow(s)];
            && IsMerge(strategy, rank, src, map[], once, map[0 := 1])
            && IsMerge(strategy, rank, src, once, once[2 := NewRow(s)], map[0 := 2])
  {
    var src, once := map[0 := s], map[1 := NewRow(s)];
    assert !Conflicts(map[], s) && !Conflicts(once, s);
    assert Newcomers(map[], src) == {0} && Newcomers(once, src) == {0};
    assert RowAfter(strategy, rank, src, src.Keys, once[1]) == once[1] by {
      assert !Match(once[1], src[0]);
    }
    hide Newcomers, RowAfter, Conflicts, NewRow;
  }

  /** Once a source is merged, its rows conflict with what is there, unless their source column is NULL. */
  lemma {:induction false} NowAllConflict(strategy: Strategy, rank: Rank, src: map<int, SrcRow>, was: map<int, MainRow>,
                                          mid: map<int, MainRow>, placed: map<int, int>)
    requires IsMerge(strategy, rank, src, was, mid, placed)
    ensures forall r | r in src :: Conflicts(mid, src[r]) <==> src[r].source.Some?
  {
    forall r | r in src ensures Conflicts(mid, src[r]) <==> src[r].source.Some? {
      if src[r].source.Some? {
        if id :| id in was && Match(was[id], src[r]) { assert Match(mid[id], src[r]); }
        else { assert r in placed && Match(mid[placed[r]], src[r]); }
      }
    }
  }

  lemma {:induction false} SettledRow(strategy: Strategy, rank: Rank, src: map<int, SrcRow>, was: map<int, MainRow>,
                                      mid: map<int, MainRow>, placed: map<int, int>, id: int)
    requires UniqueMain(was) && UniqueSrc(src) && IsMerge(strategy, rank, src, was, mid, placed) && id in mid
    ensures RowAfter(strategy, rank, src, src.Keys, mid[id]) == mid[id]
  {
    var o := Source(src, src.Keys, mid[id]);
    if o.Some? {
      var r := o.value;
      if id in was {
        assert Match(was[id], src[r]);
        SourceIs(src, src.Keys, was[id], r);
      } else {
        var t :| t in placed && placed[t] == id;
        assert Match(mid[id], src[t]);
        SourceIs(src, src.Keys, mid[id], t);
      }
    }
  }

  // ---- what is counted ----

  /** What is counted for a conflicting row: only the quality strategy tells lower rows from equal ones. */
  function Verdict(strategy: Strategy, rank: Rank, s: Fields, m: Fields): (d: Decision)
    ensures d == Upgrade <==> Takes(strategy, rank, s, m)
  {
    DecideIsBetter(rank, s, m);
    if strategy == Quality then Decide(rank, s, m)
    else if Takes(strategy, rank, s, m) then Upgrade else SkipSame
  }

  /** The rows of `done` that conflict with a target row and are counted as `d`. */
  ghost function Counted(d: Decision, strategy: Strategy, rank: Rank, src: map<int, SrcRow>, main: map<int, MainRow>,
                         done: set<int>): set<int>
    requires done <= src.Keys
  {
    set r | r in done && Conflicts(main, src[r])
            && Verdict(strategy, rank, Coalesced(src[r]), main[Target(main, src[r])].f) == d
  }

  lemma CountedOneMore(d: Decision, strategy: Strategy, rank: Rank, src: map<int, SrcRow>, main: map<int, MainRow>,
                       done: set<int>, r: int, id: int)
    requires UniqueMain(main) && done <= src.Keys && r in src && r !in done && id in main && Match(main[id], src[r])
    ensures |Counted(d, strategy, rank, src, main, done + {r})|
         == |Counted(d, strategy, rank, src, main, done)|
            + if Verdict(strategy, rank, Coalesced(src[r]), main[id].f) == d then 1 else 0
  {
    TargetIs(main, src[r], id);
    var more, fewer := Counted(d, strategy, rank, src, main, done + {r}), Counted(d, strategy, rank, src, main, done);
    if Verdict(strategy, rank, Coalesced(src[r]), main[id].f) == d {
      assert more == fewer + {r};
    } else {
      assert more == fewer;
    }
  }

  /** Every source row is either new or counted once. */
  lemma {:induction false} CountedPartition(strategy: Strategy, rank: Rank, src: map<int, SrcRow>,
                                            main: map<int, MainRow>,
                                            done: set<int>)
    requires done <= src.Keys
    ensures |Counted(Upgrade, strategy, rank, src, main, done)| + |Counted(SkipSame, strategy, rank, src, main, done)|
            + |Counted(SkipLower, strategy, rank, src, main, done)| + |done * Newcomers(main, src)| == |done|
  {
    var u, e := Counted(Upgrade, strategy, rank, src, main, done), Counted(SkipSame, strategy, rank, src, main, done);
    var l, n := Counted(SkipLower, strategy, rank, src, main, done), done * Newcomers(main, src);
    hide Conflicts, Verdict, Target;
    forall r | r in done ensures r in u + e + l + n {
      if Conflicts(main, src[r]) {
        match Verdict(strategy, rank, Coalesced(src[r]), main[Target(main, src[r])].f)
        case Upgrade => assert r in u;
        case SkipSame => assert r in e;
        case SkipLower => assert r in l;
      } else {
        assert r in n;
      }
    }
    assert done == u + e + l + n;
    assert u !! e && u !! l && u !! n && e !! l && e !! n && l !! n;
    FourParts(u, e, l, n);
  }

  lemma FourParts(a: set<int>, b: set<int>, c: set<int>, d: set<int>)
    requires a !! b && a !! c && a !! d && b !! c && b !! d && c !! d
    ensures |a + b + c + d| == |a| + |b| + |c| + |d|
  {
    assert (a + b) !! c && (a + b + c) !! d;
    assert |a + b| == |a| + |b|;
  }

  // ---- phase 1: conflicting rows ----

  /** The rows a phase-1 statement picks. */
  predicate Wanted(strategy: Strategy, s: Fields, m: Fields) {
    match strategy
    case Quality => s.content != m.content || s.createdAt > m.createdAt
    case Newer => s.createdAt > m.createdAt
    case InsertOnly => false
    case Force => true
  }

  /** Rows that are not picked would change nothing. */
  lemma UnwantedIsSame(strategy: Strategy, rank: Rank, s: Fields, m: Fields)
    requires !Wanted(strategy, s, m)
    ensures Verdict(strategy, rank, s, m) == SkipSame
  {
  }

  datatype Pair = Pair(id: int, r: int)

  /** The rows of a join, restricted to a range of target ids or of source row ids. */
  function Joined(strategy: Strategy, src: map<int, SrcRow>, main: map<int, MainRow>, drive: bool, lo: int,
                  hi: int): set<Pair> {
    set r, id | r in src && id in main && Match(main[id], src[r]) && lo < (if drive then id else r) <= hi
                && Wanted(strategy, Coalesced(src[r]), main[id].f) :: Pair(id, r)
  }

  ghost function Position(src: map<int, SrcRow>, main: map<int, MainRow>, drive: bool, r: int): int
    requires r in src && Conflicts(main, src[r])
  {
    if drive then Target(main, src[r]) else r
  }

  /** The picked rows whose position is at most `cur`. */
  ghost function Upto(strategy: Strategy, src: map<int, SrcRow>, main: map<int, MainRow>, drive: bool,
                      cur: int): set<int> {
    set r | r in src && Conflicts(main, src[r]) && Wanted(strategy, Coalesced(src[r]), main[Target(main, src[r])].f)
            && Position(src, main, drive, r) <= cur
  }

  ghost predicate RowsOf(q: seq<Pair>, r: int) { exists k :: 0 <= k < |q| && q[k].r == r }

  /** A listing of the next range of rows, in terms of the target as it was before the merge. */
  ghost predicate NextRange(q: seq<Pair>, src: map<int, SrcRow>, was: map<int, MainRow>, done: set<int>,
                            next: set<int>) {
    && (forall k | 0 <= k < |q| :: q[k].r in src && q[k].id in was && Match(was[q[k].id], src[q[k].r]))
    && (forall k | 0 <= k < |q| :: q[k].r !in done)
    && (forall j, k | 0 <= j < |q| && 0 <= k < |q| && j != k :: q[j].r != q[k].r)
    && next <= src.Keys && done <= src.Keys
    && (forall r | r in src :: r in next <==> r in done || RowsOf(q, r))
  }
}
