/** Judging conflicting rows, in parallel
    (internal/storage/merger.go, evaluateQualityConflictsParallel and evaluateSingleCandidate). */
module Evaluation {

  type Blob = string

  /** What DetectLyricsQuality makes of a blob; the detection itself is left abstract. */
  type Rank = Blob -> nat

  /** The columns that travel from one row to another. */
  datatype Fields = Fields(content: Blob, isrc: string, platformId: string, title: string, artist: string,
                           durationMs: int, createdAt: int)

  datatype Decision = SkipSame | Upgrade | SkipLower

  /** A target row and the source row that conflicts with it. */
  datatype Candidate = Candidate(targetID: int, target: Fields, source: Fields, decision: Decision)

  /** The better of two rows: higher quality, then later; the target on ties. */
  predicate Better(rank: Rank, s: Fields, m: Fields) {
    rank(s.content) > rank(m.content) || (rank(s.content) == rank(m.content) && s.createdAt > m.createdAt)
  }

  function Decide(rank: Rank, s: Fields, m: Fields): Decision {
    if s.content == m.content then if s.createdAt > m.createdAt then Upgrade else SkipSame
    else if rank(s.content) > rank(m.content) then Upgrade
    else if rank(s.content) == rank(m.content) then if s.createdAt > m.createdAt then Upgrade else SkipSame
    else SkipLower
  }

  /** The decision tree is the lexicographic comparison of quality and age. */
  lemma DecideIsBetter(rank: Rank, s: Fields, m: Fields)
    ensures Decide(rank, s, m) == Upgrade <==> Better(rank, s, m)
    ensures Decide(rank, s, m) == SkipLower <==> rank(s.content) < rank(m.content)
  {
  }

  function Judged(rank: Rank, c: Candidate): Candidate { c.(decision := Decide(rank, c.source, c.target)) }

  method EvaluateOne(rank: Rank, a: array<Candidate>, i: nat)
    requires i < a.Length
    modifies a
    ensures a[..] == old(a[..])[i := Judged(rank, old(a[i]))]
  {
    a[i] := a[i].(decision := Decide(rank, a[i].source, a[i].target));
  }

  /** A worker's share of the candidates: those from `pos` to `end` are still to be judged. */
  datatype Worker = Worker(start: nat, end: nat, pos: nat)

  /** Consecutive shares that cover everything up to `upto`. */
  ghost predicate Shares(workers: seq<Worker>, upto: nat) {
    && (forall w | 0 <= w < |workers| :: workers[w].start <= workers[w].pos <= workers[w].end)
    && (forall w | 0 < w < |workers| :: workers[w - 1].end == workers[w].start)
    && (if workers == [] then upto == 0 else workers[0].start == 0 && workers[|workers| - 1].end == upto)
  }

  lemma {:induction false} SharesApart(workers: seq<Worker>, upto: nat, v: nat, w: nat)
    requires Shares(workers, upto) && v < w < |workers|
    ensures workers[v].end <= workers[w].start
    decreases w - v
  {
    if v + 1 < w { SharesApart(workers, upto, v, w - 1); }
  }

  lemma {:induction false} SharesCover(workers: seq<Worker>, upto: nat, i: nat) returns (w: nat)
    requires Shares(workers, upto) && i < upto
    ensures w < |workers| && workers[w].start <= i < workers[w].end
  {
    w := |workers| - 1;
    while workers[w].start > i
      invariant w < |workers| && i < workers[w].end
      decreases w
    {
      w := w - 1;
    }
  }

  /** Candidate `i` has been judged by the worker it belongs to. */
  ghost predicate Done(workers: seq<Worker>, i: nat) {
    exists w :: 0 <= w < |workers| && workers[w].start <= i < workers[w].pos
  }

  function Advance(workers: seq<Worker>, w: nat): seq<Worker>
    requires w < |workers|
  {
    workers[w := workers[w].(pos := workers[w].pos + 1)]
  }

  /** One step of one goroutine judges exactly one more candidate, which nobody else had judged. */
  lemma {:induction false} AdvanceDoes(team: seq<Worker>, n: nat, w: nat)
    requires Shares(team, n) && w < |team| && team[w].pos < team[w].end
    ensures Shares(Advance(team, w), n)
    ensures team[w].pos < n && !Done(team, team[w].pos)
    ensures forall k | 0 <= k < n :: Done(Advance(team, w), k) <==> Done(team, k) || k == team[w].pos
  {
    NotDone(team, n, w);
    var after, i := Advance(team, w), team[w].pos;
    forall k | 0 <= k < n ensures Done(after, k) <==> Done(team, k) || k == i {
      if Done(team, k) {
        var v :| 0 <= v < |team| && team[v].start <= k < team[v].pos;
        assert after[v].start <= k < after[v].pos;
      }
      assert after[w].start <= i < after[w].pos;
    }
  }

  lemma {:induction false} AllDone(team: seq<Worker>, n: nat)
    requires Shares(team, n)
    requires forall w | 0 <= w < |team| :: team[w].pos == team[w].end
    ensures forall i | 0 <= i < n :: Done(team, i)
  {
    forall i | 0 <= i < n ensures Done(team, i) {
      var w := SharesCover(team, n, i);
      assert team[w].start <= i < team[w].pos;
    }
  }

  lemma NoneDone(team: seq<Worker>)
    requires forall w | 0 <= w < |team| :: team[w].pos == team[w].start
    ensures forall i :: !Done(team, i)
  {
  }

  method EvaluateInTurn(rank: Rank, a: array<Candidate>)
    modifies a
    ensures forall i | 0 <= i < a.Length :: a[i] == Judged(rank, old(a[i]))
  {
    for i := 0 to a.Length
      invariant forall k | 0 <= k < a.Length :: a[k] == if k < i then Judged(rank, old(a[k])) else old(a[k])
    {
      EvaluateOne(rank, a, i);
    }
  }

  /** Splits the candidates into equal shares and lets one goroutine judge each share.  The goroutines
      take their steps in any order at all. */
  method EvaluateParallel(rank: Rank, a: array<Candidate>, limit: int)
    modifies a
    ensures forall i | 0 <= i < a.Length :: a[i] == Judged(rank, old(a[i]))
  {
    var n := a.Length;
    if n < 64 || limit <= 1 {
      EvaluateInTurn(rank, a);
      return;
    }
    var team := Split(n, if limit > n then n else limit);
    NoneDone(team);
    TeamShares(team, n);
    ghost var was := a[..];
    hide Shares, Done, Judged, Advance, Remaining;
    while exists w :: 0 <= w < |team| && team[w].pos < team[w].end
      invariant Shares(team, n)
      invariant forall w | 0 <= w < |team| :: team[w].pos <= team[w].end
      invariant forall i | 0 <= i < n :: a[i] == if Done(team, i) then Judged(rank, was[i]) else was[i]
      decreases Remaining(team)
    {
      var w :| 0 <= w < |team| && team[w].pos < team[w].end;
      var next := Advance(team, w);
      AdvanceDoes(team, n, w);
      RemainingDrops(team, w);
      TeamShares(next, n);
      EvaluateOne(rank, a, team[w].pos);
      team := next;
    }
    AllDone(team, n);
  }

  lemma TeamShares(team: seq<Worker>, n: nat)
    requires Shares(team, n)
    ensures forall w | 0 <= w < |team| :: team[w].pos <= team[w].end
  {
  }

  function Remaining(workers: seq<Worker>): int {
    if workers == [] then 0
    else Remaining(workers[..|workers| - 1])
         + (var last := workers[|workers| - 1]; if last.pos < last.end then last.end - last.pos else 0)
  }

  lemma {:induction false} RemainingDrops(workers: seq<Worker>, w: nat)
    requires w < |workers| && workers[w].pos < workers[w].end
    ensures 0 <= Remaining(Advance(workers, w)) < Remaining(workers)
  {
    var after := Advance(workers, w);
    RemainingNatural(after);
    RemainingNatural(workers[..|workers| - 1]);
    if w == |workers| - 1 {
      assert after[..|after| - 1] == workers[..|workers| - 1];
    } else {
      RemainingDrops(workers[..|workers| - 1], w);
      assert after[..|after| - 1] == Advance(workers[..|workers| - 1], w);
    }
  }

  lemma {:induction false} RemainingNatural(workers: seq<Worker>)
    ensures Remaining(workers) >= 0
  {
    if workers != [] { RemainingNatural(workers[..|workers| - 1]); }
  }

  lemma NotDone(workers: seq<Worker>, n: nat, w: nat)
    requires Shares(workers, n) && w < |workers| && workers[w].pos < workers[w].end
    ensures !Done(workers, workers[w].pos) && workers[w].pos < n
  {
    if Done(workers, workers[w].pos) {
      var v :| 0 <= v < |workers| && workers[v].start <= workers[w].pos < workers[v].pos;
      if v < w { SharesApart(workers, n, v, w); } else if w < v { SharesApart(workers, n, w, v); }
    }
    if w < |workers| - 1 { SharesApart(workers, n, w, |workers| - 1); }
  }

  lemma {:induction false} SharesSnoc(team: seq<Worker>, upto: nat, end: nat)
    requires Shares(team, upto) && upto <= end
    ensures Shares(team + [Worker(upto, end, upto)], end)
  {
    var longer := team + [Worker(upto, end, upto)];
    forall w | 0 < w < |longer| ensures longer[w - 1].end == longer[w].start {
      if w < |team| { assert team[w - 1].end == team[w].start; }
    }
  }

  /** Whole chunks reach the end: the chunk size is rounded up. */
  lemma ChunkCovers(n: nat, workers: nat)
    requires 1 <= workers
    ensures workers * ((n + workers - 1) / workers) >= n
  {
    var chunk := (n + workers - 1) / workers;
    assert n + workers - 1 == workers * chunk + (n + workers - 1) % workers;
  }

  lemma NoShares()
    ensures Shares([], 0)
  {
  }

  lemma NextMultiple(w: nat, chunk: nat)
    ensures (w + 1) * chunk == w * chunk + chunk
  {
  }

  /** Shares of the same size, the last one possibly shorter. */
  method Split(n: nat, workers: nat) returns (team: seq<Worker>)
    requires 1 <= workers <= n
    ensures Shares(team, n) && forall w | 0 <= w < |team| :: team[w].pos == team[w].start
  {
    hide *;
    var chunk := (n + workers - 1) / workers;
    ChunkCovers(n, workers);
    team := [];
    var w, start := 0, 0;
    NoShares();
    while w < workers && start < n
      invariant 0 <= w <= workers && 0 <= start == w * chunk
      invariant Shares(team, if start < n then start else n)
      invariant forall v | 0 <= v < |team| :: team[v].pos == team[v].start
    {
      var end := if start + chunk > n then n else start + chunk;
      SharesSnoc(team, start, end);
      team := team + [Worker(start, end, start)];
      NextMultiple(w, chunk);
      w, start := w + 1, start + chunk;
    }
  }
}
