/** Cheapest paths through a grid of cells, computed forwards.

    A Graph says which operations may leave a cell and what they cost.  Cells are
    visited row by row, and every operation out of a reached cell relaxes a cell that
    comes later.  Costs are capped: a cell that cannot be reached for less than INF_COST
    counts as unreached. */
module GridPaths {
  const INF_COST := 1_000_000_000.0

  datatype Op = NoOp | Match(da: nat, dq: nat) | SkipApple | SkipQQ
  {
    function Da(): nat { match this case Match(da, _) => da case SkipApple => 1 case _ => 0 }
    function Dq(): nat { match this case Match(_, dq) => dq case SkipQQ => 1 case _ => 0 }
  }

  datatype Graph = Graph(rows: nat, cols: nat, ok: (int, int, Op) -> bool, cost: (int, int, Op) -> real)
  {
    ghost predicate Allowed(a: int, q: int, o: Op) {
      ok(a, q, o) && o.Da() + o.Dq() > 0 && 0 <= a && 0 <= q && a + o.Da() <= rows && q + o.Dq() <= cols
    }

    ghost predicate NonNegative() {
      forall a, q, o | Allowed(a, q, o) :: cost(a, q, o) >= 0.0
    }

    predicate InGrid(x: int, y: int) { 0 <= x <= rows && 0 <= y <= cols }
  }

  // ---- paths: the reference notion ------------------------------------------

  datatype Path = Start | Step(prev: Path, op: Op)
  {
    function EndA(): nat { if Start? then 0 else prev.EndA() + op.Da() }
    function EndQ(): nat { if Start? then 0 else prev.EndQ() + op.Dq() }
  }

  ghost predicate Legal(g: Graph, path: Path) {
    path.Start? || (Legal(g, path.prev) && g.Allowed(path.prev.EndA(), path.prev.EndQ(), path.op))
  }

  ghost function PathCost(g: Graph, path: Path): real {
    if path.Start? then 0.0
    else PathCost(g, path.prev) + g.cost(path.prev.EndA(), path.prev.EndQ(), path.op)
  }

  /** A legal path from the origin to the far corner. */
  ghost predicate Complete(g: Graph, path: Path) {
    Legal(g, path) && path.EndA() == g.rows && path.EndQ() == g.cols
  }

  ghost predicate Optimal(g: Graph, path: Path) {
    Complete(g, path) && forall other | Complete(g, other) :: PathCost(g, path) <= PathCost(g, other)
  }

  // ---- the table --------------------------------------------------------------

  datatype Edge = Edge(a: int, q: int, op: Op)

  predicate Upto(e: Edge, a: int, q: int) { e.a < a || (e.a == a && e.q <= q) }

  predicate Before(e: Edge, a: int, q: int) { e.a < a || (e.a == a && e.q < q) }

  /** Cost table and back-pointer table, cell by cell; the code keeps them in step. */
  datatype Cell = Cell(cost: real, op: Op)

  ghost predicate Shaped(g: Graph, t: array2<Cell>) {
    t.Length0 == g.rows + 1 && t.Length1 == g.cols + 1
  }

  /** A relaxed edge leaves a reached cell and its head costs no more than going through it. */
  ghost predicate Relaxed(g: Graph, t: array2<Cell>, e: Edge)
    requires Shaped(g, t)
    reads t
  {
    && g.Allowed(e.a, e.q, e.op)
    && t[e.a, e.q].cost < INF_COST
    && t[e.a + e.op.Da(), e.q + e.op.Dq()].cost <= t[e.a, e.q].cost + g.cost(e.a, e.q, e.op)
  }

  /** A cell is either unreached, the origin, or priced exactly by its back pointer. */
  ghost predicate Priced(g: Graph, t: array2<Cell>, done: set<Edge>, x: int, y: int)
    requires Shaped(g, t) && g.InGrid(x, y)
    reads t
  {
    var o := t[x, y].op;
    var a, q := x - o.Da(), y - o.Dq();
    if x == 0 && y == 0 then t[x, y] == Cell(0.0, NoOp)
    else if o == NoOp then t[x, y].cost == INF_COST
    else
      && Edge(a, q, o) in done && g.Allowed(a, q, o)
      && t[x, y].cost == t[a, q].cost + g.cost(a, q, o) < INF_COST
  }

  ghost predicate State(g: Graph, t: array2<Cell>, done: set<Edge>)
    reads t
  {
    && Shaped(g, t)
    && (forall e <- done :: Relaxed(g, t, e))
    && (forall x, y | g.InGrid(x, y) :: Priced(g, t, done, x, y))
  }

  /** Every allowed edge out of a reached cell before (a, q) has been relaxed. */
  ghost predicate Swept(g: Graph, t: array2<Cell>, done: set<Edge>, a: int, q: int)
    requires Shaped(g, t)
    reads t
  {
    forall e: Edge | Before(e, a, q) && g.Allowed(e.a, e.q, e.op) && t[e.a, e.q].cost < INF_COST :: e in done
  }

  /** Everything known while the cell (a, q) is being swept. */
  ghost predicate Sweeping(g: Graph, t: array2<Cell>, done: set<Edge>, a: int, q: int)
    reads t
  {
    && State(g, t, done) && g.InGrid(a, q) && t[a, q].cost < INF_COST
    && Swept(g, t, done, a, q) && forall e <- done :: Upto(e, a, q)
  }

  /** One `if c < dp[..]` update out of the cell (a, q) being swept. */
  method Relax(ghost g: Graph, t: array2<Cell>, ghost done: set<Edge>, a: int, q: int, o: Op, c: real)
    returns (ghost done': set<Edge>)
    requires Sweeping(g, t, done, a, q) && g.Allowed(a, q, o) && c == t[a, q].cost + g.cost(a, q, o)
    modifies t
    ensures done' == done + {Edge(a, q, o)}
    ensures Sweeping(g, t, done', a, q) && t[a, q] == old(t[a, q])
  {
    var x, y := a + o.Da(), q + o.Dq();
    if c < t[x, y].cost {
      t[x, y] := Cell(c, o);
    }
    done' := done + {Edge(a, q, o)};
    forall e <- done' ensures Relaxed(g, t, e) {
      hide Priced;
      if e in done {
        assert old(Relaxed(g, t, e)) && Upto(e, a, q);
        assert t[e.a, e.q] == old(t[e.a, e.q]);
      }
    }
    forall i, j | g.InGrid(i, j) ensures Priced(g, t, done', i, j) {
      hide Relaxed;
      assert old(Priced(g, t, done, i, j));
      var b := t[i, j].op;
      if t[i, j] == old(t[i, j]) && b != NoOp && (i, j) != (0, 0) {
        assert Upto(Edge(i - b.Da(), j - b.Dq(), b), a, q);
        assert t[i - b.Da(), j - b.Dq()] == old(t[i - b.Da(), j - b.Dq()]);
      }
    }
    assert State(g, t, done') by {
      hide Priced, Relaxed;
    }
    assert Swept(g, t, done', a, q) by {
      hide Priced, Relaxed;
    }
    assert Sweeping(g, t, done', a, q) by {
      hide Priced, Relaxed, State, Swept;
    }
  }

  /** A cell is swept once every operation out of it has been relaxed. */
  lemma CellSwept(g: Graph, t: array2<Cell>, done: set<Edge>, a: int, q: int)
    requires Sweeping(g, t, done, a, q) && forall o | g.Allowed(a, q, o) :: Edge(a, q, o) in done
    ensures Swept(g, t, done, a, q + 1) && forall e <- done :: Before(e, a, q + 1)
  {
    forall e: Edge | Before(e, a, q + 1) && g.Allowed(e.a, e.q, e.op) && t[e.a, e.q].cost < INF_COST ensures e in done {
      assert Before(e, a, q) || e == Edge(a, q, e.op);
    }
  }

  // ---- optimality -------------------------------------------------------------

  /** No path beats the finished table. */
  lemma {:induction false} TableIsLowerBound(g: Graph, t: array2<Cell>, done: set<Edge>, path: Path)
    requires g.NonNegative() && State(g, t, done) && Swept(g, t, done, g.rows + 1, 0) && Legal(g, path)
    ensures g.InGrid(path.EndA(), path.EndQ())
    ensures t[path.EndA(), path.EndQ()].cost <= PathCost(g, path)
  {
    if path.Step? {
      var a, q := path.prev.EndA(), path.prev.EndQ();
      TableIsLowerBound(g, t, done, path.prev);
      assert Priced(g, t, done, a, q) && Priced(g, t, done, path.EndA(), path.EndQ());
      if t[a, q].cost < INF_COST {
        assert Before(Edge(a, q, path.op), g.rows + 1, 0);
        assert Relaxed(g, t, Edge(a, q, path.op));
      }
    } else {
      assert Priced(g, t, done, 0, 0);
    }
  }

  /** The path the back pointers spell out; it costs exactly what the table says. */
  ghost function PathTo(g: Graph, t: array2<Cell>, done: set<Edge>, x: int, y: int): (path: Path)
    requires State(g, t, done) && g.InGrid(x, y) && t[x, y].cost < INF_COST
    reads t
    ensures Legal(g, path) && path.EndA() == x && path.EndQ() == y && PathCost(g, path) == t[x, y].cost
    decreases x + y
  {
    assert Priced(g, t, done, x, y);
    if x == 0 && y == 0 then Start
    else
      var o := t[x, y].op;
      assert Relaxed(g, t, Edge(x - o.Da(), y - o.Dq(), o));
      Step(PathTo(g, t, done, x - o.Da(), y - o.Dq()), o)
  }
}
