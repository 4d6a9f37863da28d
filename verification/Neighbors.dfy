/**
  The bounded breadth-first traversal of a published code graph: a node budget,
  a cap of 1000 inspected rows and an `incomplete` mark whose meaning is exact.
*/
module Neighbors {
  import opened Prelude
  import opened Distances

  datatype Node = Node(path: string, line: nat)
  datatype Edge = Edge(source: Id, relation: string, target: Option<Id>)

  /** The rows of one snapshot. */
  datatype Graph = Graph(nodes: map<Id, Node>, edges: seq<Edge>)

  /** A traversal's fixed arguments. */
  datatype Query = Query(graph: Graph, direction: string, relations: seq<string>)

  const ROW_CAP := 1000

  /* ---------- the SQL query ---------- */

  predicate TextLeq(a: string, b: string) {
    a == "" || (b != "" && (a[0] < b[0] || (a[0] == b[0] && TextLeq(a[1..], b[1..]))))
  }

  /** ORDER BY n.path, n.start_line, n.node_id */
  predicate RowLeq(nodes: map<Id, Node>, a: Id, b: Id)
    requires a in nodes && b in nodes
  {
    var x, y := nodes[a], nodes[b];
    if x.path != y.path then TextLeq(x.path, y.path)
    else if x.line != y.line then x.line < y.line
    else TextLeq(a, b)
  }

  /** The joined node of one edge row seen from `origin`, if the row matches. */
  function Other(q: Query, e: Edge, origin: Id, inbound: bool): Option<Id> {
    if e.relation !in q.relations then None
    else if inbound then
      if e.target == Some(origin) && e.source in q.graph.nodes then Some(e.source) else None
    else
      if e.source == origin && e.target.Some? && e.target.value in q.graph.nodes then e.target else None
  }

  function Matching(q: Query, edges: seq<Edge>, origin: Id, inbound: bool): (ids: seq<Id>)
    ensures forall x :: x in ids ==> x in q.graph.nodes
    ensures forall x :: x in ids <==> exists e :: e in edges && Other(q, e, origin, inbound) == Some(x)
  {
    if edges == [] then []
    else
      var rest := Matching(q, edges[1..], origin, inbound);
      match Other(q, edges[0], origin, inbound)
      case None => rest
      case Some(x) => [x] + rest
  }

  function Insert(nodes: map<Id, Node>, x: Id, sorted: seq<Id>): (r: seq<Id>)
    requires x in nodes && forall y :: y in sorted ==> y in nodes
    ensures |r| == |sorted| + 1 && forall y :: y in r <==> y == x || y in sorted
  {
    if sorted == [] || RowLeq(nodes, x, sorted[0]) then [x] + sorted
    else [sorted[0]] + Insert(nodes, x, sorted[1..])
  }

  function Sort(nodes: map<Id, Node>, ids: seq<Id>): (r: seq<Id>)
    requires forall y :: y in ids ==> y in nodes
    ensures |r| == |ids| && forall y :: y in r <==> y in ids
  {
    if ids == [] then [] else Insert(nodes, ids[0], Sort(nodes, ids[1..]))
  }

  /** All matching rows of one node and column, in query order; one row per edge, repeats included. */
  function Rows(q: Query, origin: Id, inbound: bool): (r: seq<Id>)
    ensures forall y :: y in r ==> y in q.graph.nodes
  {
    Sort(q.graph.nodes, Matching(q, q.graph.edges, origin, inbound))
  }

  function Limited<T>(rows: seq<T>, limit: nat): seq<T> {
    if |rows| <= limit then rows else rows[..limit]
  }

  /** The columns scanned for a direction, in order. */
  function Columns(direction: string): seq<bool> {
    if direction == "outbound" then [false] else if direction == "both" then [false, true] else [true]
  }

  /* ---------- the graph as a net ---------- */

  ghost function SuccessorsIn(q: Query, a: Id, columns: seq<bool>): set<Id> {
    if columns == [] then {}
    else SuccessorsIn(q, a, columns[..|columns| - 1]) + Elements(Rows(q, a, columns[|columns| - 1]))
  }

  ghost function Successors(q: Query, a: Id): set<Id> { SuccessorsIn(q, a, Columns(q.direction)) }

  predicate Links(q: Query, e: Edge, a: Id, b: Id) {
    && e.relation in q.relations
    && (|| (q.direction != "inbound" && e.source == a && e.target == Some(b))
        || (q.direction != "outbound" && e.target == Some(a) && e.source == b))
  }

  lemma OneColumn(q: Query, a: Id, c: bool)
    ensures SuccessorsIn(q, a, [c]) == Elements(Rows(q, a, c))
  {
    assert [c][..0] == [];
  }

  lemma BothColumns(q: Query, a: Id)
    ensures SuccessorsIn(q, a, [false, true]) == Elements(Rows(q, a, false)) + Elements(Rows(q, a, true))
  {
    assert [false, true][..1] == [false];
    OneColumn(q, a, false);
  }

  lemma RowsMean(q: Query, a: Id, b: Id, inbound: bool)
    ensures b in Rows(q, a, inbound) <==> exists e :: e in q.graph.edges && Other(q, e, a, inbound) == Some(b)
  {
  }

  /** A successor is at the other end of an edge of an allowed relation, followed in an allowed direction. */
  lemma SuccessorMeans(q: Query, a: Id, b: Id)
    requires q.direction in {"outbound", "inbound", "both"}
    ensures b in Successors(q, a) <==> b in q.graph.nodes && exists e :: e in q.graph.edges && Links(q, e, a, b)
  {
    RowsMean(q, a, b, false);
    RowsMean(q, a, b, true);
    OneColumn(q, a, false);
    OneColumn(q, a, true);
    BothColumns(q, a);
    forall e | e in q.graph.edges && b in q.graph.nodes
      ensures e.relation in q.relations && e.source == a && e.target == Some(b) <==> Other(q, e, a, false) == Some(b)
      ensures e.relation in q.relations && e.target == Some(a) && e.source == b <==> Other(q, e, a, true) == Some(b)
    {
    }
  }

  function ColumnCount(q: Query, a: Id, columns: seq<bool>): nat {
    if columns == [] then 0
    else ColumnCount(q, a, columns[..|columns| - 1]) + |Rows(q, a, columns[|columns| - 1])|
  }

  /** Rows a full expansion of `a` inspects. */
  function RowCount(q: Query, a: Id): nat { ColumnCount(q, a, Columns(q.direction)) }

  ghost function NetOf(q: Query): Net {
    Net(a => Successors(q, a),
        s => (set b | b in q.graph.nodes && exists a :: a in s && b in Successors(q, a)),
        a => RowCount(q, a))
  }

  lemma {:induction false} SuccessorsAreNodes(q: Query, a: Id, columns: seq<bool>)
    ensures SuccessorsIn(q, a, columns) <= q.graph.nodes.Keys
  {
    if columns != [] {
      SuccessorsAreNodes(q, a, columns[..|columns| - 1]);
    }
  }

  ghost predicate Models(n: Net, q: Query) {
    Consistent(n) && forall a :: n.succ(a) == Successors(q, a) && n.cost(a) == RowCount(q, a)
  }

  lemma NetModels(q: Query)
    ensures Models(NetOf(q), q)
  {
    forall a ensures Successors(q, a) <= q.graph.nodes.Keys {
      SuccessorsAreNodes(q, a, Columns(q.direction));
    }
  }

  lemma {:induction false} ColumnPrefix(q: Query, a: Id, columns: seq<bool>, i: nat)
    requires i <= |columns|
    ensures ColumnCount(q, a, columns[..i]) <= ColumnCount(q, a, columns)
    ensures SuccessorsIn(q, a, columns[..i]) <= SuccessorsIn(q, a, columns)
    decreases |columns|
  {
    if i == |columns| {
      assert columns[..i] == columns;
    } else {
      assert columns[..|columns| - 1][..i] == columns[..i];
      ColumnPrefix(q, a, columns[..|columns| - 1], i);
    }
  }

  /* ---------- the loops ---------- */

  /** Why a scan of `rows` may have stopped early. */
  ghost predicate Stopped(w0: Walk, w: Walk, rows: seq<Id>, budget: nat) {
    || (ROW_CAP < w.inspected <= w0.inspected + |rows|)
    || (|w.items| == budget && exists x :: x in rows && x !in w.visited)
  }

  /** One result set: the innermost loop. */
  method Scan(rows: seq<Id>, w0: Walk, budget: nat) returns (w: Walk, ghost added: seq<Id>)
    requires !w0.limited && w0.inspected <= ROW_CAP && |w0.items| <= budget
    ensures Appended(w0, w, added) && |w.items| <= budget
    ensures Elements(added) <= Elements(rows)
    ensures !w.limited ==> Elements(rows) <= w.visited && w.inspected == w0.inspected + |rows| <= ROW_CAP
    ensures w.limited ==> Stopped(w0, w, rows, budget)
  {
    w := w0;
    added := [];
    var i := 0;
    while i < |rows|
      invariant 0 <= i <= |rows| && !w.limited
      invariant Appended(w0, w, added) && |w.items| <= budget
      invariant Elements(added) <= Elements(rows[..i]) <= w.visited
      invariant w.inspected == w0.inspected + i <= ROW_CAP
    {
      var row := rows[i];
      assert rows[..i + 1] == rows[..i] + [row];
      w := w.(inspected := w.inspected + 1);
      if w.inspected > ROW_CAP {
        w := w.(limited := true);
        return;
      }
      if row !in w.visited {
        if |w.items| >= budget {
          w := w.(limited := true);
          return;
        }
        w := w.(visited := w.visited + {row}, following := w.following + [row], items := w.items + [row]);
        added := added + [row];
      }
      i := i + 1;
    }
    assert rows[..i] == rows;
  }

  /** The neighbours of one node: one query per column, each with the LIMIT left over. */
  method Expand(q: Query, source: Id, w0: Walk, budget: nat) returns (w: Walk, ghost added: seq<Id>)
    requires !w0.limited && w0.inspected <= ROW_CAP && |w0.items| <= budget
    ensures Appended(w0, w, added) && |w.items| <= budget
    ensures Elements(added) <= Successors(q, source)
    ensures !w.limited ==> w.inspected == w0.inspected + RowCount(q, source) <= ROW_CAP
    ensures !w.limited ==> Successors(q, source) <= w.visited
    ensures w.limited ==>
      || ROW_CAP < w.inspected <= w0.inspected + RowCount(q, source)
      || (|w.items| == budget && exists b :: b in Successors(q, source) && b !in w.visited)
  {
    var columns := Columns(q.direction);
    w, added := w0, [];
    var i := 0;
    while i < |columns|
      invariant 0 <= i <= |columns| && !w.limited
      invariant Appended(w0, w, added) && |w.items| <= budget
      invariant Elements(added) <= SuccessorsIn(q, source, columns[..i]) <= w.visited
      invariant w.inspected == w0.inspected + ColumnCount(q, source, columns[..i]) <= ROW_CAP
    {
      var all := Rows(q, source, columns[i]);
      assert columns[..i + 1][..i] == columns[..i];
      ColumnPrefix(q, source, columns, i);
      ColumnPrefix(q, source, columns, i + 1);
      ghost var w1, more := w, [];
      w, more := ScanLimited(all, w, budget);
      AppendedTwice(w0, w1, w, added, more);
      added := added + more;
      if w.limited {
        return;
      }
      i := i + 1;
    }
    assert columns[..i] == columns;
  }

  /** The query with its LIMIT: a truncated result always reaches the cap. */
  method ScanLimited(all: seq<Id>, w0: Walk, budget: nat) returns (w: Walk, ghost added: seq<Id>)
    requires !w0.limited && w0.inspected <= ROW_CAP && |w0.items| <= budget
    ensures Appended(w0, w, added) && |w.items| <= budget
    ensures Elements(added) <= Elements(all)
    ensures !w.limited ==> Elements(all) <= w.visited && w.inspected == w0.inspected + |all| <= ROW_CAP
    ensures w.limited ==> Stopped(w0, w, all, budget)
  {
    var rows := Limited(all, ROW_CAP + 1 - w0.inspected);
    assert forall x :: x in rows ==> x in all;
    w, added := Scan(rows, w0, budget);
  }

  lemma TotalOfPrefix(n: Net, frontier: seq<Id>, i: nat)
    requires Distinct(frontier) && i < |frontier|
    ensures Total(n, Elements(frontier[..i + 1])) == Total(n, Elements(frontier[..i])) + n.cost(frontier[i])
    ensures Total(n, Elements(frontier[..i + 1])) <= Total(n, Elements(frontier))
  {
    assert frontier[i] !in frontier[..i];
    assert Elements(frontier[..i + 1]) == Elements(frontier[..i]) + {frontier[i]};
    TotalAdds(n, Elements(frontier[..i]), frontier[i]);
    TotalGrows(n, Elements(frontier[..i + 1]), Elements(frontier));
  }

  lemma FromOneMore(n: Net, frontier: seq<Id>, i: nat, added: seq<Id>, more: seq<Id>)
    requires i < |frontier| && FromFrontier(n, frontier, added) && Elements(more) <= n.succ(frontier[i])
    ensures FromFrontier(n, frontier, added + more)
  {
    forall b | b in added + more ensures exists a :: a in frontier && b in n.succ(a) {
      if b !in added {
        assert b in Elements(more) && frontier[i] in frontier;
      }
    }
  }

  /** All nodes of one level. */
  method Level(q: Query, ghost n: Net, frontier: seq<Id>, w0: Walk, budget: nat) returns (w: Walk, ghost added: seq<Id>)
    requires Models(n, q)
    requires !w0.limited && w0.inspected <= ROW_CAP && |w0.items| <= budget && Distinct(frontier)
    ensures Appended(w0, w, added) && |w.items| <= budget
    ensures FromFrontier(n, frontier, added)
    ensures !w.limited ==> w.inspected == w0.inspected + Total(n, Elements(frontier)) <= ROW_CAP
    ensures !w.limited ==> !Missed(n, frontier, w.visited)
    ensures w.limited ==>
      || ROW_CAP < w.inspected <= w0.inspected + Total(n, Elements(frontier))
      || (|w.items| == budget && Missed(n, frontier, w.visited))
  {
    w, added := w0, [];
    var i := 0;
    while i < |frontier|
      invariant 0 <= i <= |frontier| && !w.limited
      invariant Appended(w0, w, added) && |w.items| <= budget
      invariant FromFrontier(n, frontier, added)
      invariant w.inspected == w0.inspected + Total(n, Elements(frontier[..i])) <= ROW_CAP
      invariant forall j :: 0 <= j < i ==> n.succ(frontier[j]) <= w.visited
    {
      TotalOfPrefix(n, frontier, i);
      ghost var w1, more := w, [];
      w, more := Expand(q, frontier[i], w, budget);
      AppendedTwice(w0, w1, w, added, more);
      FromOneMore(n, frontier, i, added, more);
      added := added + more;
      if w.limited {
        return;
      }
      i := i + 1;
    }
    assert frontier[..i] == frontier;
  }

  /* ---------- get_neighbors ---------- */

  datatype Answer = Answer(items: seq<Id>, error: Option<string>, incomplete: bool)

  const DIRECTIONS := {"outbound", "inbound", "both"}
  const RELATIONS := {"contains", "calls", "imports", "inherits", "tested_by"}

  /** The argument checks of get_neighbors, in order; `inScope` is the outcome of the scope check. */
  function Rejected(q: Query, inScope: bool, seed: Id, depth: int, budget: int): Option<string> {
    if !inScope then Some("scope_mismatch")
    else if q.direction !in DIRECTIONS || !(1 <= depth <= 3) || !(1 <= budget <= 200) then Some("invalid_arguments")
    else if q.relations == [] || exists r | r in q.relations :: r !in RELATIONS then Some("relation_not_available")
    else if seed !in q.graph.nodes then Some("source_not_found")
    else None
  }

  /** One turn of the outer loop: the next distance, or the final answer when cut short. */
  method NextLevel(q: Query, ghost n: Net, ghost seed: Id, ghost k: nat, ghost depth: nat, w0: Walk, frontier: seq<Id>, budget: nat)
    returns (w: Walk)
    requires n == NetOf(q) && k < depth && Complete(n, seed, k, w0, frontier)
    requires |w0.items| <= budget && w0.inspected <= ROW_CAP
    ensures w.limited ==> Correct(n, seed, depth, budget, ROW_CAP, w.items, true)
    ensures !w.limited ==>
      Complete(n, seed, k + 1, w, w.following) && |w.items| <= budget && w.inspected <= ROW_CAP
  {
    NetModels(q);
    NextLevelStarts(n, seed, k, w0, frontier);
    ghost var added;
    w, added := Level(q, n, frontier, w0.(following := []), budget);
    if w.limited {
      CutShortIsIncomplete(n, seed, k, depth, budget, ROW_CAP, w0.(following := []), frontier, w, added);
    } else {
      LevelCompletes(n, seed, k, w0.(following := []), frontier, w, added);
    }
  }

  /** The outer loop over distances. */
  method Traverse(q: Query, ghost n: Net, seed: Id, depth: nat, budget: nat) returns (items: seq<Id>, incomplete: bool)
    requires n == NetOf(q) && depth >= 1
    ensures Correct(n, seed, depth, budget, ROW_CAP, items, incomplete)
  {
    var w := Walk({seed}, [], [], 0, false);
    var frontier := [seed];
    var k := 0;
    StartIsComplete(n, seed);
    while k < depth
      invariant 0 <= k <= depth && Complete(n, seed, k, w, frontier)
      invariant |w.items| <= budget && w.inspected <= ROW_CAP
    {
      w := NextLevel(q, n, seed, k, depth, w, frontier, budget);
      if w.limited {
        return w.items, true;
      }
      frontier := w.following;
      k := k + 1;
      if frontier == [] {
        break;
      }
    }
    FinishedIsCorrect(n, seed, k, depth, budget, ROW_CAP, w, frontier);
    items, incomplete := w.items, false;
  }

  method GetNeighbors(q: Query, inScope: bool, seed: Id, depth: int, budget: int) returns (r: Answer)
    ensures match Rejected(q, inScope, seed, depth, budget)
      case Some(error) => r == Answer([], Some(error), false)
      case None => r.error == None && Correct(NetOf(q), seed, depth, budget, ROW_CAP, r.items, r.incomplete)
  {
    var rejected := Rejected(q, inScope, seed, depth, budget);
    if rejected.Some? {
      return Answer([], rejected, false);
    }
    var items, incomplete := Traverse(q, NetOf(q), seed, depth, budget);
    r := Answer(items, None, incomplete);
  }
}
