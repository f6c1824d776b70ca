/**
 The graph of stored filters (server/web/actions.go:80-190 follows its edges): there is a height,
 the measure by which CreateFilterChain terminates, exactly when the filter leads to no cycle.
 */
module FilterGraph {
  import opened Wrappers
  import opened Sets
  import opened OrderedQuery
  import opened Filters
  import opened FilterBuild

  type Graph = (string, string) -> bool

  ghost predicate Path(edge: Graph, p: seq<string>) {
    forall i | 0 <= i < |p| - 1 :: edge(p[i], p[i + 1])
  }

  /** No path from root comes back to where it has been. */
  ghost predicate AcyclicFrom(edge: Graph, root: string) {
    forall p | Path(edge, p) && p != [] && p[0] == root :: NoRepeats(p)
  }

  /** No path inside the set comes back to where it has been. */
  ghost predicate AcyclicIn(edge: Graph, s: set<string>) {
    forall p | Path(edge, p) && Elements(p) <= s :: NoRepeats(p)
  }

  /** An edge leads from a into the set. */
  ghost predicate Leads(edge: Graph, a: string, s: set<string>) {
    exists b :: b in s && edge(a, b)
  }

  lemma OneNode(edge: Graph, id: string)
    ensures Path(edge, [id]) && Elements([id]) == {id}
  {
  }

  lemma LastElement(q: seq<string>)
    requires q != []
    ensures q[|q| - 1] in Elements(q)
  {
  }

  lemma PathSnoc(edge: Graph, p: seq<string>, b: string)
    requires Path(edge, p) && p != [] && edge(p[|p| - 1], b)
    ensures Path(edge, p + [b])
  {
  }

  lemma OneStep(edge: Graph, s: set<string>, q: seq<string>) returns (p: seq<string>)
    requires q != [] && Path(edge, q) && Elements(q) <= s && Leads(edge, q[|q| - 1], s)
    ensures |p| == |q| + 1 && Path(edge, p) && Elements(p) <= s
  {
    hide Path, Elements;
    var b :| b in s && edge(q[|q| - 1], b);
    PathSnoc(edge, q, b);
    ElementsSnoc(q, b);
    p := q + [b];
  }

  /** A walk of n steps inside a set whose every member leads into it. */
  lemma {:induction false} Walk(edge: Graph, s: set<string>, n: nat) returns (p: seq<string>)
    requires s != {} && forall a | a in s :: Leads(edge, a, s)
    ensures |p| == n + 1 && Path(edge, p) && Elements(p) <= s
  {
    hide Path, Elements, Leads;
    if n == 0 {
      var id :| id in s;
      p := [id];
      OneNode(edge, id);
    } else {
      var q := Walk(edge, s, n - 1);
      LastElement(q);
      p := OneStep(edge, s, q);
    }
  }

  /** Not every member of a non-empty set leads into it: the walk would visit more nodes than it has. */
  lemma SinkExists(edge: Graph, s: set<string>) returns (sink: string)
    requires AcyclicIn(edge, s) && s != {}
    ensures sink in s && !Leads(edge, sink, s)
  {
    if forall a | a in s :: Leads(edge, a, s) {
      var p := Walk(edge, s, |s|);
      ElementsCount(p);
      SubsetCount(Elements(p), s);
    } else {
      sink :| sink in s && !Leads(edge, sink, s);
    }
  }

  /** Heights on a finite set: a sink has the lowest. */
  lemma {:induction false} Heights(edge: Graph, s: set<string>) returns (h: map<string, nat>)
    requires AcyclicIn(edge, s)
    ensures h.Keys == s && forall a, b | a in s && b in s && edge(a, b) :: h[b] < h[a]
    decreases |s|
  {
    if s == {} {
      h := map[];
    } else {
      var sink := SinkExists(edge, s);
      var rest := Heights(edge, s - {sink});
      h := map id | id in s :: if id == sink then 0 else rest[id] + 1;
      assert forall b | b in s :: !edge(sink, b);
    }
  }

  /** A row refers to the rows that its definition names. */
  ghost function References(env: Env, rows: Table): Graph {
    (a, b) => a in rows && Refers(env, rows[a], b)
  }

  /** Along a path from root every node but the last is a row with a height, and heights drop. */
  lemma {:induction false} HeightDrops(env: Env, rows: Table, height: string -> nat, p: seq<string>, i: nat)
    requires p != [] && Ranked(env, rows, height, p[0]) && Path(References(env, rows), p) && i < |p| - 1
    ensures p[i] in rows && height(p[i]) > 0 && height(p[i + 1]) < height(p[i])
  {
    assert References(env, rows)(p[i], p[i + 1]);
    if i > 0 {
      HeightDrops(env, rows, height, p, i - 1);
      assert References(env, rows)(p[i - 1], p[i]);
    }
  }

  lemma {:induction false} HeightsOrdered(env: Env, rows: Table, height: string -> nat, p: seq<string>, i: nat, j: nat)
    requires p != [] && Ranked(env, rows, height, p[0]) && Path(References(env, rows), p) && i < j < |p|
    ensures height(p[j]) < height(p[i])
  {
    HeightDrops(env, rows, height, p, j - 1);
    if i < j - 1 { HeightsOrdered(env, rows, height, p, i, j - 1); }
  }

  ghost predicate Reaches(edge: Graph, root: string, id: string) {
    exists p :: Path(edge, p) && p != [] && p[0] == root && p[|p| - 1] == id
  }

  lemma ReachesNext(edge: Graph, root: string, a: string, b: string)
    requires Reaches(edge, root, a) && edge(a, b)
    ensures Reaches(edge, root, b)
  {
    var p :| Path(edge, p) && p != [] && p[0] == root && p[|p| - 1] == a;
    assert Path(edge, p + [b]);
  }

  /** What root reaches is acyclic if every path from root is. */
  lemma ReachedAcyclic(edge: Graph, root: string, s: set<string>)
    requires AcyclicFrom(edge, root) && forall id | id in s :: Reaches(edge, root, id)
    ensures AcyclicIn(edge, s)
  {
    forall p | Path(edge, p) && Elements(p) <= s ensures NoRepeats(p) {
      if p != [] {
        assert p[0] in Elements(p);
        var q :| Path(edge, q) && q != [] && q[0] == root && q[|q| - 1] == p[0];
        var all := q + p[1..];
        assert forall i | 0 <= i < |p| :: all[|q| - 1 + i] == p[i];
        assert Path(edge, all);
      }
    }
  }

  lemma HeightExists(env: Env, rows: Table, root: string) returns (height: string -> nat)
    requires AcyclicFrom(References(env, rows), root)
    ensures Ranked(env, rows, height, root)
  {
    var edge := References(env, rows);
    var s := set id | id in rows && Reaches(edge, root, id);
    ReachedAcyclic(edge, root, s);
    var h := Heights(edge, s);
    height := id => if id in h then h[id] + 1 else 0;
    assert Path(edge, [root]) && [root][0] == root;
    forall id, ref | id in rows && height(id) > 0 && Refers(env, rows[id], ref)
      ensures height(ref) < height(id) && (ref in rows ==> height(ref) > 0)
    {
      assert edge(id, ref);
      ReachesNext(edge, root, id, ref);
    }
  }

  lemma HeightForbidsCycles(env: Env, rows: Table, height: string -> nat, root: string)
    requires Ranked(env, rows, height, root)
    ensures AcyclicFrom(References(env, rows), root)
  {
    forall p | Path(References(env, rows), p) && p != [] && p[0] == root ensures NoRepeats(p) {
      forall i, j | 0 <= i < j < |p| ensures p[i] != p[j] {
        HeightsOrdered(env, rows, height, p, i, j);
      }
    }
  }

  /** Building from root has a height to end by exactly when root leads to no cycle. */
  lemma AcyclicIffRanked(env: Env, rows: Table, root: string)
    ensures AcyclicFrom(References(env, rows), root)
            <==> exists height: string -> nat :: Ranked(env, rows, height, root)
  {
    if AcyclicFrom(References(env, rows), root) {
      var height := HeightExists(env, rows, root);
    }
    if height: string -> nat :| Ranked(env, rows, height, root) {
      HeightForbidsCycles(env, rows, height, root);
    }
  }

  /** The other case: a definition on a cycle means no tree at all. */
  lemma {:induction false} CycleHasNoMeaning(env: Env, rows: Table, p: seq<string>, t: Tree)
    requires Path(References(env, rows), p) && |p| >= 2 && p[0] == p[|p| - 1]
    ensures !Describes(env, rows, p[0], t)
    decreases t
  {
    if Describes(env, rows, p[0], t) {
      var row := rows[p[0]];
      var q := p[1..] + [p[1]];
      assert References(env, rows)(p[0], p[1]);
      forall i | 0 <= i < |q| - 1 ensures References(env, rows)(q[i], q[i + 1]) {
        if i < |q| - 2 {
          var k := i + 1;
          assert References(env, rows)(p[k], p[k + 1]);
        } else {
          assert q[i] == p[0] && q[i + 1] == p[1];
        }
      }
      if row.next == Some(p[1]) {
        CycleHasNoMeaning(env, rows, q, t.next.value);
      } else {
        var tag :| ChildAt(env, row, tag) == Some(p[1]);
        assert DescribesBranches(env, rows, row, t) && ChildAt(env, row, tag).Some?;
        CycleHasNoMeaning(env, rows, q, t.branches[tag]);
      }
    }
  }

  // ---- when the builder ends ---------------------------------------------------------

  /**
   CreateFilterChain for id, every call accepted, ends within n turns of its loop, those of the calls
   within each other counted: without a row it stops, otherwise what the row refers to is built next,
   its branches by further calls and its next by a further turn.
   */
  ghost predicate EndsWithin(env: Env, rows: Table, id: string, n: nat)
    decreases n
  {
    n > 0 && (id in rows ==> forall ref: string | Refers(env, rows[id], ref) :: EndsWithin(env, rows, ref, n - 1))
  }

  lemma {:induction false} EndsByHeight(env: Env, rows: Table, height: string -> nat, root: string, id: string, n: nat)
    requires Ranked(env, rows, height, root) && (id in rows ==> 0 < height(id)) && height(id) < n
    ensures EndsWithin(env, rows, id, n)
    decreases n
  {
    if id in rows {
      forall ref: string | Refers(env, rows[id], ref) ensures EndsWithin(env, rows, ref, n - 1) {
        EndsByHeight(env, rows, height, root, ref, n - 1);
      }
    }
  }

  /** The loop comes along every path. */
  lemma {:induction false} EndsAlong(env: Env, rows: Table, p: seq<string>, n: nat, i: nat)
    requires Path(References(env, rows), p) && i < |p| && EndsWithin(env, rows, p[0], n)
    ensures i < n && EndsWithin(env, rows, p[i], n - i)
  {
    if i > 0 {
      EndsAlong(env, rows, p, n, i - 1);
      assert References(env, rows)(p[i - 1], p[i]);
    }
  }

  /** From p[j], which is p[i], the loop goes round to p[j] again. */
  lemma {:induction false} CycleNeverEnds(env: Env, rows: Table, p: seq<string>, i: nat, j: nat, n: nat)
    requires Path(References(env, rows), p) && i < j < |p| && p[i] == p[j]
    ensures !EndsWithin(env, rows, p[i], n)
  {
    if EndsWithin(env, rows, p[i], n) {
      var round := p[i..];
      forall k | 0 <= k < |round| - 1 ensures References(env, rows)(round[k], round[k + 1]) {
        assert round[k] == p[i + k] && round[k + 1] == p[i + k + 1];
      }
      EndsAlong(env, rows, round, n, j - i);
      CycleNeverEnds(env, rows, p, i, j, n - (j - i));
    }
  }

  lemma EndsOnlyAcyclic(env: Env, rows: Table, root: string, n: nat)
    requires EndsWithin(env, rows, root, n)
    ensures AcyclicFrom(References(env, rows), root)
  {
    forall p | Path(References(env, rows), p) && p != [] && p[0] == root ensures NoRepeats(p) {
      forall i, j | 0 <= i < j < |p| ensures p[i] != p[j] {
        EndsAlong(env, rows, p, n, i);
        if p[i] == p[j] { CycleNeverEnds(env, rows, p, i, j, n - i); }
      }
    }
  }

  ghost predicate Ends(env: Env, rows: Table, id: string) {
    exists n: nat :: EndsWithin(env, rows, id, n)
  }

  /** With every call accepted CreateFilterChain ends exactly if the filter leads to no cycle. */
  lemma EndsIffAcyclic(env: Env, rows: Table, root: string)
    ensures Ends(env, rows, root) <==> AcyclicFrom(References(env, rows), root)
  {
    if AcyclicFrom(References(env, rows), root) {
      var height := HeightExists(env, rows, root);
      var n := height(root) + 1;
      EndsByHeight(env, rows, height, root, root, n);
      assert EndsWithin(env, rows, root, n);
    }
    forall n: nat | EndsWithin(env, rows, root, n) ensures AcyclicFrom(References(env, rows), root) {
      EndsOnlyAcyclic(env, rows, root, n);
    }
  }
}
