/**
 The prerequisite graph of the quest table and the topological sort that
 `validate_quests` runs over it (src/model.rs).
 */
module QuestGraph {
  import opened Common

  /** A quest id to its prerequisite quest ids, in declaration order. */
  type Graph = map<string, seq<string>>

  /** What the per-quest checks establish before the sort starts. */
  ghost predicate WellFormed(g: Graph) {
    forall q {:trigger Listed(g, q)} :: q in g ==> Listed(g, q)
  }

  /** The prerequisites of `q` are distinct, exist, and are not `q` itself. */
  ghost predicate Listed(g: Graph, q: string)
    requires q in g
  {
    Distinct(g[q]) && q !in g[q] && Elements(g[q]) <= g.Keys
  }

  /** `w` follows prerequisites: each quest requires the next one. */
  ghost predicate Walk(g: Graph, w: seq<string>) {
    && (forall i :: 0 <= i < |w| ==> w[i] in g)
    && (forall i, j :: 0 <= i < |w| && j == i + 1 < |w| ==> w[j] in g[w[i]])
  }

  ghost predicate Cycle(g: Graph, w: seq<string>) {
    Walk(g, w) && |w| >= 2 && w[0] == w[|w| - 1]
  }

  ghost predicate Acyclic(g: Graph) {
    forall w :: !Cycle(g, w)
  }

  // ---------- a full ordering rules out cycles ----------

  /** Every quest of `order` comes after all of its prerequisites. */
  ghost predicate Topological(g: Graph, order: seq<string>) {
    && Distinct(order)
    && forall i, p :: 0 <= i < |order| && order[i] in g && p in g[order[i]] ==> p in order[..i]
  }

  lemma {:induction false} WalkDescends(g: Graph, order: seq<string>, w: seq<string>, i: nat)
    requires Topological(g, order) && Walk(g, w) && |w| >= 2
    requires i < |order| && order[i] == w[0]
    ensures w[|w| - 1] in order[..i] && w[|w| - 1] != w[0]
    decreases |w|
  {
    assert w[1] in g[w[0]];
    assert w[0] !in order[..i];
    var j :| 0 <= j < i && order[j] == w[1];
    if |w| == 2 {
    } else {
      var t := w[1..];
      assert Walk(g, t) by {
        forall a, b | 0 <= a < |t| && b == a + 1 < |t|
          ensures t[b] in g[t[a]]
        {
          assert t[a] == w[a + 1] && t[b] == w[b + 1];
        }
      }
      WalkDescends(g, order, t, j);
      assert order[..j] <= order[..i];
    }
  }

  lemma OrderedIsAcyclic(g: Graph, order: seq<string>)
    requires Topological(g, order) && Elements(order) == g.Keys
    ensures Acyclic(g)
  {
    forall w
      ensures !Cycle(g, w)
    {
      if Cycle(g, w) {
        assert w[0] in Elements(order);
        var i :| 0 <= i < |order| && order[i] == w[0];
        WalkDescends(g, order, w, i);
      }
    }
  }

  // ---------- a blocked remainder contains a cycle ----------

  /** Every quest of `rest` still waits for another quest of `rest`. */
  ghost predicate Blocked(g: Graph, rest: set<string>) {
    rest <= g.Keys && forall q {:trigger Waits(g, q, rest)} :: q in rest ==> Waits(g, q, rest)
  }

  ghost predicate Waits(g: Graph, q: string, rest: set<string>)
    requires q in g
  {
    exists p :: p in g[q] && p in rest
  }

  lemma {:induction false} LongWalk(g: Graph, rest: set<string>, q: string, n: nat) returns (w: seq<string>)
    requires Blocked(g, rest) && q in rest
    ensures Walk(g, w) && |w| == n + 1 && w[0] == q
    ensures forall i :: 0 <= i < |w| ==> w[i] in rest
    decreases n
  {
    if n == 0 {
      w := [q];
    } else {
      assert Waits(g, q, rest);
      var p :| p in g[q] && p in rest;
      var t := LongWalk(g, rest, p, n - 1);
      w := [q] + t;
    }
  }

  lemma {:induction false} Pigeonhole(w: seq<string>, s: set<string>)
    requires |w| > |s| && forall i :: 0 <= i < |w| ==> w[i] in s
    ensures !Distinct(w)
  {
    if Distinct(w) {
      DistinctCount(w);
      SubsetCount(Elements(w), s);
    }
  }

  lemma RepeatIsCycle(g: Graph, w: seq<string>)
    requires Walk(g, w) && !Distinct(w)
    ensures !Acyclic(g)
  {
    var i, j :| 0 <= i < j < |w| && w[i] == w[j];
    var c := w[i..j + 1];
    assert Walk(g, c) by {
      forall a, b | 0 <= a < |c| && b == a + 1 < |c|
        ensures c[b] in g[c[a]]
      {
        assert c[a] == w[i + a] && c[b] == w[i + b];
      }
    }
    assert Cycle(g, c);
  }

  lemma BlockedHasCycle(g: Graph, rest: set<string>)
    requires Blocked(g, rest) && rest != {}
    ensures !Acyclic(g)
  {
    var q :| q in rest;
    var w := LongWalk(g, rest, q, |rest|);
    Pigeonhole(w, rest);
    RepeatIsCycle(g, w);
  }

  // ---------- the sort ----------

  /** Prerequisites of `q` that are not in `done`. */
  ghost function Pending(g: Graph, q: string, done: set<string>): set<string>
    requires q in g
  {
    set p | p in g[q] && p !in done
  }

  function DependentsOf(dependents: Graph, p: string): seq<string> {
    if p in dependents then dependents[p] else []
  }

  /** The quests of `among` that require `p`. */
  ghost function Requirers(g: Graph, among: set<string>, p: string): set<string> {
    set q | q in among && q in g && p in g[q]
  }

  /** `dependents` lists, for each quest, exactly the quests of `among` that require it. */
  ghost predicate Inverts(g: Graph, among: set<string>, dependents: Graph) {
    forall p {:trigger DependentsOf(dependents, p)} ::
      Distinct(DependentsOf(dependents, p)) && Elements(DependentsOf(dependents, p)) == Requirers(g, among, p)
  }

  /** Records `q` as a dependent of each of its prerequisites. */
  method AddDependent(g: Graph, q: string, before: Graph) returns (dependents: Graph)
    requires q in g && Distinct(g[q])
    ensures forall p {:trigger DependentsOf(dependents, p)} ::
      DependentsOf(dependents, p) == DependentsOf(before, p) + (if p in g[q] then [q] else [])
  {
    dependents := before;
    var i := 0;
    while i < |g[q]|
      invariant 0 <= i <= |g[q]|
      invariant forall p {:trigger DependentsOf(dependents, p)} ::
        DependentsOf(dependents, p) == DependentsOf(before, p) + (if p in g[q][..i] then [q] else [])
    {
      var p := g[q][i];
      assert p !in g[q][..i];
      ghost var last := dependents;
      dependents := dependents[p := DependentsOf(dependents, p) + [q]];
      i := i + 1;
      forall x
        ensures DependentsOf(dependents, x) == DependentsOf(before, x) + (if x in g[q][..i] then [q] else [])
      {
        assert DependentsOf(dependents, x) == DependentsOf(last, x) + (if x == p then [q] else []);
        assert x in g[q][..i] <==> x in g[q][..i - 1] || x == p;
      }
    }
    assert g[q][..i] == g[q];
  }

  lemma AddedInverts(g: Graph, among: set<string>, q: string, before: Graph, after: Graph)
    requires q in g && q !in among && Inverts(g, among, before)
    requires forall p {:trigger DependentsOf(after, p)} ::
      DependentsOf(after, p) == DependentsOf(before, p) + (if p in g[q] then [q] else [])
    ensures Inverts(g, among + {q}, after)
  {
    forall p
      ensures Distinct(DependentsOf(after, p))
      ensures Elements(DependentsOf(after, p)) == Requirers(g, among + {q}, p)
    {
      var old' := DependentsOf(before, p);
      var fresh' := if p in g[q] then {q} else {};
      assert Requirers(g, among + {q}, p) == Requirers(g, among, p) + fresh';
      assert q !in Elements(old');
      ElementsAppend(old', if p in g[q] then [q] else []);
    }
  }

  method BuildDependents(g: Graph) returns (dependents: Graph)
    requires WellFormed(g)
    ensures Inverts(g, g.Keys, dependents)
  {
    dependents := map[];
    var todo := g.Keys;
    while todo != {}
      invariant todo <= g.Keys
      invariant Inverts(g, g.Keys - todo, dependents)
      decreases |todo|
    {
      var q :| q in todo;
      assert Listed(g, q);
      var next := AddDependent(g, q, dependents);
      AddedInverts(g, g.Keys - todo, q, dependents, next);
      assert g.Keys - todo + {q} == g.Keys - (todo - {q});
      dependents, todo := next, todo - {q};
    }
    assert g.Keys - todo == g.Keys;
  }

  /** The initial indegrees count every prerequisite as pending. */
  lemma InitialIndegree(g: Graph, q: string)
    requires q in g && Listed(g, q)
    ensures |g[q]| == |Pending(g, q, {})|
  {
    DistinctCount(g[q]);
    assert Pending(g, q, {}) == Elements(g[q]);
  }

  /** What the queue, the counters and the finished set mean to each other. */
  ghost predicate SortState(g: Graph, indegree: map<string, nat>, queued: set<string>, done: set<string>) {
    && indegree.Keys == g.Keys
    && queued !! done && queued <= g.Keys && done <= g.Keys
    && (forall q :: q in g ==> indegree[q] == |Pending(g, q, done)|)
    && (forall q :: q in g ==> (indegree[q] == 0 <==> q in queued || q in done))
  }

  lemma RemoveOne(g: Graph, q: string, done: set<string>, id: string)
    requires q in g && id !in done
    ensures id in g[q] ==> |Pending(g, q, done + {id})| == |Pending(g, q, done)| - 1
    ensures id !in g[q] ==> |Pending(g, q, done + {id})| == |Pending(g, q, done)|
  {
    if id in g[q] {
      assert Pending(g, q, done + {id}) == Pending(g, q, done) - {id};
    } else {
      assert Pending(g, q, done + {id}) == Pending(g, q, done);
    }
  }

  lemma PoppedIsTopological(g: Graph, order: seq<string>, id: string)
    requires Topological(g, order) && id in g && id !in order
    requires |Pending(g, id, Elements(order))| == 0
    ensures Topological(g, order + [id])
  {
    var longer := order + [id];
    assert Pending(g, id, Elements(order)) == {};
    assert forall p :: p in g[id] ==> p in Elements(order) || p in Pending(g, id, Elements(order));
    forall i, p | 0 <= i < |longer| && longer[i] in g && p in g[longer[i]]
      ensures p in longer[..i]
    {
      if i < |order| {
        assert longer[..i] == order[..i];
      } else {
        assert longer[i] == id && p in g[id];
        assert longer[..i] == order;
      }
    }
  }

  /** Lowers the indegree of every child and queues those that reach zero. */
  method LowerChildren(children: seq<string>, indegree: map<string, nat>, ready: seq<string>)
    returns (indegree': map<string, nat>, ready': seq<string>)
    requires Distinct(children) && Distinct(ready)
    requires forall q :: q in children ==> q in indegree && indegree[q] > 0 && q !in ready
    ensures indegree'.Keys == indegree.Keys && Distinct(ready')
    ensures forall q :: q in indegree ==> indegree'[q] == indegree[q] - (if q in children then 1 else 0)
    ensures forall q :: q in ready' <==> q in ready || (q in children && indegree'[q] == 0)
  {
    indegree', ready' := indegree, ready;
    var i := 0;
    while i < |children|
      invariant 0 <= i <= |children|
      invariant indegree'.Keys == indegree.Keys && Distinct(ready')
      invariant forall q :: q in indegree ==> indegree'[q] == indegree[q] - (if q in children[..i] then 1 else 0)
      invariant forall q :: q in ready' <==> q in ready || (q in children[..i] && indegree'[q] == 0)
    {
      var child := children[i];
      assert child !in children[..i];
      indegree' := indegree'[child := indegree'[child] - 1];
      if indegree'[child] == 0 {
        ready' := ready' + [child];
      }
      i := i + 1;
      assert forall q :: q in children[..i] <==> q in children[..i - 1] || q == child;
    }
    assert children[..i] == children;
  }

  /** One step of the queue: pop `id`, lower its dependents, queue those that reach zero. */
  method Release(g: Graph, dependents: Graph, indegree: map<string, nat>, ready: seq<string>, ghost done: set<string>)
    returns (indegree': map<string, nat>, ready': seq<string>)
    requires Inverts(g, g.Keys, dependents)
    requires ready != [] && Distinct(ready) && SortState(g, indegree, Elements(ready), done)
    ensures Distinct(ready') && SortState(g, indegree', Elements(ready'), done + {ready[0]})
  {
    var id := ready[0];
    var children := DependentsOf(dependents, id);
    Popped(ready);
    ChildrenWait(g, dependents, indegree, Elements(ready), done, id, children);
    forall q | q in children
      ensures q in indegree && indegree[q] > 0 && q !in ready[1..]
    {
      assert q !in Elements(ready[1..]);
    }
    indegree', ready' := LowerChildren(children, indegree, ready[1..]);
    forall q
      ensures q in Elements(ready') <==> q in Elements(ready) - {id} || (q in Elements(children) && indegree'[q] == 0)
    {
      assert q in Elements(ready[1..]) <==> q in ready[1..];
    }
    Released(g, Elements(children), indegree, Elements(ready), done, id, indegree', Elements(ready'));
  }

  lemma Popped(ready: seq<string>)
    requires ready != [] && Distinct(ready)
    ensures Elements(ready[1..]) == Elements(ready) - {ready[0]}
  {
    assert ready == [ready[0]] + ready[1..];
  }

  /** Every child of a queued quest has a positive count, so no decrement underflows. */
  lemma ChildrenWait(g: Graph, dependents: Graph, indegree: map<string, nat>, queued: set<string>, done: set<string>,
      id: string, children: seq<string>)
    requires Inverts(g, g.Keys, dependents)
    requires id in queued && SortState(g, indegree, queued, done)
    requires children == DependentsOf(dependents, id)
    ensures Distinct(children)
    ensures Elements(children) == Requirers(g, g.Keys, id)
    ensures forall q :: q in children ==> q in indegree && indegree[q] > 0 && q !in queued
  {
    forall q | q in children
      ensures q in indegree && indegree[q] > 0 && q !in queued
    {
      assert q in Elements(children);
      assert id in Pending(g, q, done);
    }
  }

  lemma Released(g: Graph, children: set<string>, indegree: map<string, nat>, queued: set<string>, done: set<string>,
      id: string, indegree': map<string, nat>, queued': set<string>)
    requires id in queued && SortState(g, indegree, queued, done)
    requires children == Requirers(g, g.Keys, id)
    requires forall q :: q in children ==> indegree[q] > 0
    requires indegree'.Keys == g.Keys
    requires forall q :: q in g ==> indegree'[q] == indegree[q] - (if q in children then 1 else 0)
    requires forall q :: q in queued' <==> q in queued - {id} || (q in children && indegree'[q] == 0)
    ensures SortState(g, indegree', queued', done + {id})
  {
    forall q | q in g
      ensures indegree'[q] == |Pending(g, q, done + {id})|
    {
      RemoveOne(g, q, done, id);
    }
  }

  method Roots(g: Graph, indegree: map<string, nat>) returns (ready: seq<string>)
    requires indegree.Keys == g.Keys
    ensures Distinct(ready)
    ensures forall q :: q in ready <==> q in g && indegree[q] == 0
  {
    ready := [];
    var todo := g.Keys;
    while todo != {}
      invariant todo <= g.Keys && Distinct(ready)
      invariant forall q :: q in ready <==> q in g && q !in todo && indegree[q] == 0
      decreases |todo|
    {
      var q :| q in todo;
      todo := todo - {q};
      if indegree[q] == 0 {
        ready := ready + [q];
      }
    }
  }

  /**
   Kahn's algorithm as `validate_quests` runs it. It reaches every quest exactly when
   the prerequisite relation has no cycle.
   */
  method TopologicalSort(g: Graph) returns (acyclic: bool)
    requires WellFormed(g)
    ensures acyclic <==> Acyclic(g)
  {
    var indegree: map<string, nat> := map q | q in g :: |g[q]|;
    var dependents := BuildDependents(g);
    var ready := Roots(g, indegree);
    var processed := 0;
    ghost var order: seq<string> := [];
    forall q | q in g
      ensures indegree[q] == |Pending(g, q, Elements(order))|
    {
      assert Listed(g, q);
      InitialIndegree(g, q);
      assert Elements(order) == {};
    }
    while ready != []
      invariant Distinct(ready) && SortState(g, indegree, Elements(ready), Elements(order))
      invariant Topological(g, order) && processed == |order|
      decreases |g| - processed
    {
      ghost var popped := ready[0];
      assert popped in Elements(ready);
      PoppedIsTopological(g, order, popped);
      indegree, ready := Release(g, dependents, indegree, ready, Elements(order));
      assert Elements(order + [popped]) == Elements(order) + {popped};
      order := order + [popped];
      processed := processed + 1;
      DistinctCount(order);
      SubsetCount(Elements(order), g.Keys);
      assert |g.Keys| == |g|;
    }
    DistinctCount(order);
    acyclic := processed == |g|;
    assert |g.Keys| == |g|;
    if acyclic {
      SubsetCount(Elements(order), g.Keys);
      OrderedIsAcyclic(g, order);
    } else {
      Remainder(g, indegree, order);
    }
  }

  /** With the queue empty, every unreached quest waits for an unreached quest. */
  lemma Remainder(g: Graph, indegree: map<string, nat>, order: seq<string>)
    requires WellFormed(g) && SortState(g, indegree, {}, Elements(order)) && Distinct(order)
    requires |order| != |g|
    ensures !Acyclic(g)
  {
    DistinctCount(order);
    var rest := g.Keys - Elements(order);
    assert |g.Keys| == |g|;
    if rest == {} {
      SubsetCount(g.Keys, Elements(order));
    }
    forall q | q in rest
      ensures Waits(g, q, rest)
    {
      assert Listed(g, q);
      assert Pending(g, q, Elements(order)) != {};
      var p :| p in Pending(g, q, Elements(order));
      assert p in g[q] && p in rest;
    }
    BlockedHasCycle(g, rest);
  }
}
