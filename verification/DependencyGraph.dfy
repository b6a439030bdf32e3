/** Kahn's algorithm over the services (dependency_graph.go). */
module DependencyGraph {
  import opened Prelude
  import opened Order
  import opened Config

  type Services = map<string, ServiceConfig>

  // ---------- What the order should be ----------

  /** An edge of the graph: dependencies on anything outside the services map are ignored. */
  ghost predicate DependsOn(services: Services, n: string, d: string) {
    n in services && d in services && d in services[n].dependsOn
  }

  /** Every service once, each after the services it depends on. */
  ghost predicate Topological(services: Services, r: seq<string>) {
    multiset(r) == multiset(services.Keys)
    && forall i, d :: 0 <= i < |r| && DependsOn(services, r[i], d) ==> d in r[..i]
  }

  ghost predicate IsCycle(services: Services, p: seq<string>) {
    |p| >= 2 && p[0] == p[|p| - 1]
    && forall i :: 0 <= i < |p| - 1 ==> DependsOn(services, p[i], p[i + 1])
  }

  ghost predicate Cyclic(services: Services) {
    exists p :: IsCycle(services, p)
  }

  /** r comes before q: smaller at the first place where they differ. */
  ghost predicate ComesBefore(r: seq<string>, q: seq<string>) {
    exists i :: 0 <= i < |r| && i < |q| && r[..i] == q[..i] && Less(r[i], q[i])
  }

  ghost predicate IsLeastOrder(services: Services, r: seq<string>) {
    Topological(services, r)
    && forall q :: Topological(services, q) ==> q == r || ComesBefore(r, q)
  }

  // ---------- The greedy characterisation ----------

  ghost predicate Ready(services: Services, done: seq<string>, n: string) {
    n in services && n !in done && forall d :: DependsOn(services, n, d) ==> d in done
  }

  /** Each element is the least service that is ready at its turn. */
  ghost predicate Greedy(services: Services, r: seq<string>) {
    forall i :: 0 <= i < |r| ==>
      Ready(services, r[..i], r[i]) && forall n :: Ready(services, r[..i], n) ==> Leq(r[i], n)
  }

  lemma OnlyOnce(keys: set<string>, q: seq<string>, i: nat)
    requires multiset(q) == multiset(keys) && i < |q|
    ensures q[i] !in q[..i] && q[i] in keys
  {
    assert q == q[..i] + [q[i]] + q[i + 1..];
    assert q[i] in multiset(q);
    assert multiset(keys)[q[i]] == 1;
  }

  lemma {:induction false} FirstDifference(r: seq<string>, q: seq<string>) returns (i: nat)
    requires |r| == |q| && r != q
    ensures i < |r| && r[..i] == q[..i] && r[i] != q[i]
  {
    if r[0] != q[0] {
      i := 0;
    } else {
      assert r == [r[0]] + r[1..] && q == [q[0]] + q[1..];
      i := FirstDifference(r[1..], q[1..]);
      i := i + 1;
      assert r[..i] == [r[0]] + r[1..][..i - 1] && q[..i] == [q[0]] + q[1..][..i - 1];
    }
  }

  lemma GreedyIsLeast(services: Services, r: seq<string>)
    requires Topological(services, r) && Greedy(services, r)
    ensures IsLeastOrder(services, r)
  {
    forall q | Topological(services, q) && q != r ensures ComesBefore(r, q) {
      assert |r| == |multiset(r)| == |q|;
      var i := FirstDifference(r, q);
      OnlyOnce(services.Keys, q, i);
      assert Ready(services, r[..i], q[i]);
      LessIsTotal(r[i], q[i]);
    }
  }

  /** There is one least order, so no iteration order of a Go map can show in the result. */
  lemma LeastOrderIsUnique(services: Services, r: seq<string>, q: seq<string>)
    requires IsLeastOrder(services, r) && IsLeastOrder(services, q)
    ensures r == q
  {
    if r != q {
      var i :| 0 <= i < |r| && i < |q| && r[..i] == q[..i] && Less(r[i], q[i]);
      var j :| 0 <= j < |q| && j < |r| && q[..j] == r[..j] && Less(q[j], r[j]);
      LessIsTotal(r[i], q[i]);
      LessIsTotal(r[j], q[j]);
      assert false;
    }
  }

  // ---------- Cycles ----------

  lemma {:induction false} OrderRulesOutWalks(services: Services, r: seq<string>, p: seq<string>, i: nat)
    requires Topological(services, r) && |p| >= 1
    requires forall k :: 0 <= k < |p| - 1 ==> DependsOn(services, p[k], p[k + 1])
    requires i < |r| && r[i] == p[0] && |p| >= 2
    ensures p[|p| - 1] in r[..i]
  {
    assert DependsOn(services, p[0], p[1]);
    assert p[1] in r[..i];
    if |p| > 2 {
      var j :| 0 <= j < i && r[j] == p[1];
      forall k | 0 <= k < |p[1..]| - 1 ensures DependsOn(services, p[1..][k], p[1..][k + 1]) {
        assert DependsOn(services, p[k + 1], p[k + 2]);
      }
      OrderRulesOutWalks(services, r, p[1..], j);
      assert r[..j] == r[..i][..j];
    }
  }

  lemma OrderRulesOutCycles(services: Services, r: seq<string>)
    requires Topological(services, r)
    ensures !Cyclic(services)
  {
    if Cyclic(services) {
      var p :| IsCycle(services, p);
      assert DependsOn(services, p[0], p[1]);
      assert p[0] in multiset(r);
      var i :| 0 <= i < |r| && r[i] == p[0];
      OrderRulesOutWalks(services, r, p, i);
      OnlyOnce(services.Keys, r, i);
      assert false;
    }
  }

  /** next leads from each member of a set to a member it depends on. */
  ghost predicate LeadsOn(services: Services, left: set<string>, next: map<string, string>) {
    next.Keys == left
    && forall m {:trigger next[m]} :: m in left ==> next[m] in left && DependsOn(services, m, next[m])
  }

  lemma {:induction false} WalkWithin(services: Services, left: set<string>, next: map<string, string>,
                                      n: string, k: nat)
    returns (p: seq<string>)
    requires LeadsOn(services, left, next) && n in left
    ensures |p| == k + 1 && p[0] == n && forall i :: 0 <= i < |p| ==> p[i] in left
    ensures forall i :: 0 <= i < |p| - 1 ==> DependsOn(services, p[i], p[i + 1])
    decreases k
  {
    if k == 0 {
      p := [n];
    } else {
      var tail := WalkWithin(services, left, next, next[n], k - 1);
      p := [n] + tail;
    }
  }

  lemma {:induction false} Pigeonhole(p: seq<string>, holes: set<string>) returns (i: nat, j: nat)
    requires |p| > |holes| && forall k :: 0 <= k < |p| ==> p[k] in holes
    ensures i < j < |p| && p[i] == p[j]
  {
    var last := |p| - 1;
    if k :| 0 <= k < last && p[k] == p[last] {
      i, j := k, last;
    } else {
      i, j := Pigeonhole(p[..last], holes - {p[last]});
    }
  }

  /** Services of which each still waits for another one of them lie on or behind a cycle. */
  lemma StuckMeansCyclic(services: Services, left: set<string>, next: map<string, string>)
    requires left != {} && LeadsOn(services, left, next)
    ensures Cyclic(services)
  {
    hide DependsOn, LeadsOn, IsCycle;
    var n :| n in left;
    var p := WalkWithin(services, left, next, n, |left|);
    var i, j := Pigeonhole(p, left);
    CycleInWalk(services, p, i, j);
  }

  lemma CycleInWalk(services: Services, p: seq<string>, i: nat, j: nat)
    requires forall k :: 0 <= k < |p| - 1 ==> DependsOn(services, p[k], p[k + 1])
    requires i < j < |p| && p[i] == p[j]
    ensures IsCycle(services, p[i..j + 1])
  {
    hide DependsOn;
    var c := p[i..j + 1];
    forall k | 0 <= k < |c| - 1 ensures DependsOn(services, c[k], c[k + 1]) {
      assert c[k] == p[i + k] && c[k + 1] == p[i + k + 1];
    }
  }

  // ---------- In-degrees ----------

  /** How many entries of a depends_on list, repeats counted, are known services not yet placed. */
  ghost function Unmet(deps: seq<string>, known: set<string>, done: seq<string>): nat {
    if deps == [] then 0
    else
      var d := deps[|deps| - 1];
      Unmet(deps[..|deps| - 1], known, done) + if d in known && d !in done then 1 else 0
  }

  lemma {:induction false} UnmetIsZero(deps: seq<string>, known: set<string>, done: seq<string>)
    ensures Unmet(deps, known, done) == 0 <==> forall d :: d in deps && d in known ==> d in done
  {
    if deps != [] {
      var last := |deps| - 1;
      UnmetIsZero(deps[..last], known, done);
      assert deps == deps[..last] + [deps[last]];
    }
  }

  lemma {:induction false} PlacingMeets(deps: seq<string>, known: set<string>, done: seq<string>, n: string)
    requires n in known && n !in done
    ensures Unmet(deps, known, done) == Unmet(deps, known, done + [n]) + multiset(deps)[n]
  {
    if deps != [] {
      var last := |deps| - 1;
      PlacingMeets(deps[..last], known, done, n);
      assert deps == deps[..last] + [deps[last]];
    }
  }

  function Adjacent(dependents: map<string, seq<string>>, d: string): seq<string> {
    if d in dependents then dependents[d] else []
  }

  /** How often the depends_on lists of the services seen make n a dependent of d. */
  ghost function Times(services: Services, seen: set<string>, n: string, d: string): nat {
    if n in seen && n in services then multiset(services[n].dependsOn)[d] else 0
  }

  ghost predicate Mirrors(services: Services, seen: set<string>, dependents: map<string, seq<string>>) {
    forall d, n :: d in services ==> multiset(Adjacent(dependents, d))[n] == Times(services, seen, n, d)
  }

  ghost function Degree(services: Services, seen: set<string>, n: string): nat
    requires n in services
  {
    if n in seen then Unmet(services[n].dependsOn, services.Keys, []) else 0
  }

  /** After k entries of a depends_on list: the edges of before, and one to name for each entry seen. */
  ghost predicate Added(services: Services, name: string, seen: seq<string>, before: map<string, seq<string>>,
                        after: map<string, seq<string>>)
  {
    forall d, n :: d in services ==>
      multiset(Adjacent(after, d))[n] ==
      multiset(Adjacent(before, d))[n] + if n == name then multiset(seen)[d] else 0
  }

  lemma AddsOne(services: Services, name: string, seen: seq<string>, dep: string,
                before: map<string, seq<string>>, after: map<string, seq<string>>)
    requires Added(services, name, seen, before, after)
    ensures Added(services, name, seen + [dep], before,
                  if dep in services then after[dep := Adjacent(after, dep) + [name]] else after)
  {
  }

  /** What one service's depends_on list adds to the edges. */
  method AddEdges(services: Services, name: string, inDegree0: map<string, int>,
                  dependents0: map<string, seq<string>>)
    returns (inDegree: map<string, int>, dependents: map<string, seq<string>>)
    requires name in services && inDegree0.Keys == services.Keys && inDegree0[name] == 0
    ensures inDegree == inDegree0[name := Unmet(services[name].dependsOn, services.Keys, [])]
    ensures Added(services, name, services[name].dependsOn, dependents0, dependents)
  {
    inDegree, dependents := inDegree0, dependents0;
    var deps := services[name].dependsOn;
    var k := 0;
    while k < |deps|
      invariant k <= |deps|
      invariant inDegree == inDegree0[name := Unmet(deps[..k], services.Keys, [])]
      invariant Added(services, name, deps[..k], dependents0, dependents)
    {
      var dep := deps[k];
      assert deps[..k + 1] == deps[..k] + [dep];
      assert deps[..k + 1][..k] == deps[..k];
      AddsOne(services, name, deps[..k], dep, dependents0, dependents);
      if dep in services {
        inDegree := inDegree[name := inDegree[name] + 1];
        dependents := dependents[dep := Adjacent(dependents, dep) + [name]];
      }
      k := k + 1;
    }
    assert deps[..k] == deps;
  }

  method BuildEdges(services: Services)
    returns (inDegree: map<string, int>, dependents: map<string, seq<string>>)
    ensures inDegree.Keys == services.Keys
    ensures forall n :: n in services ==> inDegree[n] == Unmet(services[n].dependsOn, services.Keys, [])
    ensures Mirrors(services, services.Keys, dependents)
  {
    inDegree := map name | name in services :: 0;
    dependents := map[];
    var left := services.Keys;
    ghost var seen: set<string> := {};
    while left != {}
      invariant left !! seen && left + seen == services.Keys == inDegree.Keys
      invariant forall n :: n in services ==> inDegree[n] == Degree(services, seen, n)
      invariant Mirrors(services, seen, dependents)
    {
      var name :| name in left;
      ghost var before := dependents;
      inDegree, dependents := AddEdges(services, name, inDegree, dependents);
      SeeOne(services, seen, name, before, dependents);
      left, seen := left - {name}, seen + {name};
    }
  }

  lemma SeeOne(services: Services, seen: set<string>, name: string, before: map<string, seq<string>>,
               after: map<string, seq<string>>)
    requires name in services && name !in seen && Mirrors(services, seen, before)
    requires Added(services, name, services[name].dependsOn, before, after)
    ensures Mirrors(services, seen + {name}, after)
  {
    forall d, n | d in services
      ensures multiset(Adjacent(after, d))[n] == Times(services, seen + {name}, n, d)
    {
      assert multiset(Adjacent(before, d))[n] == Times(services, seen, n, d);
    }
  }

  // ---------- The two list helpers ----------

  /** Insertion sort in place, by adjacent swaps. */
  method SortStrings(s: array<string>)
    modifies s
    ensures Sorted(s[..])
    ensures multiset(s[..]) == multiset(old(s[..]))
  {
    var i := 1;
    while i < s.Length
      invariant 1 <= i
      invariant forall a, b :: 0 <= a < b < i && b < s.Length ==> Leq(s[a], s[b])
      invariant multiset(s[..]) == multiset(old(s[..]))
    {
      var j := i;
      while j > 0 && Less(s[j], s[j - 1])
        invariant 0 <= j <= i
        invariant forall a, b :: 0 <= a < b <= i && b != j && a != j ==> Leq(s[a], s[b])
        invariant forall b :: j < b <= i ==> Leq(s[j], s[b])
        invariant multiset(s[..]) == multiset(old(s[..]))
      {
        LessIsTotal(s[j], s[j - 1]);
        s[j], s[j - 1] := s[j - 1], s[j];
        j := j - 1;
      }
      forall a | 0 <= a < j ensures Leq(s[a], s[j]) {
        if a < j - 1 {
          LeqIsTransitive(s[a], s[j - 1], s[j]);
        }
      }
      i := i + 1;
    }
  }

  method InsertSorted(s: seq<string>, val: string) returns (r: seq<string>)
    ensures r == Insert(s, val)
  {
    var i := 0;
    while i < |s| && Less(s[i], val)
      invariant i <= |s|
      invariant forall k :: 0 <= k < i ==> Less(s[k], val)
    {
      i := i + 1;
    }
    assert i == Position(s, val);
    r := s + [""];
    r := r[..i + 1] + s[i..];
    r := r[i := val];
  }

  // ---------- The sort ----------

  /** The services with in-degree zero that are not placed: what the queue must list. */
  ghost function Waiting(services: Services, inDegree: map<string, int>, done: seq<string>): set<string>
    requires inDegree.Keys == services.Keys
  {
    set n | n in services && n !in done && inDegree[n] == 0
  }

  /** inDegree counts what is unmet, apart from the decrements in todo that are still to come. */
  ghost predicate Counts(services: Services, inDegree: map<string, int>, done: seq<string>, todo: seq<string>)
  {
    inDegree.Keys == services.Keys
    && (forall n :: n in todo ==> n in services)
    && (forall n :: n in services ==>
         inDegree[n] == Unmet(services[n].dependsOn, services.Keys, done) + multiset(todo)[n])
    && (forall n :: n in done && n in services ==> inDegree[n] == 0)
  }

  lemma MeetsAll(services: Services, done: seq<string>, n: string)
    requires n in services
    ensures Unmet(services[n].dependsOn, services.Keys, done) == 0 <==>
      forall d :: DependsOn(services, n, d) ==> d in done
  {
    var deps := services[n].dependsOn;
    UnmetIsZero(deps, services.Keys, done);
    if forall d :: DependsOn(services, n, d) ==> d in done {
      forall d | d in deps && d in services.Keys ensures d in done {
        assert DependsOn(services, n, d);
      }
    }
  }

  lemma WaitingIsReady(services: Services, inDegree: map<string, int>, done: seq<string>)
    requires Counts(services, inDegree, done, [])
    ensures forall n :: n in Waiting(services, inDegree, done) <==> Ready(services, done, n)
  {
    forall n ensures n in Waiting(services, inDegree, done) <==> Ready(services, done, n) {
      if n in services {
        MeetsAll(services, done, n);
      }
    }
  }

  lemma PlacingCounts(services: Services, inDegree: map<string, int>, dependents: map<string, seq<string>>,
                      done: seq<string>, node: string)
    requires Counts(services, inDegree, done, []) && Mirrors(services, services.Keys, dependents)
    requires Ready(services, done, node)
    ensures Counts(services, inDegree, done + [node], Adjacent(dependents, node))
  {
    var todo := Adjacent(dependents, node);
    forall n | n in todo ensures n in services {
      assert n in multiset(todo);
    }
    forall n | n in services
      ensures inDegree[n] == Unmet(services[n].dependsOn, services.Keys, done + [node]) + multiset(todo)[n]
    {
      PlacingMeets(services[n].dependsOn, services.Keys, done, node);
    }
    MeetsAll(services, done, node);
  }

  /** Decrements the in-degree of every dependent of the node just placed, queueing those that reach zero. */
  lemma CountsDown(services: Services, inDegree: map<string, int>, done: seq<string>, n: string, todo: seq<string>)
    requires Counts(services, inDegree, done, [n] + todo)
    ensures n in services && n !in done && inDegree[n] > 0
    ensures Counts(services, inDegree[n := inDegree[n] - 1], done, todo)
  {
    assert n in [n] + todo;
    assert multiset([n] + todo)[n] > 0;
  }

  method Release(services: Services, inDegree0: map<string, int>, todo: seq<string>, queue0: seq<string>,
                 ghost done: seq<string>)
    returns (inDegree: map<string, int>, queue: seq<string>)
    requires inDegree0.Keys == services.Keys && Counts(services, inDegree0, done, todo)
    requires ListsKeys(queue0, Waiting(services, inDegree0, done))
    ensures inDegree.Keys == services.Keys && Counts(services, inDegree, done, [])
    ensures ListsKeys(queue, Waiting(services, inDegree, done))
  {
    hide Counts, ListsKeys, Insert;
    inDegree, queue := inDegree0, queue0;
    var k := 0;
    assert todo[0..] == todo;
    while k < |todo|
      invariant k <= |todo|
      invariant inDegree.Keys == services.Keys && Counts(services, inDegree, done, todo[k..])
      invariant ListsKeys(queue, Waiting(services, inDegree, done))
    {
      var dependent := todo[k];
      assert todo[k..] == [dependent] + todo[k + 1..];
      CountsDown(services, inDegree, done, dependent, todo[k + 1..]);
      ghost var waiting := Waiting(services, inDegree, done);
      inDegree := inDegree[dependent := inDegree[dependent] - 1];
      if inDegree[dependent] == 0 {
        InsertExtendsListing(queue, dependent, waiting);
        queue := InsertSorted(queue, dependent);
        assert Waiting(services, inDegree, done) == waiting + {dependent};
      } else {
        assert Waiting(services, inDegree, done) == waiting;
      }
      k := k + 1;
    }
    assert todo[k..] == [];
  }

  method CollectReady(services: Services, inDegree: map<string, int>) returns (queue: seq<string>)
    requires inDegree.Keys == services.Keys
    ensures multiset(queue) == multiset(Waiting(services, inDegree, []))
  {
    queue := [];
    var left := inDegree.Keys;
    ghost var found: set<string> := {};
    while left != {}
      invariant left <= inDegree.Keys
      invariant found == Waiting(services, inDegree, []) - left
      invariant multiset(queue) == multiset(found)
    {
      var name :| name in left;
      left := left - {name};
      if inDegree[name] == 0 {
        queue := queue + [name];
        found := found + {name};
      }
    }
  }

  method InitialQueue(services: Services, inDegree: map<string, int>) returns (queue: seq<string>)
    requires inDegree.Keys == services.Keys
    ensures ListsKeys(queue, Waiting(services, inDegree, []))
  {
    queue := CollectReady(services, inDegree);
    var a := new string[|queue|](i requires 0 <= i < |queue| => queue[i]);
    assert a[..] == queue;
    SortStrings(a);
    queue := a[..];
    SetListing(queue, Waiting(services, inDegree, []));
  }

  lemma GreedyStep(services: Services, done: seq<string>, node: string)
    requires Greedy(services, done) && Ready(services, done, node)
    requires forall n :: Ready(services, done, n) ==> Leq(node, n)
    ensures Greedy(services, done + [node])
  {
    var r := done + [node];
    forall i | 0 <= i < |r|
      ensures Ready(services, r[..i], r[i]) && forall n :: Ready(services, r[..i], n) ==> Leq(r[i], n)
    {
      assert r[..i] == done[..i];
      assert i == |done| ==> done[..i] == done;
    }
  }

  ghost function Placed(services: Services, r: seq<string>): set<string> {
    set n | n in services && n in r
  }

  lemma PlacedGrows(services: Services, r: seq<string>, n: string)
    requires n in services && n !in r
    ensures Placed(services, r + [n]) == Placed(services, r) + {n} && n !in Placed(services, r)
  {
  }

  lemma GreedyPrefix(services: Services, r: seq<string>, k: nat)
    requires Greedy(services, r) && k <= |r|
    ensures Greedy(services, r[..k])
  {
    forall i | 0 <= i < k
      ensures Ready(services, r[..k][..i], r[..k][i])
      ensures forall n :: Ready(services, r[..k][..i], n) ==> Leq(r[..k][i], n)
    {
      assert r[..k][..i] == r[..i];
    }
  }

  lemma {:induction false} GreedyCounts(services: Services, r: seq<string>)
    requires Greedy(services, r)
    ensures multiset(r) == multiset(Placed(services, r)) && |r| == |Placed(services, r)|
  {
    if r != [] {
      var last := |r| - 1;
      GreedyPrefix(services, r, last);
      GreedyCounts(services, r[..last]);
      assert Ready(services, r[..last], r[last]);
      hide Greedy, Ready, Placed;
      assert r == r[..last] + [r[last]];
      ReadyIsNew(services, r[..last], r[last]);
      PlacedGrows(services, r[..last], r[last]);
      OneMoreInAll(r[..last], Placed(services, r[..last]), r[last]);
    }
  }

  lemma ReadyIsNew(services: Services, done: seq<string>, n: string)
    requires Ready(services, done, n)
    ensures n in services && n !in done
  {
  }

  lemma OneMoreInAll(s: seq<string>, all: set<string>, n: string)
    requires multiset(s) == multiset(all) && |s| == |all| && n !in all
    ensures multiset(s + [n]) == multiset(all + {n}) && |s + [n]| == |all + {n}|
  {
    assert multiset(all + {n}) == multiset(all) + multiset{n};
  }

  ghost function Unplaced(services: Services, r: seq<string>, n: string): (d: string)
    requires n in services && n !in r && !Ready(services, r, n)
    ensures d in services.Keys - Placed(services, r) && DependsOn(services, n, d)
  {
    var d :| DependsOn(services, n, d) && d !in r;
    d
  }

  lemma GreedyIsTopological(services: Services, r: seq<string>)
    requires Greedy(services, r) && multiset(r) == multiset(services.Keys)
    ensures Topological(services, r)
  {
    forall i, d | 0 <= i < |r| && DependsOn(services, r[i], d) ensures d in r[..i] {
      assert Ready(services, r[..i], r[i]);
    }
  }

  lemma UnplacedLeadsOn(services: Services, r: seq<string>)
    requires forall n :: !Ready(services, r, n)
    ensures var left := services.Keys - Placed(services, r);
      left != {} ==> Cyclic(services)
  {
    hide Ready, Cyclic, DependsOn;
    var left := services.Keys - Placed(services, r);
    var next := map n | n in left :: Unplaced(services, r, n);
    if left != {} {
      StuckMeansCyclic(services, left, next);
    }
  }

  lemma StuckSort(services: Services, r: seq<string>)
    requires Greedy(services, r) && forall n :: !Ready(services, r, n)
    ensures |r| == |services| ==> Topological(services, r)
    ensures |r| != |services| ==> Cyclic(services)
  {
    hide Greedy, Ready, Cyclic, Topological;
    GreedyCounts(services, r);
    var left := services.Keys - Placed(services, r);
    assert |left| == |services.Keys| - |Placed(services, r)|;
    if left == {} {
      assert Placed(services, r) == services.Keys;
      GreedyIsTopological(services, r);
    } else {
      UnplacedLeadsOn(services, r);
    }
  }

  /** Moving the head of the queue to the result keeps everything the main loop relies on. */
  lemma PlaceLeast(services: Services, inDegree: map<string, int>, dependents: map<string, seq<string>>,
                   queue: seq<string>, done: seq<string>)
    requires Greedy(services, done) && Counts(services, inDegree, done, [])
    requires Mirrors(services, services.Keys, dependents)
    requires ListsKeys(queue, Waiting(services, inDegree, done)) && queue != []
    ensures Greedy(services, done + [queue[0]])
    ensures Counts(services, inDegree, done + [queue[0]], Adjacent(dependents, queue[0]))
    ensures ListsKeys(queue[1..], Waiting(services, inDegree, done + [queue[0]]))
    ensures |Placed(services, done)| < |Placed(services, done + [queue[0]])| <= |services|
  {
    var node := queue[0];
    WaitingIsReady(services, inDegree, done);
    assert node in queue;
    forall n | Ready(services, done, n) ensures Leq(node, n) {
      assert n in queue;
      LessIsTotal(node, n);
    }
    GreedyStep(services, done, node);
    PlacingCounts(services, inDegree, dependents, done, node);
    RestOfListing(queue, Waiting(services, inDegree, done));
    assert Waiting(services, inDegree, done + [node]) == Waiting(services, inDegree, done) - {node};
    PlacedGrows(services, done, node);
    SubsetIsSmaller(Placed(services, done + [node]), services.Keys);
  }

  lemma {:induction false} SubsetIsSmaller(a: set<string>, b: set<string>)
    requires a <= b
    ensures |a| <= |b|
  {
    assert b == a + (b - a);
    assert |b| == |a| + |b - a|;
  }

  /** The services in dependency order, or an error when they depend on each other in a circle. */
  method TopologicalSort(services: Services) returns (r: Result<seq<string>>)
    ensures r.Err? <==> Cyclic(services)
    ensures r.Ok? ==> IsLeastOrder(services, r.value)
  {
    var inDegree, dependents := BuildEdges(services);
    var queue := InitialQueue(services, inDegree);
    var result := [];
    while |queue| > 0
      invariant Greedy(services, result)
      invariant Counts(services, inDegree, result, [])
      invariant ListsKeys(queue, Waiting(services, inDegree, result))
      invariant |Placed(services, result)| <= |services|
      decreases |services| - |Placed(services, result)|
    {
      PlaceLeast(services, inDegree, dependents, queue, result);
      var node := queue[0];
      queue := queue[1..];
      result := result + [node];
      inDegree, queue := Release(services, inDegree, Adjacent(dependents, node), queue, result);
    }
    WaitingIsReady(services, inDegree, result);
    StuckSort(services, result);
    if |result| != |services| {
      return Err;
    }
    GreedyIsLeast(services, result);
    OrderRulesOutCycles(services, result);
    return Ok(result);
  }

  lemma RestOfListing(s: seq<string>, keys: set<string>)
    requires ListsKeys(s, keys) && s != []
    ensures ListsKeys(s[1..], keys - {s[0]})
  {
    assert s == [s[0]] + s[1..];
    LessIsTotal(s[0], s[0]);
  }

  // ---------- Unknown dependencies ----------

  ghost predicate HasUnknown(services: Services) {
    exists n, d :: n in services && d in services[n].dependsOn && d !in services
  }

  /** Dependencies that are not known change nothing: the cycles and the least order are those of the services
      with the same known dependencies. */
  lemma OnlyKnownDependenciesMatter(services: Services, others: Services, r: seq<string>)
    requires others.Keys == services.Keys
    requires forall n, d :: DependsOn(others, n, d) <==> DependsOn(services, n, d)
    ensures Cyclic(others) <==> Cyclic(services)
    ensures IsLeastOrder(others, r) <==> IsLeastOrder(services, r)
  {
    forall p ensures IsCycle(others, p) <==> IsCycle(services, p) {
    }
    forall q ensures Topological(others, q) <==> Topological(services, q) {
    }
  }

  const ASKS_FOR_DATABASE := ServiceConfig("web", 0, "", ["database"], None, "", "", "", [])

  /** An input: the only service depends on one that is not there, and the order is that service. */
  lemma UnknownDependencySorts()
    ensures var services := map["web" := ASKS_FOR_DATABASE];
      HasUnknown(services) && !Cyclic(services) && IsLeastOrder(services, ["web"])
  {
    var services := map["web" := ASKS_FOR_DATABASE];
    var n, d := "web", "database";
    assert n != d by { assert |n| != |d|; }
    assert services[n].dependsOn[0] == d;
    assert n in services && d in services[n].dependsOn && d !in services;
    forall e ensures !DependsOn(services, "web", e) {
    }
    assert Topological(services, ["web"]) by {
      assert services.Keys == {"web"} && multiset(["web"]) == multiset{"web"};
    }
    OrderRulesOutCycles(services, ["web"]);
    forall q | Topological(services, q) ensures q == ["web"] {
      assert |multiset(q)| == 1;
      assert q[0] in multiset(q);
    }
  }
}
