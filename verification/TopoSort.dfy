/** internal/plugin/manager.go: the load order of the plugins, by Kahn's algorithm with priorities. */
module TopoSort {
  import Sorting

  datatype Metadata = Metadata(dependencies: seq<string>, priority: int)

  type Registry = map<string, Metadata>

  datatype SortResult =
    | Order(order: seq<string>)
    | UnknownDependency(id: string, dep: string)
    | Circular

  // ---------------------------------------------------------------------------------------------
  // What the order promises
  // ---------------------------------------------------------------------------------------------

  ghost predicate AllKnown(reg: Registry) {
    forall id, d | id in reg && d in reg[id].dependencies :: d in reg
  }

  /** A walk along dependencies, inside the registry. */
  ghost predicate IsWalk(reg: Registry, p: seq<string>) {
    && (forall i | 0 <= i < |p| :: p[i] in reg)
    && (forall i, j | 0 <= i < j < |p| && j == i + 1 :: p[j] in reg[p[i]].dependencies)
  }

  ghost predicate IsCycle(reg: Registry, p: seq<string>) {
    |p| >= 2 && IsWalk(reg, p) && p[0] == p[|p| - 1]
  }

  ghost predicate Acyclic(reg: Registry) {
    forall p :: !IsCycle(reg, p)
  }

  function Elements(s: seq<string>): set<string> {
    set x | x in s
  }

  ghost predicate Distinct(s: seq<string>) {
    forall i, j | 0 <= i < j < |s| :: s[i] != s[j]
  }

  /** Not loaded yet, and nothing left to wait for. */
  ghost predicate Ready(reg: Registry, done: set<string>, id: string) {
    id in reg && id !in done && forall d | d in reg[id].dependencies :: d in done
  }

  /** Every pick is ready, and no ready plugin has a lower priority number. */
  ghost predicate PicksGreedily(reg: Registry, order: seq<string>) {
    forall i | 0 <= i < |order| ::
      && Ready(reg, Elements(order[..i]), order[i])
      && forall id | Ready(reg, Elements(order[..i]), id) :: reg[order[i]].priority <= reg[id].priority
  }

  /** A permutation of the plugins, picked greedily. */
  ghost predicate IsLoadOrder(reg: Registry, order: seq<string>) {
    Distinct(order) && Elements(order) == reg.Keys && PicksGreedily(reg, order)
  }

  // ---------------------------------------------------------------------------------------------
  // Orders exclude cycles, stuck sets contain them
  // ---------------------------------------------------------------------------------------------

  function Pos(order: seq<string>, id: string): (i: nat)
    requires id in order
    ensures i < |order| && order[i] == id
  {
    if order[0] == id then 0 else 1 + Pos(order[1..], id)
  }

  lemma DependencyEarlier(reg: Registry, order: seq<string>, id: string, d: string)
    requires IsLoadOrder(reg, order) && id in reg && d in reg[id].dependencies
    ensures id in order && d in order && Pos(order, d) < Pos(order, id)
  {
    assert id in Elements(order);
    var i := Pos(order, id);
    assert d in Elements(order[..i]);
    var j :| 0 <= j < i && order[j] == d;
    assert order[Pos(order, d)] == order[j];
  }

  /** If all that `a` needs was loaded when `b` was picked in front of it, `b` has no higher priority number. */
  lemma PriorityFirst(reg: Registry, order: seq<string>, a: string, b: string)
    requires IsLoadOrder(reg, order) && a in reg && b in reg && a in order && b in order
    requires Pos(order, b) < Pos(order, a)
    requires forall d | d in reg[a].dependencies :: d in order && Pos(order, d) < Pos(order, b)
    ensures reg[b].priority <= reg[a].priority
  {
    hide IsLoadOrder, Elements, Distinct;
    var i := Pos(order, b);
    forall d | d in reg[a].dependencies ensures d in Elements(order[..i]) { LoadedBefore(order, d, i); }
    NotYet(reg, order, a, i);
    GreedyPick(reg, order, i, a);
  }

  lemma LoadedBefore(order: seq<string>, d: string, i: nat)
    requires d in order && Pos(order, d) < i <= |order|
    ensures d in Elements(order[..i])
  {
    assert order[..i][Pos(order, d)] == d;
  }

  lemma GreedyPick(reg: Registry, order: seq<string>, i: nat, a: string)
    requires IsLoadOrder(reg, order) && i < |order| && a in order && a !in Elements(order[..i])
    requires forall d | a in reg && d in reg[a].dependencies :: d in Elements(order[..i])
    ensures a in reg && order[i] in reg && reg[order[i]].priority <= reg[a].priority
  {
    assert a in Elements(order);
    assert Ready(reg, Elements(order[..i]), a);
    hide Elements, Distinct;
  }

  lemma NotYet(reg: Registry, order: seq<string>, a: string, i: nat)
    requires IsLoadOrder(reg, order) && a in order && i < Pos(order, a)
    ensures a !in Elements(order[..i])
  {
    hide PicksGreedily;
    assert order[Pos(order, a)] == a;
  }

  lemma {:induction false} WalkDescends(reg: Registry, order: seq<string>, p: seq<string>, i: nat)
    requires IsLoadOrder(reg, order) && IsWalk(reg, p) && i < |p|
    ensures p[0] in order && p[i] in order && Pos(order, p[i]) + i <= Pos(order, p[0])
  {
    assert p[0] in Elements(order) && p[i] in Elements(order);
    if i > 0 {
      WalkDescends(reg, order, p, i - 1);
      DependencyEarlier(reg, order, p[i - 1], p[i]);
    }
  }

  lemma OrderedIsAcyclic(reg: Registry, order: seq<string>)
    requires IsLoadOrder(reg, order)
    ensures AllKnown(reg) && Acyclic(reg)
  {
    forall id, d | id in reg && d in reg[id].dependencies ensures d in reg {
      DependencyEarlier(reg, order, id, d);
      assert d in Elements(order);
    }
    forall p ensures !IsCycle(reg, p) {
      if IsCycle(reg, p) {
        WalkDescends(reg, order, p, |p| - 1);
      }
    }
  }

  /** Plugins that each wait for another one of the set. */
  ghost predicate Stuck(reg: Registry, r: set<string>) {
    r != {} && r <= reg.Keys && forall x | x in r :: WaitsFor(reg, r, x)
  }

  ghost predicate WaitsFor(reg: Registry, r: set<string>, x: string)
    requires x in reg
  {
    exists d :: d in reg[x].dependencies && d in r
  }

  lemma NextInWalk(reg: Registry, r: set<string>, x: string) returns (d: string)
    requires x in reg && WaitsFor(reg, r, x)
    ensures d in reg[x].dependencies && d in r
  {
    d :| d in reg[x].dependencies && d in r;
  }

  lemma {:induction false} StuckWalk(reg: Registry, r: set<string>, n: nat) returns (p: seq<string>)
    requires Stuck(reg, r) && n > 0
    ensures |p| == n && IsWalk(reg, p) && forall x | x in p :: x in r
  {
    hide WaitsFor;
    if n == 1 {
      var x :| x in r;
      p := [x];
    } else {
      var q := StuckWalk(reg, r, n - 1);
      var x := q[n - 2];
      assert x in r;
      var d := NextInWalk(reg, r, x);
      p := q + [d];
    }
  }

  lemma {:induction false} DistinctSize(s: seq<string>)
    requires Distinct(s)
    ensures |Elements(s)| == |s|
  {
    if s != [] {
      var t := s[..|s| - 1];
      DistinctSize(t);
      assert Elements(s) == Elements(t) + {s[|s| - 1]};
      assert s[|s| - 1] !in t;
    }
  }

  lemma SubsetSize(a: set<string>, b: set<string>)
    requires a <= b
    ensures |a| <= |b|
  {
    assert b == a + (b - a);
  }

  lemma StuckHasCycle(reg: Registry, r: set<string>)
    requires r != {} && r <= reg.Keys && forall x | x in r :: WaitsFor(reg, r, x)
    ensures !Acyclic(reg)
  {
    hide WaitsFor;
    var p := StuckWalk(reg, r, |r| + 1);
    if Distinct(p) {
      DistinctSize(p);
      SubsetSize(Elements(p), r);
    }
    var i, j :| 0 <= i < j < |p| && p[i] == p[j];
    var c := p[i..j + 1];
    forall k, m | 0 <= k < m < |c| && m == k + 1 ensures c[m] in reg[c[k]].dependencies {
      assert c[k] == p[i + k] && c[m] == p[i + m];
    }
    assert IsCycle(reg, c);
  }

  // ---------------------------------------------------------------------------------------------
  // In-degrees
  // ---------------------------------------------------------------------------------------------

  /** How many entries of a dependency list are not loaded yet. */
  function Waiting(deps: seq<string>, done: set<string>): nat {
    if deps == [] then 0 else (if deps[0] in done then 0 else 1) + Waiting(deps[1..], done)
  }

  lemma {:induction false} WaitingZero(deps: seq<string>, done: set<string>)
    ensures Waiting(deps, done) == 0 <==> forall d | d in deps :: d in done
  {
    if deps != [] {
      WaitingZero(deps[1..], done);
    }
  }

  function Times(s: seq<string>, x: string): nat {
    if s == [] then 0 else (if s[0] == x then 1 else 0) + Times(s[1..], x)
  }

  lemma {:induction false} WaitingAfter(deps: seq<string>, done: set<string>, cur: string)
    requires cur !in done
    ensures Waiting(deps, done + {cur}) + Times(deps, cur) == Waiting(deps, done)
  {
    if deps != [] {
      WaitingAfter(deps[1..], done, cur);
    }
  }

  lemma {:induction false} WaitingNothingDone(deps: seq<string>)
    ensures Waiting(deps, {}) == |deps|
  {
    if deps != [] {
      WaitingNothingDone(deps[1..]);
    }
  }

  lemma {:induction false} TimesAppend(s: seq<string>, y: string, x: string)
    ensures Times(s + [y], x) == Times(s, x) + if x == y then 1 else 0
  {
    if s == [] {
      assert s + [y] == [y] && [y][1..] == [];
    } else {
      assert (s + [y])[0] == s[0] && (s + [y])[1..] == s[1..] + [y];
      TimesAppend(s[1..], y, x);
    }
  }

  lemma {:induction false} TimesMember(s: seq<string>, x: string)
    ensures Times(s, x) > 0 <==> x in s
  {
    if s != [] {
      TimesMember(s[1..], x);
    }
  }

  lemma TimesPrefix(s: seq<string>, j: nat, x: string)
    requires j < |s|
    ensures Times(s[..j + 1], x) == Times(s[..j], x) + (if s[j] == x then 1 else 0)
  {
    assert s[..j + 1] == s[..j] + [s[j]];
    TimesAppend(s[..j], s[j], x);
  }

  lemma {:induction false} TimesPrefixLeq(s: seq<string>, j: nat, x: string)
    requires j <= |s|
    ensures Times(s[..j], x) <= Times(s, x)
    decreases |s| - j
  {
    if j < |s| {
      TimesPrefix(s, j, x);
      TimesPrefixLeq(s, j + 1, x);
    } else {
      assert s[..j] == s;
    }
  }

  type Adjacency = map<string, seq<string>>

  function Next(adj: Adjacency, d: string): seq<string> {
    if d in adj then adj[d] else []
  }

  /** For the plugins read so far, `adj` lists a plugin as often as it names the dependency. */
  ghost predicate Mirrors(reg: Registry, read: set<string>, adj: Adjacency) {
    forall d, x :: Times(Next(adj, d), x) == if x in read && x in reg then Times(reg[x].dependencies, d) else 0
  }

  /** `adj` is `adj0` with plugin `id` added once for every entry of `deps`. */
  ghost predicate Extends(adj0: Adjacency, adj: Adjacency, id: string, deps: seq<string>) {
    forall d, x :: Times(Next(adj, d), x) == Times(Next(adj0, d), x) + if x == id then Times(deps, d) else 0
  }

  lemma ExtendsOne(adj0: Adjacency, adj: Adjacency, id: string, deps: seq<string>, i: nat)
    requires i < |deps| && Extends(adj0, adj, id, deps[..i])
    ensures Extends(adj0, adj[deps[i] := Next(adj, deps[i]) + [id]], id, deps[..i + 1])
  {
    var dep := deps[i];
    var adj1 := adj[dep := Next(adj, dep) + [id]];
    forall d, x
      ensures Times(Next(adj1, d), x) == Times(Next(adj0, d), x) + if x == id then Times(deps[..i + 1], d) else 0
    {
      TimesAppend(Next(adj, dep), id, x);
      TimesPrefix(deps, i, d);
      assert Times(Next(adj, d), x) == Times(Next(adj0, d), x) + if x == id then Times(deps[..i], d) else 0;
    }
  }

  lemma MirrorsOne(reg: Registry, read: set<string>, adj0: Adjacency, adj: Adjacency, id: string)
    requires id in reg && id !in read
    requires Mirrors(reg, read, adj0) && Extends(adj0, adj, id, reg[id].dependencies)
    ensures Mirrors(reg, read + {id}, adj)
  {
  }

  lemma ExtendsNone(adj: Adjacency, id: string)
    ensures Extends(adj, adj, id, [])
  {
    var none: seq<string> := [];
    forall d ensures Times(none, d) == 0 {}
  }

  /** One plugin's dependencies. */
  method AddDependencies(reg: Registry, id: string, inDeg0: map<string, int>, adj0: Adjacency)
      returns (inDeg: map<string, int>, adj: Adjacency, unknown: SortResult)
    requires id in reg
    ensures unknown.UnknownDependency? ==>
              && unknown.id in reg && unknown.dep in reg[unknown.id].dependencies && unknown.dep !in reg
    ensures !unknown.UnknownDependency? ==>
              && inDeg == inDeg0[id := |reg[id].dependencies|]
              && Extends(adj0, adj, id, reg[id].dependencies)
              && forall d | d in reg[id].dependencies :: d in reg
  {
    var deps := reg[id].dependencies;
    inDeg, adj, unknown := inDeg0[id := 0], adj0, Circular;
    ExtendsNone(adj0, id);
    assert deps[..0] == [];
    hide Extends;
    for i := 0 to |deps|
      invariant inDeg == inDeg0[id := i]
      invariant forall k | 0 <= k < i :: deps[k] in reg
      invariant Extends(adj0, adj, id, deps[..i])
    {
      var dep := deps[i];
      if dep !in reg {
        return inDeg, adj, UnknownDependency(id, dep);
      }
      ExtendsOne(adj0, adj, id, deps, i);
      adj := adj[dep := Next(adj, dep) + [id]];
      inDeg := inDeg[id := inDeg[id] + 1];
    }
    assert deps[..|deps|] == deps;
  }

  /** Building the in-degree and adjacency maps; the registry is read in the order of a map, so any. */
  method BuildGraph(reg: Registry) returns (inDeg: map<string, int>, adj: Adjacency, unknown: SortResult)
    ensures unknown.UnknownDependency? ==>
              && unknown.id in reg && unknown.dep in reg[unknown.id].dependencies && unknown.dep !in reg
    ensures !unknown.UnknownDependency? ==>
              && AllKnown(reg) && inDeg.Keys == reg.Keys
              && (forall id | id in reg :: inDeg[id] == |reg[id].dependencies|)
              && Mirrors(reg, reg.Keys, adj)
  {
    inDeg, adj, unknown := map[], map[], Circular;
    var todo := reg.Keys;
    while todo != {}
      invariant !unknown.UnknownDependency? && todo <= reg.Keys && inDeg.Keys == reg.Keys - todo
      invariant forall id | id in inDeg :: inDeg[id] == |reg[id].dependencies|
      invariant forall id, d | id in inDeg && d in reg[id].dependencies :: d in reg
      invariant Mirrors(reg, reg.Keys - todo, adj)
    {
      var id :| id in todo;
      ghost var read, adj0 := reg.Keys - todo, adj;
      inDeg, adj, unknown := AddDependencies(reg, id, inDeg, adj);
      if unknown.UnknownDependency? {
        return;
      }
      MirrorsOne(reg, read, adj0, adj, id);
      todo := todo - {id};
      assert reg.Keys - todo == read + {id};
    }
    assert reg.Keys - todo == reg.Keys;
  }

  // ---------------------------------------------------------------------------------------------
  // The queue
  // ---------------------------------------------------------------------------------------------

  datatype Entry = Entry(id: string, priority: int)

  ghost predicate Sorted(q: seq<Entry>) {
    forall i, j | 0 <= i < j < |q| :: q[i].priority <= q[j].priority
  }

  /** Sorting by priority; which of two equal priorities comes first is not promised. */
  method SortByPriority(q: seq<Entry>) returns (r: seq<Entry>)
    ensures Sorted(r) && multiset(r) == multiset(q)
  {
    r := Sorting.SortBy(q, (e: Entry) => e.priority);
  }

  /** The queue holds exactly the plugins `open`, each once and with its priority. */
  ghost predicate Holds(reg: Registry, q: seq<Entry>, open: set<string>) {
    && (forall i | 0 <= i < |q| :: q[i].id in open && q[i].id in reg && q[i].priority == reg[q[i].id].priority)
    && (forall i, j | 0 <= i < j < |q| :: q[i].id != q[j].id)
    && (forall id | id in open :: exists i :: 0 <= i < |q| && q[i].id == id)
  }

  lemma SortedHolds(reg: Registry, q: seq<Entry>, r: seq<Entry>, open: set<string>)
    requires Holds(reg, q, open) && multiset(r) == multiset(q)
    ensures Holds(reg, r, open)
  {
    forall i | 0 <= i < |r| ensures r[i] in q {
      assert r[i] in multiset(r);
    }
    forall i | 0 <= i < |q| ensures q[i] in r {
      assert q[i] in multiset(q);
    }
    forall i, j | 0 <= i < j < |r| ensures r[i].id != r[j].id {
      if r[i].id == r[j].id {
        var a :| 0 <= a < |q| && q[a] == r[i];
        var b :| 0 <= b < |q| && q[b] == r[j];
        assert r[i] == r[j];
        TwiceInSeq(r, i, j);
        OnceInSeq(reg, q, open, a);
      }
    }
    forall id | id in open ensures exists i :: 0 <= i < |r| && r[i].id == id {
      var a :| 0 <= a < |q| && q[a].id == id;
      var i :| 0 <= i < |r| && r[i] == q[a];
    }
  }

  lemma TwiceInSeq(r: seq<Entry>, i: nat, j: nat)
    requires i < j < |r| && r[i] == r[j]
    ensures multiset(r)[r[i]] >= 2
  {
    assert r == r[..i] + [r[i]] + r[i + 1..j] + [r[j]] + r[j + 1..];
  }

  lemma OnceInSeq(reg: Registry, q: seq<Entry>, open: set<string>, a: nat)
    requires Holds(reg, q, open) && a < |q|
    ensures multiset(q)[q[a]] == 1
  {
    assert q == q[..a] + [q[a]] + q[a + 1..];
    assert q[a] !in q[..a] && q[a] !in q[a + 1..];
  }

  lemma HoldsPush(reg: Registry, q: seq<Entry>, open: set<string>, id: string)
    requires Holds(reg, q, open) && id in reg && id !in open
    ensures Holds(reg, q + [Entry(id, reg[id].priority)], open + {id})
  {
    var r := q + [Entry(id, reg[id].priority)];
    forall x | x in open + {id} ensures exists i :: 0 <= i < |r| && r[i].id == x {
      if x == id {
        assert r[|q|].id == x;
      } else {
        var i :| 0 <= i < |q| && q[i].id == x;
        assert r[i].id == x;
      }
    }
  }

  lemma HoldsPop(reg: Registry, q: seq<Entry>, open: set<string>)
    requires Holds(reg, q, open) && q != []
    ensures Holds(reg, q[1..], open - {q[0].id})
  {
    forall x | x in open - {q[0].id} ensures exists i :: 0 <= i < |q[1..]| && q[1..][i].id == x {
      var i :| 0 <= i < |q| && q[i].id == x;
      assert q[1..][i - 1].id == x;
    }
  }

  // ---------------------------------------------------------------------------------------------
  // The loop
  // ---------------------------------------------------------------------------------------------

  /** The plugins outside `out` whose in-degree has dropped to zero. */
  function Zeros(inDeg: map<string, int>, out: set<string>): set<string> {
    set x | x in inDeg && x !in out && inDeg[x] == 0
  }

  ghost predicate CountsWaiting(reg: Registry, inDeg: map<string, int>, done: set<string>) {
    inDeg.Keys == reg.Keys && forall x | x in reg :: inDeg[x] == Waiting(reg[x].dependencies, done)
  }

  lemma ZerosAreReady(reg: Registry, inDeg: map<string, int>, done: set<string>)
    requires CountsWaiting(reg, inDeg, done)
    ensures forall x :: x in Zeros(inDeg, done) <==> Ready(reg, done, x)
  {
    forall x ensures x in Zeros(inDeg, done) <==> Ready(reg, done, x) {
      if x in reg {
        WaitingZero(reg[x].dependencies, done);
      }
    }
  }

  /** Everything the plugins in `done` depend on is in `done` as well. */
  ghost predicate ClosedUnder(reg: Registry, done: set<string>) {
    done <= reg.Keys && forall x, d | x in done && d in reg[x].dependencies :: d in done
  }

  /** The counts while the dependents of `cur` are visited: those in `seen` have one wait less per
      visit. */
  ghost predicate CountsWhile(reg: Registry, inDeg: map<string, int>, done: set<string>, seen: seq<string>) {
    && inDeg.Keys == reg.Keys
    && forall x | x in reg :: inDeg[x] == Waiting(reg[x].dependencies, done) - Times(seen, x)
  }

  lemma VisitOne(reg: Registry, adj: Adjacency, inDeg: map<string, int>, done: set<string>, cur: string, j: nat)
    requires Mirrors(reg, reg.Keys, adj) && j < |Next(adj, cur)|
    requires CountsWhile(reg, inDeg, done, Next(adj, cur)[..j]) && cur !in done
    ensures var y := Next(adj, cur)[j];
            && y in reg && inDeg[y] > 0
            && CountsWhile(reg, inDeg[y := inDeg[y] - 1], done, Next(adj, cur)[..j + 1])
  {
    var ys := Next(adj, cur);
    var y := ys[j];
    TimesMember(ys, y);
    TimesPrefix(ys, j, y);
    TimesPrefixLeq(ys, j + 1, y);
    assert Times(ys, y) == if y in reg then Times(reg[y].dependencies, cur) else 0;
    WaitingAfter(reg[y].dependencies, done, cur);
    forall x | x in reg && x != y ensures Times(ys[..j + 1], x) == Times(ys[..j], x) {
      TimesPrefix(ys, j, x);
    }
  }

  lemma VisitedAll(reg: Registry, adj: Adjacency, inDeg: map<string, int>, done: set<string>, cur: string)
    requires Mirrors(reg, reg.Keys, adj) && cur !in done
    requires CountsWhile(reg, inDeg, done, Next(adj, cur))
    ensures CountsWaiting(reg, inDeg, done + {cur})
  {
    forall x | x in reg ensures inDeg[x] == Waiting(reg[x].dependencies, done + {cur}) {
      WaitingAfter(reg[x].dependencies, done, cur);
      assert Times(Next(adj, cur), x) == Times(reg[x].dependencies, cur);
    }
  }

  /** Visiting the dependents of the plugin just loaded. */
  method VisitDependents(reg: Registry, adj: Adjacency, cur: string, ghost done: set<string>,
                         inDeg0: map<string, int>, queue0: seq<Entry>)
      returns (inDeg: map<string, int>, queue: seq<Entry>)
    requires Mirrors(reg, reg.Keys, adj) && CountsWaiting(reg, inDeg0, done)
    requires Ready(reg, done, cur) && ClosedUnder(reg, done)
    requires Holds(reg, queue0, Zeros(inDeg0, done + {cur}))
    ensures CountsWaiting(reg, inDeg, done + {cur})
    ensures Holds(reg, queue, Zeros(inDeg, done + {cur}))
  {
    inDeg, queue := inDeg0, queue0;
    var ys := Next(adj, cur);
    ghost var out := done + {cur};
    assert ys[..0] == [];
    assert CountsWhile(reg, inDeg, done, ys[..0]);
    hide Holds, Mirrors, CountsWhile, CountsWaiting, Ready, ClosedUnder, Next, Times, Waiting;
    for j := 0 to |ys|
      invariant CountsWhile(reg, inDeg, done, ys[..j])
      invariant Holds(reg, queue, Zeros(inDeg, out))
    {
      var next := ys[j];
      VisitOne(reg, adj, inDeg, done, cur, j);
      NotLoaded(reg, adj, done, cur, next);
      ghost var before := Zeros(inDeg, out);
      inDeg := inDeg[next := inDeg[next] - 1];
      if inDeg[next] == 0 {
        assert Zeros(inDeg, out) == before + {next};
        HoldsPush(reg, queue, before, next);
        queue := queue + [Entry(next, reg[next].priority)];
      } else {
        assert Zeros(inDeg, out) == before;
      }
    }
    assert ys[..|ys|] == ys;
    VisitedAll(reg, adj, inDeg, done, cur);
  }

  /** A dependent of a plugin that is being loaded is neither loaded nor that plugin itself. */
  lemma NotLoaded(reg: Registry, adj: Adjacency, done: set<string>, cur: string, y: string)
    requires Mirrors(reg, reg.Keys, adj) && Ready(reg, done, cur) && ClosedUnder(reg, done)
    requires y in Next(adj, cur)
    ensures y !in done + {cur}
  {
    TimesMember(Next(adj, cur), y);
    if y in reg {
      TimesMember(reg[y].dependencies, cur);
    }
  }

  lemma PickNext(reg: Registry, order: seq<string>, q: seq<Entry>)
    requires PicksGreedily(reg, order) && Distinct(order) && Elements(order) <= reg.Keys
    requires ClosedUnder(reg, Elements(order))
    requires q != [] && Sorted(q)
    requires Holds(reg, q, set x | x in reg && Ready(reg, Elements(order), x))
    ensures var order' := order + [q[0].id];
            && Ready(reg, Elements(order), q[0].id)
            && PicksGreedily(reg, order') && Distinct(order') && Elements(order') == Elements(order) + {q[0].id}
            && ClosedUnder(reg, Elements(order'))
  {
    var open := set x | x in reg && Ready(reg, Elements(order), x);
    var order' := order + [q[0].id];
    forall id | Ready(reg, Elements(order), id) ensures q[0].priority <= reg[id].priority {
      assert id in open;
      var i :| 0 <= i < |q| && q[i].id == id;
    }
    forall i | 0 <= i < |order'|
      ensures order'[..i] == if i < |order| then order[..i] else order {}
  }

  /** What holds between two picks. */
  ghost predicate Underway(reg: Registry, order: seq<string>, inDeg: map<string, int>, queue: seq<Entry>) {
    && PicksGreedily(reg, order) && Distinct(order) && ClosedUnder(reg, Elements(order))
    && CountsWaiting(reg, inDeg, Elements(order))
    && Sorted(queue) && Holds(reg, queue, Zeros(inDeg, Elements(order)))
  }

  /** One round: load the plugin at the head of the queue and visit its dependents. */
  method LoadNext(reg: Registry, adj: Adjacency, order0: seq<string>, inDeg0: map<string, int>, queue0: seq<Entry>)
      returns (order: seq<string>, inDeg: map<string, int>, queue: seq<Entry>)
    requires Mirrors(reg, reg.Keys, adj) && Underway(reg, order0, inDeg0, queue0) && queue0 != []
    ensures Underway(reg, order, inDeg, queue) && |order| == |order0| + 1
  {
    var cur := queue0[0].id;
    ghost var done := Elements(order0);
    ZerosAreReady(reg, inDeg0, done);
    assert Zeros(inDeg0, done) == set x | x in reg && Ready(reg, done, x);
    PickNext(reg, order0, queue0);
    HoldsPop(reg, queue0, Zeros(inDeg0, done));
    assert Zeros(inDeg0, done) - {cur} == Zeros(inDeg0, done + {cur});
    order := order0 + [cur];
    hide PicksGreedily, ClosedUnder, Distinct, Holds, CountsWaiting, Zeros, Mirrors, Ready;
    inDeg, queue := VisitDependents(reg, adj, cur, done, inDeg0, queue0[1..]);
    ghost var q := queue;
    queue := SortByPriority(queue);
    SortedHolds(reg, q, queue, Zeros(inDeg, Elements(order)));
  }

  lemma LoadedAtMost(reg: Registry, order: seq<string>)
    requires Distinct(order) && ClosedUnder(reg, Elements(order))
    ensures |order| <= |reg|
    ensures if |order| == |reg| then Elements(order) == reg.Keys else Elements(order) < reg.Keys
  {
    DistinctSize(order);
    SubsetSize(Elements(order), reg.Keys);
    assert |reg| == |reg.Keys|;
    if |order| == |reg| {
      SameSize(Elements(order), reg.Keys);
    } else {
      assert Elements(order) != reg.Keys;
    }
  }

  /** The whole sort. It fails only for an unknown dependency or a cycle, and never otherwise. */
  method Sort(reg: Registry) returns (r: SortResult)
    ensures r.Order? <==> AllKnown(reg) && Acyclic(reg)
    ensures r.Order? ==> IsLoadOrder(reg, r.order)
    ensures r.UnknownDependency? ==> r.id in reg && r.dep in reg[r.id].dependencies && r.dep !in reg
    ensures r.Circular? ==> AllKnown(reg) && !Acyclic(reg)
  {
    var inDeg, adj, unknown := BuildGraph(reg);
    if unknown.UnknownDependency? {
      return unknown;
    }
    var queue := InitialQueue(reg, inDeg);
    var order := [];
    StartsUnderway(reg, inDeg, queue);
    hide *;
    while queue != []
      invariant Underway(reg, order, inDeg, queue) && |order| <= |reg|
      decreases |reg| - |order|
    {
      order, inDeg, queue := LoadNext(reg, adj, order, inDeg, queue);
      Bounded(reg, order, inDeg, queue);
    }
    Finished(reg, order, inDeg);
    if |order| != |reg| {
      return Circular;
    }
    return Order(order);
  }

  lemma StartsUnderway(reg: Registry, inDeg: map<string, int>, queue: seq<Entry>)
    requires CountsWaiting(reg, inDeg, {}) && Sorted(queue) && Holds(reg, queue, Zeros(inDeg, {}))
    ensures Underway(reg, [], inDeg, queue)
  {
    assert Elements([]) == {};
  }

  /** When the queue runs empty, either all plugins are loaded or the rest is stuck in a cycle. */
  lemma Finished(reg: Registry, order: seq<string>, inDeg: map<string, int>)
    requires AllKnown(reg) && Underway(reg, order, inDeg, [])
    ensures if |order| == |reg| then IsLoadOrder(reg, order) && Acyclic(reg) else !Acyclic(reg)
  {
    hide Sorted, Holds, PicksGreedily, Distinct, ClosedUnder, CountsWaiting, Zeros, Acyclic, AllKnown, Elements;
    LoadedAtMost(reg, order);
    if |order| == |reg| {
      OrderedIsAcyclic(reg, order);
    } else {
      EmptyQueue(reg, Zeros(inDeg, Elements(order)));
      NothingReady(reg, inDeg, Elements(order));
    }
  }

  lemma Bounded(reg: Registry, order: seq<string>, inDeg: map<string, int>, queue: seq<Entry>)
    requires Underway(reg, order, inDeg, queue)
    ensures |order| <= |reg|
  {
    LoadedAtMost(reg, order);
  }

  lemma SameSize(a: set<string>, b: set<string>)
    requires a <= b && |a| == |b|
    ensures a == b
  {
    assert b == a + (b - a);
  }

  lemma BlockedWaits(reg: Registry, inDeg: map<string, int>, done: set<string>, x: string)
    requires AllKnown(reg) && CountsWaiting(reg, inDeg, done)
    requires x in reg && x !in done && x !in Zeros(inDeg, done)
    ensures WaitsFor(reg, reg.Keys - done, x)
  {
    WaitingZero(reg[x].dependencies, done);
    var d :| d in reg[x].dependencies && d !in done;
    assert d in reg.Keys - done;
  }

  lemma NothingReady(reg: Registry, inDeg: map<string, int>, done: set<string>)
    requires AllKnown(reg) && CountsWaiting(reg, inDeg, done) && done < reg.Keys
    requires Zeros(inDeg, done) == {}
    ensures !Acyclic(reg)
  {
    hide *;
    var r := reg.Keys - done;
    forall x | x in r ensures WaitsFor(reg, r, x) {
      BlockedWaits(reg, inDeg, done, x);
    }
    assert reg.Keys == done + r;
    assert r != {};
    StuckHasCycle(reg, r);
  }

  lemma EmptyQueue(reg: Registry, open: set<string>)
    requires Holds(reg, [], open)
    ensures open == {}
  {
  }

  method InitialQueue(reg: Registry, inDeg: map<string, int>) returns (queue: seq<Entry>)
    requires inDeg.Keys == reg.Keys
    requires forall id | id in reg :: inDeg[id] == |reg[id].dependencies|
    ensures CountsWaiting(reg, inDeg, {})
    ensures Sorted(queue) && Holds(reg, queue, Zeros(inDeg, {}))
  {
    queue := [];
    var todo := reg.Keys;
    while todo != {}
      invariant todo <= reg.Keys
      invariant Holds(reg, queue, Zeros(inDeg, todo))
    {
      var id :| id in todo;
      ghost var before := Zeros(inDeg, todo);
      todo := todo - {id};
      if inDeg[id] == 0 {
        HoldsPush(reg, queue, before, id);
        queue := queue + [Entry(id, reg[id].priority)];
        assert Zeros(inDeg, todo) == before + {id};
      } else {
        assert Zeros(inDeg, todo) == before;
      }
    }
    ghost var q := queue;
    queue := SortByPriority(queue);
    SortedHolds(reg, q, queue, Zeros(inDeg, {}));
    forall x | x in reg ensures Waiting(reg[x].dependencies, {}) == |reg[x].dependencies| {
      WaitingNothingDone(reg[x].dependencies);
    }
  }
}
