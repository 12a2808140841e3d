/** internal/service/host.go and internal/caddy/renderer.go: what a path route points to, and how
    clone, import and update keep it when upstreams get new ids. */
module Routes {
  import opened Sorting
  import opened Optional

  datatype Upstream = Upstream(id: nat, address: string, weight: int, order: int)

  datatype Route = Route(id: nat, path: string, upstream: Option<nat>, order: int)

  /** An upstream of a create or update request. */
  datatype Target = Target(address: string, weight: int)

  // ---------------------------------------------------------------------------------------------
  // The meaning of a route
  // ---------------------------------------------------------------------------------------------

  /** The last position of an id; the maps that the code builds keep the last entry too. */
  function Last(ups: seq<Upstream>, id: nat): (i: Option<nat>)
    ensures i.Some? ==> i.value < |ups| && ups[i.value].id == id
    ensures i.None? ==> forall j | 0 <= j < |ups| :: ups[j].id != id
    ensures i.Some? ==> forall j | i.value < j < |ups| :: ups[j].id != id
  {
    if ups == [] then None
    else if ups[|ups| - 1].id == id then Some(|ups| - 1)
    else Last(ups[..|ups| - 1], id)
  }

  /** The address a route is proxied to, if any. */
  function Resolve(ups: seq<Upstream>, ref: Option<nat>): Option<string> {
    if ref.None? then None
    else
      var i := Last(ups, ref.value);
      if i.None? then None else Some(ups[i.value].address)
  }

  ghost predicate DistinctIDs(ups: seq<Upstream>) {
    forall i, j | 0 <= i < j < |ups| :: ups[i].id != ups[j].id
  }

  lemma ResolveAt(ups: seq<Upstream>, i: nat)
    requires DistinctIDs(ups) && i < |ups|
    ensures Resolve(ups, Some(ups[i].id)) == Some(ups[i].address)
  {
  }

  /** The same routes, pointing to the same addresses; a route that points nowhere has no reference. */
  ghost predicate SameMeaning(ups: seq<Upstream>, routes: seq<Route>, ups': seq<Upstream>, routes': seq<Route>) {
    |routes'| == |routes| && forall n | 0 <= n < |routes| :: SameRoute(ups, routes[n], ups', routes'[n])
  }

  ghost predicate SameRoute(ups: seq<Upstream>, r: Route, ups': seq<Upstream>, r': Route) {
    && r'.path == r.path && r'.order == r.order
    && Resolve(ups', r'.upstream) == Resolve(ups, r.upstream)
    && (r'.upstream.None? <==> Resolve(ups, r.upstream).None?)
  }

  // ---------------------------------------------------------------------------------------------
  // Clone and import
  // ---------------------------------------------------------------------------------------------

  /** The copies that the database stored: same addresses in the same order, under ids of their own. */
  ghost predicate Copies(source: seq<Upstream>, created: seq<Upstream>) {
    |created| == |source| && DistinctIDs(created) &&
    forall i | 0 <= i < |source| :: created[i].address == source[i].address
  }

  /** Old id to new id; a repeated old id keeps its last entry. */
  method MapUpstreamIDs(source: seq<Upstream>, created: seq<Upstream>) returns (ids: map<nat, nat>)
    requires |created| == |source|
    ensures forall id :: id in ids <==> Last(source, id).Some?
    ensures forall id | id in ids :: ids[id] == created[Last(source, id).value].id
  {
    ids := map[];
    var i := 0;
    while i < |source|
      invariant 0 <= i <= |source|
      invariant forall id :: id in ids <==> Last(source[..i], id).Some?
      invariant forall id | id in ids :: ids[id] == created[Last(source[..i], id).value].id
    {
      ids := ids[source[i].id := created[i].id];
      assert source[..i + 1][..i] == source[..i];
      i := i + 1;
    }
    assert source[..i] == source;
  }

  lemma RemapOne(source: seq<Upstream>, created: seq<Upstream>, ref: nat)
    requires Copies(source, created)
    ensures Last(source, ref).Some? ==>
              Resolve(created, Some(created[Last(source, ref).value].id)) == Resolve(source, Some(ref))
    ensures Last(source, ref).None? ==> Resolve(source, Some(ref)) == None
  {
    if Last(source, ref).Some? {
      ResolveAt(created, Last(source, ref).value);
    }
  }

  /**
   * CloneHost and ImportAll insert the upstreams first, then the routes with the new ids of `newIDs`.
   * The copied routes mean what the originals meant, also when ids repeat in imported data.
   */
  method CopyRoutes(source: seq<Upstream>, created: seq<Upstream>, routes: seq<Route>, newIDs: seq<nat>)
    returns (copies: seq<Route>)
    requires Copies(source, created) && |newIDs| == |routes|
    ensures SameMeaning(source, routes, created, copies)
    ensures forall n | 0 <= n < |copies| :: copies[n].id == newIDs[n]
  {
    var ids := MapUpstreamIDs(source, created);
    copies := [];
    var n := 0;
    while n < |routes|
      invariant 0 <= n <= |routes| && |copies| == n
      invariant forall m | 0 <= m < n :: SameRoute(source, routes[m], created, copies[m]) && copies[m].id == newIDs[m]
    {
      var r := routes[n];
      var upstream := None;
      if r.upstream.Some? {
        RemapOne(source, created, r.upstream.value);
        if r.upstream.value in ids {
          upstream := Some(ids[r.upstream.value]);
        }
      }
      copies := copies + [Route(newIDs[n], r.path, upstream, r.order)];
      n := n + 1;
    }
  }

  /** Copying a copy gives the meaning of the original again. */
  lemma CopiesCompose(u0: seq<Upstream>, r0: seq<Route>, u1: seq<Upstream>, r1: seq<Route>,
      u2: seq<Upstream>, r2: seq<Route>)
    requires SameMeaning(u0, r0, u1, r1) && SameMeaning(u1, r1, u2, r2)
    ensures SameMeaning(u0, r0, u2, r2)
  {
    forall n | 0 <= n < |r0| ensures SameRoute(u0, r0[n], u2, r2[n]) {
      assert SameRoute(u0, r0[n], u1, r1[n]) && SameRoute(u1, r1[n], u2, r2[n]);
    }
  }

  // ---------------------------------------------------------------------------------------------
  // Update
  // ---------------------------------------------------------------------------------------------

  function Weight(w: int): int { if w < 1 then 1 else w }

  /** The upstreams of the request, as stored under `ids`. */
  ghost predicate Stores(targets: seq<Target>, created: seq<Upstream>) {
    |created| == |targets| && DistinctIDs(created) &&
    forall i | 0 <= i < |targets| ::
      && created[i].address == targets[i].address && created[i].weight == Weight(targets[i].weight)
      && created[i].order == i
  }

  method StoreTargets(targets: seq<Target>, ids: seq<nat>) returns (created: seq<Upstream>)
    requires |ids| == |targets| && forall i, j | 0 <= i < j < |ids| :: ids[i] != ids[j]
    ensures Stores(targets, created) && forall i | 0 <= i < |ids| :: created[i].id == ids[i]
  {
    created := [];
    var i := 0;
    while i < |targets|
      invariant 0 <= i <= |targets| && |created| == i
      invariant forall j | 0 <= j < i ::
                  created[j] == Upstream(ids[j], targets[j].address, Weight(targets[j].weight), j)
    {
      var weight := targets[i].weight;
      if weight < 1 {
        weight := 1;
      }
      created := created + [Upstream(ids[i], targets[i].address, weight, i)];
      i := i + 1;
    }
  }

  /** The target that an old reference moves to. */
  function Moved(before: seq<Upstream>, n: nat, ref: Option<nat>): (i: Option<nat>)
    ensures i.Some? ==> i.value < n && i.value < |before|
  {
    if ref.None? then None
    else
      var i := Last(before, ref.value);
      if i.Some? && i.value < n then i else None
  }

  /** A route that has moved points to the new upstream at its old index; any other route is as it was. */
  ghost predicate Remapped(before: seq<Upstream>, created: seq<Upstream>, r: Route, r': Route) {
    var i := Moved(before, |created|, r.upstream);
    r' == if i.Some? then r.(upstream := Some(created[i.value].id)) else r
  }

  method IndexUpstreams(before: seq<Upstream>) returns (index: map<nat, nat>)
    ensures forall id :: id in index <==> Last(before, id).Some?
    ensures forall id | id in index :: index[id] == Last(before, id).value
  {
    index := map[];
    var i := 0;
    while i < |before|
      invariant 0 <= i <= |before|
      invariant forall id :: id in index <==> Last(before[..i], id).Some?
      invariant forall id | id in index :: index[id] == Last(before[..i], id).value
    {
      index := index[before[i].id := i];
      assert before[..i + 1][..i] == before[..i];
      i := i + 1;
    }
    assert before[..i] == before;
  }

  /** `before` are the old upstreams by sort order, `created` the new ones. */
  method RemapRoutes(before: seq<Upstream>, created: seq<Upstream>, routes: seq<Route>) returns (remapped: seq<Route>)
    ensures |remapped| == |routes|
    ensures forall n | 0 <= n < |routes| :: Remapped(before, created, routes[n], remapped[n])
  {
    remapped := routes;
    if |before| > 0 && |created| > 0 {
      var index := IndexUpstreams(before);
      var n := 0;
      while n < |routes|
        invariant 0 <= n <= |routes| && |remapped| == |routes|
        invariant forall m | 0 <= m < n :: Remapped(before, created, routes[m], remapped[m])
        invariant forall m | n <= m < |routes| :: remapped[m] == routes[m]
      {
        var r := routes[n];
        if r.upstream.Some? {
          if r.upstream.value in index && index[r.upstream.value] < |created| {
            remapped := remapped[n := r.(upstream := Some(created[index[r.upstream.value]].id))];
          }
        }
        n := n + 1;
      }
    }
  }

  /**
   * After an update a route leads to the request's upstream at the index of its old one, if the request
   * has that many; otherwise to whatever its old reference means among the new upstreams.
   */
  lemma UpdateMeaning(before: seq<Upstream>, targets: seq<Target>, created: seq<Upstream>, r: Route, r': Route)
    requires Stores(targets, created) && Remapped(before, created, r, r')
    ensures
      var i := Moved(before, |targets|, r.upstream);
      Resolve(created, r'.upstream) ==
        if i.Some? then Some(targets[i.value].address) else Resolve(created, r.upstream)
    ensures r'.path == r.path && r'.order == r.order
  {
    var i := Moved(before, |targets|, r.upstream);
    if i.Some? {
      ResolveAt(created, i.value);
    }
  }

  /** No upstream has the id of the reference. */
  ghost predicate Foreign(ups: seq<Upstream>, ref: Option<nat>) {
    forall i | 0 <= i < |ups| :: ref != Some(ups[i].id)
  }

  lemma DanglesIffForeign(ups: seq<Upstream>, ref: Option<nat>)
    ensures Resolve(ups, ref) == None <==> Foreign(ups, ref)
  {
  }

  /** It leads nowhere exactly if it has no upstream to move to and its old reference is no new id. */
  lemma UpdateDanglesIff(before: seq<Upstream>, targets: seq<Target>, created: seq<Upstream>, r: Route, r': Route)
    requires Stores(targets, created) && Remapped(before, created, r, r')
    ensures Resolve(created, r'.upstream) == None <==>
              Moved(before, |targets|, r.upstream).None? && Foreign(created, r.upstream)
  {
    UpdateMeaning(before, targets, created, r, r');
    DanglesIffForeign(created, r.upstream);
  }

  /**
   * An update that leaves the addresses alone leaves the meaning of every route alone that led somewhere,
   * and of one that led nowhere exactly if its reference is no new id.
   */
  lemma UpdateKeepsMeaning(before: seq<Upstream>, targets: seq<Target>, created: seq<Upstream>, r: Route, r': Route)
    requires Stores(targets, created) && Remapped(before, created, r, r')
    requires |targets| == |before| && forall i | 0 <= i < |before| :: targets[i].address == before[i].address
    ensures Resolve(created, r'.upstream) == Resolve(before, r.upstream) <==>
              Resolve(before, r.upstream).Some? || Foreign(created, r.upstream)
  {
    UpdateMeaning(before, targets, created, r, r');
    DanglesIffForeign(created, r.upstream);
  }

  /** The upstreams of a host and one of its routes, before, between and behind a number of updates. */
  ghost predicate Updates(ups: seq<seq<Upstream>>, routes: seq<Route>) {
    |ups| == |routes| > 0 &&
    forall k, next | 0 <= k && next == k + 1 && next < |ups| ::
      Remapped(ups[k], ups[next], routes[k], routes[next])
  }

  /** In every run of updates a reference that dangles goes on dangling exactly if no update creates its id. */
  lemma {:induction false} DanglesForeverIff(ups: seq<seq<Upstream>>, routes: seq<Route>)
    requires Updates(ups, routes) && Resolve(ups[0], routes[0].upstream) == None
    ensures (forall k | 0 <= k < |ups| :: Resolve(ups[k], routes[k].upstream) == None) <==>
            (forall k | 0 <= k < |ups| :: Foreign(ups[k], routes[0].upstream))
  {
    DanglesIffForeign(ups[0], routes[0].upstream);
    if |ups| > 1 {
      assert Remapped(ups[0], ups[1], routes[0], routes[1]);
      DanglesIffForeign(ups[1], routes[1].upstream);
      assert routes[1].upstream == routes[0].upstream;
      var ups', routes' := ups[1..], routes[1..];
      if Foreign(ups[1], routes[0].upstream) {
        DanglesForeverIff(ups', routes');
        assert forall k | 1 <= k < |ups| :: ups[k] == ups'[k - 1] && routes[k] == routes'[k - 1];
      }
    }
  }

  /**
   * A route to the second of two upstreams; one update drops that upstream, the next adds another one. If the
   * database numbers the rows of the emptied table from 1 again, the dropped reference means the newcomer.
   */
  lemma DanglingRevives(r: Route)
    requires r.upstream == Some(2)
    ensures
      var first := [Upstream(1, "a:80", 1, 0), Upstream(2, "b:80", 1, 1)];
      var second := [Upstream(1, "a:80", 1, 0)];
      var third := [Upstream(1, "a:80", 1, 0), Upstream(2, "c:80", 1, 1)];
      && Stores([Target("a:80", 1)], second) && Stores([Target("a:80", 1), Target("c:80", 1)], third)
      && Updates([first, second, third], [r, r, r])
      && Resolve(first, r.upstream) == Some("b:80")
      && Resolve(second, r.upstream) == None
      && Resolve(third, r.upstream) == Some("c:80")
  {
    var a := Upstream(1, "a:80", 1, 0);
    var b := Upstream(2, "b:80", 1, 1);
    var c := Upstream(2, "c:80", 1, 1);
    ResolveAt([a, b], 1);
    ResolveAt([a, c], 1);
    assert Last([a], 2).None?;
  }

  /** Unlike clone and import, update leaves a reference to a dropped upstream in place. */
  lemma UpdateKeepsOrphan(before: seq<Upstream>, created: seq<Upstream>, r: Route, r': Route)
    requires Remapped(before, created, r, r')
    ensures r'.upstream.None? <==> r.upstream.None?
    ensures r'.upstream == r.upstream <==>
              Moved(before, |created|, r.upstream).None? ||
              r.upstream == Some(created[Moved(before, |created|, r.upstream).value].id)
  {
  }

  // ---------------------------------------------------------------------------------------------
  // Rendering
  // ---------------------------------------------------------------------------------------------

  datatype Directive =
    | Matcher(routeID: nat, path: string)
    | Proxy(routeID: nat, address: string)

  /** What the Caddyfile says about one route. */
  function RouteLines(ups: seq<Upstream>, r: Route): seq<Directive> {
    [Matcher(r.id, r.path)] +
    var a := Resolve(ups, r.upstream);
    if a.Some? then [Proxy(r.id, a.value)] else []
  }

  function Lines(ups: seq<Upstream>, routes: seq<Route>): seq<Directive> {
    if routes == [] then []
    else Lines(ups, routes[..|routes| - 1]) + RouteLines(ups, routes[|routes| - 1])
  }

  function OrderOf(r: Route): int { r.order }

  method MapUpstreams(ups: seq<Upstream>) returns (upstreams: map<nat, Upstream>)
    ensures forall id :: id in upstreams <==> Last(ups, id).Some?
    ensures forall id | id in upstreams :: upstreams[id] == ups[Last(ups, id).value]
  {
    upstreams := map[];
    var i := 0;
    while i < |ups|
      invariant 0 <= i <= |ups|
      invariant forall id :: id in upstreams <==> Last(ups[..i], id).Some?
      invariant forall id | id in upstreams :: upstreams[id] == ups[Last(ups[..i], id).value]
    {
      upstreams := upstreams[ups[i].id := ups[i]];
      assert ups[..i + 1][..i] == ups[..i];
      i := i + 1;
    }
    assert ups[..i] == ups;
  }

  method RenderRoutes(ups: seq<Upstream>, routes: seq<Route>) returns (out: seq<Directive>, ghost sorted: seq<Route>)
    ensures Ascends(sorted, OrderOf) && multiset(sorted) == multiset(routes)
    ensures out == Lines(ups, sorted)
  {
    var s := SortBy(routes, OrderOf);
    sorted := s;
    var upstreams := MapUpstreams(ups);
    out := [];
    var n := 0;
    while n < |s|
      invariant 0 <= n <= |s| && out == Lines(ups, s[..n])
    {
      var r := s[n];
      assert s[..n + 1][..n] == s[..n];
      out := out + [Matcher(r.id, r.path)];
      if r.upstream.Some? {
        if r.upstream.value in upstreams {
          out := out + [Proxy(r.id, upstreams[r.upstream.value].address)];
        }
      }
      n := n + 1;
    }
    assert s[..n] == s;
  }

  /** A proxy line stands for exactly the routes that resolve. */
  lemma {:induction false} LinesProxy(ups: seq<Upstream>, routes: seq<Route>, id: nat, a: string)
    ensures Proxy(id, a) in Lines(ups, routes) <==>
              exists n :: 0 <= n < |routes| && routes[n].id == id && Resolve(ups, routes[n].upstream) == Some(a)
  {
    if routes != [] {
      var n := |routes| - 1;
      var rest := routes[..n];
      LinesProxy(ups, rest, id, a);
      assert forall m | 0 <= m < n :: rest[m] == routes[m];
      if Proxy(id, a) in RouteLines(ups, routes[n]) {
        assert routes[n].id == id && Resolve(ups, routes[n].upstream) == Some(a);
      } else if m :| 0 <= m < |routes| && routes[m].id == id && Resolve(ups, routes[m].upstream) == Some(a) {
        assert m != n;
        assert rest[m].id == id && Resolve(ups, rest[m].upstream) == Some(a);
      }
    }
  }
}
