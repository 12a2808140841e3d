/** internal/plugin/manager.go: enabling and disabling plugins, the runtime guard, start and stop. */
module PluginManager {
  import opened TopoSort

  /** The nullable `enabled` column of a plugin_states row. */
  datatype Column = Null | Value(on: bool)

  type States = map<string, Column>

  /** What outlives a call: the persisted rows and the ids that the guard middleware blocks. */
  datatype Panel = Panel(states: States, guarded: set<string>)

  /** A request; `stored` says whether the database accepts the write, if the request gets that far. */
  datatype Op =
    | Enable(id: string, stored: bool)
    | Disable(id: string, stored: bool)
    | SetSidebar(id: string, stored: bool)

  datatype Reply =
    | Done
    | NotFound
    | DependencyOff(dep: string)
    | NeededBy(other: string)
    | NotStored

  datatype Call =
    | Inited(id: string)
    | Started(id: string, ok: bool)
    | Stopped(id: string, ok: bool)

  predicate Enabled(states: States, id: string) {
    id in states && states[id] == Value(true)
  }

  // ---------------------------------------------------------------------------------------------
  // One request as a step
  // ---------------------------------------------------------------------------------------------

  ghost predicate DependenciesOn(reg: Registry, states: States, id: string)
    requires id in reg
  {
    forall d | d in reg[id].dependencies :: Enabled(states, d)
  }

  /** Another enabled plugin names this one as a dependency. */
  ghost predicate Leans(reg: Registry, states: States, other: string, id: string) {
    other in reg && other != id && Enabled(states, other) && id in reg[other].dependencies
  }

  ghost predicate Needed(reg: Registry, states: States, id: string) {
    exists other :: Leans(reg, states, other, id)
  }

  /** The request passes every check of Disable, so the plugin is stopped and guarded. */
  ghost predicate MayDisable(reg: Registry, states: States, id: string) {
    id in reg && Enabled(states, id) && !Needed(reg, states, id)
  }

  ghost function Step(reg: Registry, p: Panel, op: Op): (Panel, bool) {
    match op
    case Enable(id, stored) =>
      if id !in reg then (p, false)
      else if Enabled(p.states, id) then (p, true)
      else if DependenciesOn(reg, p.states, id) && stored then
        (Panel(p.states[id := Value(true)], p.guarded - {id}), true)
      else (p, false)
    case Disable(id, stored) =>
      if id in reg && !Enabled(p.states, id) then (p, true)
      else if MayDisable(reg, p.states, id) then
        (Panel(if stored then p.states[id := Value(false)] else p.states, p.guarded + {id}), stored)
      else (p, false)
    case SetSidebar(id, stored) =>
      if id !in reg || !stored then (p, false)
      else if id in p.states then (p, true)
      else (p.(states := p.states[id := Value(true)]), true)  // the row is created with the column's default
  }

  ghost function Run(reg: Registry, p: Panel, ops: seq<Op>): Panel
    decreases |ops|
  {
    if ops == [] then p else Run(reg, Step(reg, p, ops[0]).0, ops[1..])
  }

  // ---------------------------------------------------------------------------------------------
  // What every run keeps
  // ---------------------------------------------------------------------------------------------

  /** Enabled plugins have all their dependencies enabled. */
  ghost predicate Closed(reg: Registry, states: States) {
    forall id, d | id in reg && Enabled(states, id) && d in reg[id].dependencies :: Enabled(states, d)
  }

  /** A plugin that is not persisted as enabled is blocked. */
  ghost predicate GuardCovers(reg: Registry, p: Panel) {
    forall id | id in reg && !Enabled(p.states, id) :: id in p.guarded
  }

  ghost predicate HasRows(reg: Registry, states: States) {
    forall id | id in reg :: id in states
  }

  /** A sidebar request that creates a row, and so enables a plugin whose dependencies may be off. */
  ghost predicate EnablesUnchecked(reg: Registry, p: Panel, op: Op) {
    && op.SetSidebar? && op.stored && op.id in reg && op.id !in p.states
    && exists d :: d in reg[op.id].dependencies && d != op.id && !Enabled(p.states, d)
  }

  lemma StepClosed(reg: Registry, p: Panel, op: Op)
    requires Closed(reg, p.states)
    ensures Closed(reg, Step(reg, p, op).0.states) <==> !EnablesUnchecked(reg, p, op)
  {
    var q := Step(reg, p, op).0;
    if EnablesUnchecked(reg, p, op) {
      var d :| d in reg[op.id].dependencies && d != op.id && !Enabled(p.states, d);
      assert Enabled(q.states, op.id) && !Enabled(q.states, d);
    } else {
      forall id, d | id in reg && Enabled(q.states, id) && d in reg[id].dependencies
        ensures Enabled(q.states, d)
      {
        if Enabled(p.states, id) {
          assert Enabled(p.states, d);
          if op.Disable? && d == op.id && id != d {
            assert Leans(reg, p.states, id, d);
          }
        } else if op.Enable? && q != p {
          assert Enabled(p.states, d);
        }
      }
    }
  }

  /** The guard covers whatever is persisted as off, also when the write of Disable fails. */
  lemma StepCovers(reg: Registry, p: Panel, op: Op)
    requires GuardCovers(reg, p)
    ensures GuardCovers(reg, Step(reg, p, op).0)
  {
    hide Needed;
  }

  /**
   * Every sequence of requests, with database failures anywhere, keeps the enabled set closed under
   * dependencies and everything else blocked.
   */
  lemma {:induction false} RunSafe(reg: Registry, p: Panel, ops: seq<Op>)
    requires Closed(reg, p.states) && GuardCovers(reg, p)
    requires HasRows(reg, p.states) || forall op | op in ops :: !op.SetSidebar?
    ensures Closed(reg, Run(reg, p, ops).states) && GuardCovers(reg, Run(reg, p, ops))
    decreases |ops|
  {
    if ops != [] {
      var q := Step(reg, p, ops[0]).0;
      StepClosed(reg, p, ops[0]);
      StepCovers(reg, p, ops[0]);
      RunSafe(reg, q, ops[1..]);
    }
  }

  /**
   * A new plugin on an existing installation has no row: a sidebar request enables it while its
   * dependency stays off.
   */
  lemma SidebarEnablesNewPlugin()
    ensures
      var reg: Registry := map["docker" := Metadata([], 10), "php" := Metadata(["docker"], 16)];
      var p := Panel(map["docker" := Value(false)], {"docker", "php"});
      && Closed(reg, p.states) && GuardCovers(reg, p)
      && !Closed(reg, Step(reg, p, SetSidebar("php", true)).0.states)
  {
    var reg: Registry := map["docker" := Metadata([], 10), "php" := Metadata(["docker"], 16)];
    var p := Panel(map["docker" := Value(false)], {"docker", "php"});
    assert "docker" in reg["php"].dependencies && !Enabled(p.states, "docker");
    assert EnablesUnchecked(reg, p, SetSidebar("php", true));
    StepClosed(reg, p, SetSidebar("php", true));
  }

  // ---------------------------------------------------------------------------------------------
  // Where guard and database part
  // ---------------------------------------------------------------------------------------------

  /** Exactly the plugins that are off are blocked. */
  ghost predicate Exact(reg: Registry, p: Panel) {
    forall id | id in reg :: id in p.guarded <==> !Enabled(p.states, id)
  }

  /** The step changes the guard or the row, but not both. */
  ghost predicate HalfDone(reg: Registry, p: Panel, op: Op) {
    || (op.Disable? && MayDisable(reg, p.states, op.id) && !op.stored)
    || (op.SetSidebar? && op.stored && op.id in reg && op.id !in p.states)
  }

  lemma StepExact(reg: Registry, p: Panel, op: Op)
    requires Exact(reg, p)
    ensures Exact(reg, Step(reg, p, op).0) <==> !HalfDone(reg, p, op)
  {
    hide Needed;
    var q := Step(reg, p, op).0;
    if HalfDone(reg, p, op) {
      assert op.id in reg && op.id in q.guarded && Enabled(q.states, op.id);
    }
  }

  ghost predicate Stale(p: Panel, id: string) {
    Enabled(p.states, id) && id in p.guarded
  }

  /** Enable reports success for a plugin that it leaves blocked, exactly when that plugin was stale. */
  lemma EnableOpens(reg: Registry, p: Panel, id: string, stored: bool)
    requires Step(reg, p, Enable(id, stored)).1
    ensures
      var q := Step(reg, p, Enable(id, stored)).0;
      Enabled(q.states, id) && (id in q.guarded <==> Stale(p, id))
  {
  }

  /** Disable reports success for a known plugin exactly if it is off already, or nobody needs it and the write
      succeeds. */
  lemma DisableSucceedsIff(reg: Registry, p: Panel, id: string, stored: bool)
    ensures Step(reg, p, Disable(id, stored)).1 <==>
              id in reg && (!Enabled(p.states, id) || (!Needed(reg, p.states, id) && stored))
  {
    hide Needed;
  }

  /** After a successful Disable the plugin is off; and blocked, as the guard covered it before. */
  lemma DisableCloses(reg: Registry, p: Panel, id: string, stored: bool)
    requires GuardCovers(reg, p) && Step(reg, p, Disable(id, stored)).1
    ensures var q := Step(reg, p, Disable(id, stored)).0; !Enabled(q.states, id) && id in q.guarded
  {
    hide Needed;
  }

  /** An enabled plugin that nobody needs is blocked by Disable in any case, and stays on only if the write fails. */
  lemma DisableBlocks(reg: Registry, p: Panel, id: string, stored: bool)
    requires id in reg && Enabled(p.states, id)
    ensures
      var q := Step(reg, p, Disable(id, stored)).0;
      if Needed(reg, p.states, id) then q == p
      else id in q.guarded && (Enabled(q.states, id) <==> !stored)
  {
    hide Needed;
  }

  /** Enable reports success exactly if the plugin is on already, or its dependencies are and the write succeeds. */
  lemma EnableSucceedsIff(reg: Registry, p: Panel, id: string, stored: bool)
    ensures Step(reg, p, Enable(id, stored)).1 <==>
              id in reg && (Enabled(p.states, id) || (DependenciesOn(reg, p.states, id) && stored))
    ensures !Step(reg, p, Enable(id, stored)).1 ==> Step(reg, p, Enable(id, stored)).0 == p
  {
  }

  /** No request touches row or guard of another plugin. */
  lemma OthersKept(reg: Registry, p: Panel, op: Op, other: string)
    requires other != op.id
    ensures
      var q := Step(reg, p, op).0;
      && (other in q.guarded <==> other in p.guarded)
      && (other in q.states <==> other in p.states)
      && (other in p.states ==> q.states[other] == p.states[other])
  {
    hide Needed;
  }

  ghost predicate Aimed(ops: seq<Op>, id: string) { exists op :: op in ops && op.id == id }

  /** In every run, a plugin that no request names keeps its row and its guard. */
  lemma {:induction false} UnnamedKept(reg: Registry, p: Panel, ops: seq<Op>, other: string)
    requires !Aimed(ops, other)
    ensures
      var q := Run(reg, p, ops);
      && (other in q.guarded <==> other in p.guarded)
      && (other in q.states <==> other in p.states)
      && (other in p.states ==> q.states[other] == p.states[other])
    decreases |ops|
  {
    hide Needed, DependenciesOn, Step;
    if ops != [] {
      assert ops[0] in ops && forall op | op in ops[1..] :: op in ops;
      OthersKept(reg, p, ops[0], other);
      UnnamedKept(reg, Step(reg, p, ops[0]).0, ops[1..], other);
    }
  }

  lemma StaleStep(reg: Registry, p: Panel, op: Op, id: string)
    requires Stale(p, id) && op != Disable(id, true)
    ensures Stale(Step(reg, p, op).0, id)
  {
  }

  /** No request but a stored Disable of the plugin itself ends the stale state. */
  lemma {:induction false} StaleStays(reg: Registry, p: Panel, ops: seq<Op>, id: string)
    requires Stale(p, id) && forall op | op in ops :: op != Disable(id, true)
    ensures Stale(Run(reg, p, ops), id)
    decreases |ops|
  {
    hide Needed, DependenciesOn, Step;
    if ops != [] {
      assert ops[0] in ops;
      StaleStep(reg, p, ops[0], id);
      forall op | op in ops[1..] ensures op != Disable(id, true) { assert op in ops; }
      StaleStays(reg, Step(reg, p, ops[0]).0, ops[1..], id);
    }
  }

  /** A Disable whose write fails: the Enable that follows reports success, and the plugin stays blocked. */
  lemma StaleExample()
    ensures
      var reg: Registry := map["docker" := Metadata([], 10)];
      var p := Panel(map["docker" := Value(true)], {});
      var off := Step(reg, p, Disable("docker", false));
      var on := Step(reg, off.0, Enable("docker", true));
      && Exact(reg, p) && !off.1 && on.1
      && Enabled(on.0.states, "docker") && "docker" in on.0.guarded
  {
    var reg: Registry := map["docker" := Metadata([], 10)];
    var p := Panel(map["docker" := Value(true)], {});
    forall other ensures !Leans(reg, p.states, other, "docker") {}
    var off := Step(reg, p, Disable("docker", false));
    assert Stale(off.0, "docker");
    EnableOpens(reg, off.0, "docker", true);
  }

  /** A stored Disable and an Enable repair a stale plugin that nothing needs. */
  lemma {:induction false} StaleRepaired(reg: Registry, p: Panel, id: string)
    requires id in reg && Stale(p, id) && Closed(reg, p.states) && !Needed(reg, p.states, id)
    requires id !in reg[id].dependencies
    ensures
      var q := Run(reg, p, [Disable(id, true), Enable(id, true)]);
      Enabled(q.states, id) && id !in q.guarded
  {
    var off := Step(reg, p, Disable(id, true)).0;
    forall d | d in reg[id].dependencies ensures Enabled(off.states, d) {
      assert Enabled(p.states, d);
    }
    var on := Step(reg, off, Enable(id, true)).0;
    assert [Disable(id, true), Enable(id, true)][1..] == [Enable(id, true)];
    assert Run(reg, off, [Enable(id, true)]) == Run(reg, on, []);
  }

  // ---------------------------------------------------------------------------------------------
  // Fresh installations
  // ---------------------------------------------------------------------------------------------

  predicate OffByDefault(id: string) {
    id in {"ai", "appstore", "database", "docker", "filemanager", "firewall", "cronjob", "supervisor"}
  }

  function DefaultRow(id: string): Column {
    Value(!OffByDefault(id))
  }

  ghost function Seeded(reg: Registry, states: States): States {
    if states != map[] then states
    else map id | id in reg :: DefaultRow(id)
  }

  lemma SeededRow(reg: Registry, id: string)
    requires id in reg
    ensures Enabled(Seeded(reg, map[]), id) <==> !OffByDefault(id)
  {
  }

  /** The defaults are closed exactly when no plugin that starts enabled needs one that does not. */
  lemma SeedClosed(reg: Registry)
    ensures HasRows(reg, Seeded(reg, map[]))
    ensures Closed(reg, Seeded(reg, map[])) <==>
              forall id, d | id in reg && !OffByDefault(id) && d in reg[id].dependencies ::
                d in reg && !OffByDefault(d)
  {
    hide Seeded;
    forall id | id in reg ensures id in Seeded(reg, map[]) && (Enabled(Seeded(reg, map[]), id) <==> !OffByDefault(id)) {
      assert id in Seeded(reg, map[]) by { SeededHas(reg, id); }
      SeededRow(reg, id);
    }
    forall d | d !in reg ensures !Enabled(Seeded(reg, map[]), d) { SeededHas(reg, d); }
  }

  lemma SeededHas(reg: Registry, id: string)
    ensures id in Seeded(reg, map[]) <==> id in reg
  {
  }

  /** The php plugin of the repository starts enabled, and needs docker, which does not. */
  lemma SeedLeavesPhpOpen()
    ensures
      var reg: Registry := map["docker" := Metadata([], 10), "php" := Metadata(["docker"], 16)];
      !Closed(reg, Seeded(reg, map[]))
  {
    var reg: Registry := map["docker" := Metadata([], 10), "php" := Metadata(["docker"], 16)];
    assert "php" in reg && !OffByDefault("php") && OffByDefault("docker");
    assert "docker" in reg["php"].dependencies;
    SeedClosed(reg);
  }

  /** The plugins that the program registers all start closed. */
  lemma SeedClosesShipped()
    ensures
      var reg: Registry := map[
        "docker" := Metadata([], 10), "appstore" := Metadata(["docker"], 60), "filemanager" := Metadata([], 40),
        "database" := Metadata(["docker"], 15), "monitoring" := Metadata([], 50), "firewall" := Metadata([], 45),
        "cronjob" := Metadata([], 50), "supervisor" := Metadata([], 50), "ai" := Metadata([], 30)];
      Closed(reg, Seeded(reg, map[]))
  {
    var reg: Registry := map[
      "docker" := Metadata([], 10), "appstore" := Metadata(["docker"], 60), "filemanager" := Metadata([], 40),
      "database" := Metadata(["docker"], 15), "monitoring" := Metadata([], 50), "firewall" := Metadata([], 45),
      "cronjob" := Metadata([], 50), "supervisor" := Metadata([], 50), "ai" := Metadata([], 30)];
    forall id | id in reg && !OffByDefault(id) ensures reg[id].dependencies == [] {
      assert id == "monitoring";
    }
    SeedClosed(reg);
  }

  // ---------------------------------------------------------------------------------------------
  // Start and stop follow the load order
  // ---------------------------------------------------------------------------------------------

  function Active(order: seq<string>, states: States): seq<string> {
    if order == [] then []
    else (if Enabled(states, order[0]) then [order[0]] else []) + Active(order[1..], states)
  }

  function Start(id: string, failing: set<string>): Call { Started(id, id !in failing) }

  function Stop(id: string, failing: set<string>): Call { Stopped(id, id !in failing) }

  /** StartAll gives up at the first plugin that fails. */
  function Starts(ids: seq<string>, failing: set<string>): seq<Call> {
    if ids == [] then []
    else [Start(ids[0], failing)] + if ids[0] in failing then [] else Starts(ids[1..], failing)
  }

  function Stops(ids: seq<string>, failing: set<string>): seq<Call> {
    if ids == [] then [] else Stops(ids[1..], failing) + [Stop(ids[0], failing)]
  }

  lemma ActiveStep(order: seq<string>, states: States, i: nat)
    requires i < |order|
    ensures Active(order[i..], states) ==
            if Enabled(states, order[i]) then [order[i]] + Active(order[i + 1..], states)
            else Active(order[i + 1..], states)
  {
    assert order[i..][1..] == order[i + 1..];
  }

  lemma StartsStep(x: string, ids: seq<string>, failing: set<string>)
    ensures Starts([x] + ids, failing) == [Start(x, failing)] + if x in failing then [] else Starts(ids, failing)
  {
    assert ([x] + ids)[1..] == ids;
  }

  lemma StopsStep(x: string, ids: seq<string>, failing: set<string>)
    ensures Stops([x] + ids, failing) == Stops(ids, failing) + [Stop(x, failing)]
  {
    assert ([x] + ids)[1..] == ids;
  }

  lemma {:induction false} ActiveMember(order: seq<string>, states: States, x: string)
    ensures x in Active(order, states) <==> x in order && Enabled(states, x)
  {
    if order != [] {
      ActiveMember(order[1..], states, x);
      assert x in order <==> x == order[0] || x in order[1..];
    }
  }

  lemma {:induction false} ActiveOrder(order: seq<string>, states: States, x: string, y: string)
    requires x in order && y in order && Pos(order, x) < Pos(order, y)
    requires Enabled(states, x) && Enabled(states, y)
    ensures x in Active(order, states) && y in Active(order, states)
    ensures Pos(Active(order, states), x) < Pos(Active(order, states), y)
  {
    ActiveMember(order, states, x);
    ActiveMember(order, states, y);
    var rest := Active(order[1..], states);
    if order[0] == x {
      assert Active(order, states)[0] == x;
    } else {
      ActiveOrder(order[1..], states, x, y);
      if Enabled(states, order[0]) {
        assert Active(order, states)[1..] == rest;
      } else {
        assert Active(order, states) == rest;
      }
    }
  }

  lemma {:induction false} StartsAt(ids: seq<string>, failing: set<string>, i: nat, j: nat)
    requires j < i < |Starts(ids, failing)|
    ensures |Starts(ids, failing)| <= |ids|
    ensures Starts(ids, failing)[i].id == ids[i] && Starts(ids, failing)[i].Started?
    ensures Starts(ids, failing)[j] == Started(ids[j], true)
  {
    if i > 1 {
      StartsAt(ids[1..], failing, i - 1, if j == 0 then 0 else j - 1);
    } else {
      StartsSize(ids[1..], failing);
    }
  }

  lemma {:induction false} StartsSize(ids: seq<string>, failing: set<string>)
    ensures |Starts(ids, failing)| <= |ids|
    ensures (forall x | x in ids :: x !in failing) ==> |Starts(ids, failing)| == |ids|
    ensures forall i | 0 <= i < |Starts(ids, failing)| ::
              Starts(ids, failing)[i] == Start(ids[i], failing)
  {
    if ids != [] && ids[0] !in failing {
      StartsSize(ids[1..], failing);
    }
  }

  /** Whatever StartAll starts, its dependencies were started before it and did not fail. */
  lemma StartsDependenciesFirst(reg: Registry, order: seq<string>, states: States, failing: set<string>,
      i: nat, d: string)
    requires IsLoadOrder(reg, order) && Closed(reg, states)
    requires i < |Starts(Active(order, states), failing)|
    requires var id := Starts(Active(order, states), failing)[i].id; id in reg && d in reg[id].dependencies
    ensures d in Active(order, states)
    ensures var j := Pos(Active(order, states), d);
            j < i && Starts(Active(order, states), failing)[j] == Started(d, true)
  {
    var ids := Active(order, states);
    StartsSize(ids, failing);
    var id := ids[i];
    ActiveMember(order, states, id);
    DependencyEarlier(reg, order, id, d);
    ActiveOrder(order, states, d, id);
    FirstPos(ids, i);
    StartsAt(ids, failing, i, Pos(ids, d));
  }

  lemma {:induction false} FirstPos(ids: seq<string>, i: nat)
    requires i < |ids|
    ensures Pos(ids, ids[i]) <= i
  {
    if ids[0] != ids[i] {
      FirstPos(ids[1..], i - 1);
    }
  }

  lemma {:induction false} StopsAt(ids: seq<string>, failing: set<string>, k: nat)
    requires k < |ids|
    ensures |Stops(ids, failing)| == |ids| && Stops(ids, failing)[|ids| - 1 - k] == Stop(ids[k], failing)
  {
    if k > 0 {
      StopsAt(ids[1..], failing, k - 1);
    } else if |ids| > 1 {
      StopsAt(ids[1..], failing, 0);
    }
  }

  lemma DependencyOn(reg: Registry, states: States, id: string, d: string)
    requires Closed(reg, states) && id in reg && Enabled(states, id) && d in reg[id].dependencies
    ensures Enabled(states, d)
  {
  }

  /** StopAll stops every enabled plugin, and each one after the enabled plugins that depend on it. */
  lemma StopsDependentsFirst(reg: Registry, order: seq<string>, states: States, failing: set<string>,
      id: string, d: string) returns (i: nat, j: nat)
    requires IsLoadOrder(reg, order) && Closed(reg, states)
    requires id in reg && Enabled(states, id) && d in reg[id].dependencies
    ensures i < j < |Stops(Active(order, states), failing)|
    ensures Stops(Active(order, states), failing)[i] == Stop(id, failing)
    ensures Stops(Active(order, states), failing)[j] == Stop(d, failing)
  {
    hide IsLoadOrder, Closed, Stops, Active;
    DependencyOn(reg, states, id, d);
    var ids := Active(order, states);
    DependencyEarlier(reg, order, id, d);
    ActiveOrder(order, states, d, id);
    StopsAt(ids, failing, Pos(ids, id));
    StopsAt(ids, failing, Pos(ids, d));
    i, j := |ids| - 1 - Pos(ids, id), |ids| - 1 - Pos(ids, d);
  }

  // ---------------------------------------------------------------------------------------------
  // The manager
  // ---------------------------------------------------------------------------------------------

  datatype InitReply =
    | Ready
    | Unsorted(why: SortResult)
    | NoDataDir(id: string)
    | Broken(id: string)

  /** The plugin stops InitAll: its directory cannot be made, or it is enabled and its Init fails. */
  predicate Fatal(states: States, noDir: set<string>, failing: set<string>, id: string) {
    id in noDir || (Enabled(states, id) && id in failing)
  }

  function Inits(order: seq<string>): seq<Call> {
    seq(|order|, i requires 0 <= i < |order| => Inited(order[i]))
  }

  function OffIn(states: States, ids: set<string>): set<string> {
    set id | id in ids && !Enabled(states, id)
  }

  lemma OffStep(states: States, order: seq<string>, i: nat)
    requires i < |order|
    ensures OffIn(states, Elements(order[..i + 1])) ==
            OffIn(states, Elements(order[..i])) + if Enabled(states, order[i]) then {} else {order[i]}
  {
    assert order[..i + 1] == order[..i] + [order[i]];
    assert Elements(order[..i + 1]) == Elements(order[..i]) + {order[i]};
  }

  class Manager {
    var plugins: Registry
    var order: seq<string>
    var disabled: set<string>
    var states: States       // the plugin_states table
    var calls: seq<Call>     // what the plugins were asked to do, oldest first

    constructor (rows: States)
      ensures plugins == map[] && order == [] && disabled == {} && states == rows && calls == []
    {
      plugins, order, disabled, states, calls := map[], [], {}, rows, [];
    }

    ghost function View(): Panel
      reads this
    {
      Panel(states, disabled)
    }

    method Register(id: string, meta: Metadata) returns (ok: bool)
      modifies `plugins
      ensures ok <==> id != "" && id !in old(plugins)
      ensures plugins == if ok then old(plugins)[id := meta] else old(plugins)
    {
      if id == "" || id in plugins {
        return false;
      }
      plugins := plugins[id := meta];
      return true;
    }

    method SeedDefaultStates()
      modifies `states
      ensures states == Seeded(plugins, old(states))
    {
      if states != map[] {
        return;
      }
      var todo := plugins.Keys;
      while todo != {}
        invariant todo <= plugins.Keys && states.Keys == plugins.Keys - todo
        invariant forall id | id in states :: states[id] == DefaultRow(id)
      {
        var id :| id in todo;
        states := states[id := DefaultRow(id)];
        todo := todo - {id};
      }
    }

    /** `noDir` and `failing` are the plugins whose data directory or Init fails in this start. */
    method InitAll(noDir: set<string>, failing: set<string>) returns (r: InitReply)
      modifies `order, `states, `disabled, `calls
      ensures r.Unsorted? <==> !(AllKnown(plugins) && Acyclic(plugins))
      ensures r.Unsorted? ==>
                order == old(order) && states == old(states) && disabled == old(disabled) && calls == old(calls)
      ensures !r.Unsorted? ==> IsLoadOrder(plugins, order) && states == Seeded(plugins, old(states))
      ensures r.Ready? ==>
                && (forall id | id in plugins :: !Fatal(states, noDir, failing, id))
                && disabled == old(disabled) + OffIn(states, plugins.Keys)
                && calls == old(calls) + Inits(order)
      ensures r.Ready? ==> GuardCovers(plugins, View()) && (old(disabled) == {} ==> Exact(plugins, View()))
      ensures r.NoDataDir? || r.Broken? ==> InitStoppedAt(old(disabled), noDir, failing, r.id)
    {
      hide IsLoadOrder, AllKnown, Acyclic;
      var sorted := Sort(plugins);
      if !sorted.Order? {
        return Unsorted(sorted);
      }
      order := sorted.order;
      SeedDefaultStates();
      r := InitEach(noDir, failing);
      LoadsAll(plugins, order);
    }

    /** The Init loop. */
    method InitEach(noDir: set<string>, failing: set<string>) returns (r: InitReply)
      modifies `disabled, `calls
      ensures r.Ready? ==>
                && (forall id | id in order :: !Fatal(states, noDir, failing, id))
                && disabled == old(disabled) + OffIn(states, Elements(order))
                && calls == old(calls) + Inits(order)
      ensures !r.Ready? ==> (r.NoDataDir? || r.Broken?) && InitStoppedAt(old(disabled), noDir, failing, r.id)
    {
      hide Inits, OffIn, Elements, Fatal;
      assert disabled == old(disabled) + OffIn(states, Elements(order[..0])) by { OffNone(states, order); }
      assert calls == old(calls) + Inits(order[..0]) by { InitNone(order); }
      var i := 0;
      while i < |order|
        invariant 0 <= i <= |order|
        invariant forall j | 0 <= j < i :: !Fatal(states, noDir, failing, order[j])
        invariant disabled == old(disabled) + OffIn(states, Elements(order[..i]))
        invariant calls == old(calls) + Inits(order[..i])
      {
        var id := order[i];
        var enabled := Enabled(states, id);
        OffStep(states, order, i);
        InitStep(order, i);
        if !enabled {
          disabled := disabled + {id};
        }
        assert disabled == old(disabled) + OffIn(states, Elements(order[..i + 1]));
        if id in noDir {
          FatalDir(states, noDir, failing, id);
          return NoDataDir(id);
        }
        calls := calls + [Inited(id)];
        if id in failing && enabled {
          FatalInit(states, noDir, failing, id);
          assert order[i] == id && Fatal(states, noDir, failing, id);
          return Broken(id);
        }
        NotFatal(states, noDir, failing, id);
        i := i + 1;
      }
      assert order[..i] == order;
      return Ready;
    }

    /** InitAll gave up at the first plugin that stops it; the guard covers everything up to that one. */
    ghost predicate InitStoppedAt(before: set<string>, noDir: set<string>, failing: set<string>, id: string)
      reads this
    {
      exists i :: 0 <= i < |order| && order[i] == id && Fatal(states, noDir, failing, id)
               && (forall j | 0 <= j < i :: !Fatal(states, noDir, failing, order[j]))
               && disabled == before + OffIn(states, Elements(order[..i + 1]))
    }

    /** `ok` is whether the write succeeds, `starts` whether the plugin's own Start does. */
    method Enable(id: string, ok: bool, starts: bool) returns (r: Reply)
      modifies `states, `disabled, `calls
      ensures (View(), r.Done?) == Step(plugins, old(View()), Op.Enable(id, ok))
      ensures r.Done? ==> Enabled(states, id) && (id in disabled <==> old(Enabled(states, id) && id in disabled))
      ensures calls == if View() == old(View()) then old(calls) else old(calls) + [Started(id, starts)]
      ensures r.NotFound? <==> id !in plugins
      ensures r.DependencyOff? ==> id in plugins && r.dep in plugins[id].dependencies && !Enabled(states, r.dep)
      ensures !r.NeededBy?
    {
      if id !in plugins {
        return NotFound;
      }
      if Enabled(states, id) {
        return Done;
      }
      var deps := plugins[id].dependencies;
      var i := 0;
      while i < |deps|
        invariant 0 <= i <= |deps|
        invariant forall j | 0 <= j < i :: Enabled(states, deps[j])
      {
        if !Enabled(states, deps[i]) {
          return DependencyOff(deps[i]);
        }
        i := i + 1;
      }
      if !ok {
        return NotStored;
      }
      states := states[id := Value(true)];
      disabled := disabled - {id};
      calls := calls + [Started(id, starts)];
      return Done;
    }

    /** `ok` is whether the write succeeds, `stops` whether the plugin's own Stop does. */
    method Disable(id: string, ok: bool, stops: bool) returns (r: Reply)
      modifies `states, `disabled, `calls
      ensures (View(), r.Done?) == Step(plugins, old(View()), Op.Disable(id, ok))
      ensures r.Done? ==> !Enabled(states, id)
      ensures MayDisable(plugins, old(states), id) ==> id in disabled && (Enabled(states, id) <==> !ok)
      ensures calls == if MayDisable(plugins, old(states), id) then old(calls) + [Stopped(id, stops)] else old(calls)
      ensures r.NotFound? <==> id !in plugins
      ensures r.NeededBy? ==> Leans(plugins, states, r.other, id)
      ensures !r.DependencyOff?
    {
      if id !in plugins {
        return NotFound;
      }
      if !Enabled(states, id) {
        return Done;
      }
      var todo := plugins.Keys;
      while todo != {}
        invariant todo <= plugins.Keys
        invariant forall other | other in plugins.Keys - todo :: !Leans(plugins, states, other, id)
      {
        var other :| other in todo;
        if other != id && Enabled(states, other) && id in plugins[other].dependencies {
          assert Leans(plugins, states, other, id);
          return NeededBy(other);
        }
        todo := todo - {other};
      }
      calls := calls + [Stopped(id, stops)];
      disabled := disabled + {id};
      if !ok {
        return NotStored;
      }
      states := states[id := Value(false)];
      return Done;
    }

    method SetSidebarVisible(id: string, ok: bool) returns (r: Reply)
      modifies `states
      ensures (View(), r.Done?) == Step(plugins, old(View()), SetSidebar(id, ok))
      ensures forall other | other in old(states) :: other in states && states[other] == old(states)[other]
      ensures r.NotFound? <==> id !in plugins
    {
      if id !in plugins {
        return NotFound;
      }
      if !ok {
        return NotStored;
      }
      if id !in states {
        states := states[id := Value(true)];
      }
      return Done;
    }

    method StartAll(failing: set<string>) returns (ok: bool)
      modifies `calls
      ensures calls == old(calls) + Starts(Active(order, states), failing)
      ensures ok <==> forall id | id in order && Enabled(states, id) :: id !in failing
    {
      var i := 0;
      assert order[0..] == order;
      while i < |order|
        invariant 0 <= i <= |order|
        invariant calls + Starts(Active(order[i..], states), failing) ==
                  old(calls) + Starts(Active(order, states), failing)
        invariant forall j | 0 <= j < i && Enabled(states, order[j]) :: order[j] !in failing
      {
        var id := order[i];
        ActiveStep(order, states, i);
        if Enabled(states, id) {
          StartsStep(id, Active(order[i + 1..], states), failing);
          calls := calls + [Start(id, failing)];
          if id in failing {
            return false;
          }
        }
        i := i + 1;
      }
      return true;
    }

    /** Failures to stop are only logged. */
    method StopAll(failing: set<string>)
      modifies `calls
      ensures calls == old(calls) + Stops(Active(order, states), failing)
    {
      var i := |order| - 1;
      while i >= 0
        invariant -1 <= i < |order|
        invariant calls == old(calls) + Stops(Active(order[i + 1..], states), failing)
      {
        var id := order[i];
        ActiveStep(order, states, i);
        if Enabled(states, id) {
          StopsStep(id, Active(order[i + 1..], states), failing);
          calls := calls + [Stop(id, failing)];
        }
        i := i - 1;
      }
      assert order[0..] == order;
    }
  }

  lemma LoadsAll(reg: Registry, order: seq<string>)
    requires IsLoadOrder(reg, order)
    ensures Elements(order) == reg.Keys && forall id | id in reg :: id in order
  {
  }

  lemma OffNone(states: States, order: seq<string>)
    ensures OffIn(states, Elements(order[..0])) == {}
  {
  }

  lemma InitNone(order: seq<string>)
    ensures Inits(order[..0]) == []
  {
  }

  lemma InitStep(order: seq<string>, i: nat)
    requires i < |order|
    ensures Inits(order[..i + 1]) == Inits(order[..i]) + [Inited(order[i])]
  {
  }

  lemma FatalDir(states: States, noDir: set<string>, failing: set<string>, id: string)
    requires id in noDir
    ensures Fatal(states, noDir, failing, id)
  {
  }

  lemma FatalInit(states: States, noDir: set<string>, failing: set<string>, id: string)
    requires Enabled(states, id) && id in failing
    ensures Fatal(states, noDir, failing, id)
  {
  }

  lemma NotFatal(states: States, noDir: set<string>, failing: set<string>, id: string)
    requires id !in noDir && (Enabled(states, id) ==> id !in failing)
    ensures !Fatal(states, noDir, failing, id)
  {
  }

  /** A start that succeeds leaves the guard exact, and the rows in place for every later run. */
  lemma InitExact(reg: Registry, rows: States)
    ensures Exact(reg, Panel(rows, OffIn(rows, reg.Keys))) && GuardCovers(reg, Panel(rows, OffIn(rows, reg.Keys)))
    ensures rows == map[] ==> HasRows(reg, Seeded(reg, rows))
  {
    if rows == map[] {
      SeedClosed(reg);
    }
  }

  /** From a fresh installation whose defaults are closed, every run of requests is safe. */
  lemma BootSafe(reg: Registry, ops: seq<Op>)
    requires forall id, d | id in reg && !OffByDefault(id) && d in reg[id].dependencies ::
               d in reg && !OffByDefault(d)
    ensures
      var rows := Seeded(reg, map[]);
      var end := Run(reg, Panel(rows, OffIn(rows, reg.Keys)), ops);
      Closed(reg, end.states) && GuardCovers(reg, end)
  {
    hide Seeded, Run;
    var rows := Seeded(reg, map[]);
    SeedClosed(reg);
    InitExact(reg, rows);
    RunSafe(reg, Panel(rows, OffIn(rows, reg.Keys)), ops);
  }
}
