/** plugins/ai/service.go: pending confirmations, with several conversations and resolvers at once. */
module Confirmations {
  import opened Optional

  // ---------------------------------------------------------------------------------------------
  // States and steps
  // ---------------------------------------------------------------------------------------------

  datatype Status =
    | Waiting                       // in the select
    | Decided(approved: bool)       // past the select, entry not removed yet
    | Finished(approved: bool)

  /** One wait for a confirmation; its channel, of capacity one, is `box`. */
  datatype Gate = Gate(user: nat, id: string, status: Status, box: Option<bool>)

  /** A ResolveConfirmation that has passed its checks; it sends its answer outside the lock. */
  datatype Answer = Answer(user: nat, gate: nat, approved: bool, sent: bool)

  /** `pending` maps a pending id to the gate whose user and channel the entry holds. */
  datatype System = System(gates: seq<Gate>, pending: map<string, nat>, answers: seq<Answer>)

  const START := System([], map[], [])

  datatype Action =
    | Register(user: nat, id: string)
    | Resolve(user: nat, id: string, approved: bool)
    | Deliver(a: nat)
    | Take(g: nat)
    | Cancel(g: nat)
    | Cleanup(g: nat)

  /** The request is refused: nothing pending under this id, or somebody else's. */
  predicate Refused(s: System, user: nat, id: string) {
    id !in s.pending || s.pending[id] >= |s.gates| || s.gates[s.pending[id]].user != user
  }

  predicate Enabled(s: System, a: Action) {
    match a
    case Register(_, _) => true
    case Resolve(_, _, _) => true
    case Deliver(k) =>
      && k < |s.answers| && !s.answers[k].sent
      && s.answers[k].gate < |s.gates| && s.gates[s.answers[k].gate].box.None?
    case Take(g) => g < |s.gates| && s.gates[g].status.Waiting? && s.gates[g].box.Some?
    case Cancel(g) => g < |s.gates| && s.gates[g].status.Waiting?
    case Cleanup(g) => g < |s.gates| && s.gates[g].status.Decided?
  }

  function Do(s: System, a: Action): System
    requires Enabled(s, a)
  {
    match a
    case Register(user, id) =>
      s.(gates := s.gates + [Gate(user, id, Waiting, None)], pending := s.pending[id := |s.gates|])
    case Resolve(user, id, approved) =>
      if Refused(s, user, id) then s
      else s.(answers := s.answers + [Answer(user, s.pending[id], approved, false)])
    case Deliver(k) =>
      var g := s.answers[k].gate;
      s.(gates := s.gates[g := s.gates[g].(box := Some(s.answers[k].approved))],
         answers := s.answers[k := s.answers[k].(sent := true)])
    case Take(g) => s.(gates := s.gates[g := s.gates[g].(status := Decided(s.gates[g].box.value), box := None)])
    case Cancel(g) => s.(gates := s.gates[g := s.gates[g].(status := Decided(false))])
    case Cleanup(g) =>
      s.(gates := s.gates[g := s.gates[g].(status := Finished(s.gates[g].status.approved))],
         pending := s.pending - {s.gates[g].id})
  }

  ghost predicate Legal(s: System, acts: seq<Action>)
    decreases |acts|
  {
    acts == [] || (Enabled(s, acts[0]) && Legal(Do(s, acts[0]), acts[1..]))
  }

  ghost function Run(s: System, acts: seq<Action>): System
    requires Legal(s, acts)
    decreases |acts|
  {
    if acts == [] then s else Run(Do(s, acts[0]), acts[1..])
  }

  // ---------------------------------------------------------------------------------------------
  // What every run keeps
  // ---------------------------------------------------------------------------------------------

  /** Somebody with the right to do so said yes to gate `g`. */
  ghost predicate ApprovedByOwner(s: System, g: nat)
    requires g < |s.gates|
  {
    exists k :: IsApproval(s, k, g)
  }

  ghost predicate IsApproval(s: System, k: nat, g: nat)
    requires g < |s.gates|
  {
    k < |s.answers| && s.answers[k] == Answer(s.gates[g].user, g, true, true)
  }

  predicate Yes(gate: Gate) {
    gate.box == Some(true) || (!gate.status.Waiting? && gate.status.approved)
  }

  ghost predicate Inv(s: System) {
    && (forall id | id in s.pending ::
          s.pending[id] < |s.gates| && s.gates[s.pending[id]].id == id && !s.gates[s.pending[id]].status.Finished?)
    && (forall k | 0 <= k < |s.answers| ::
          s.answers[k].gate < |s.gates| && s.gates[s.answers[k].gate].user == s.answers[k].user)
    && (forall g | 0 <= g < |s.gates| && Yes(s.gates[g]) :: ApprovedByOwner(s, g))
  }

  lemma StartInv()
    ensures Inv(START)
  {
  }

  lemma ApprovalStays(s: System, a: Action, g: nat)
    requires Enabled(s, a) && g < |s.gates| && ApprovedByOwner(s, g)
    ensures g < |Do(s, a).gates| && ApprovedByOwner(Do(s, a), g)
  {
    var k :| IsApproval(s, k, g);
    assert IsApproval(Do(s, a), k, g);
  }

  lemma KeepsInv(s: System, a: Action)
    requires Inv(s) && Enabled(s, a)
    ensures Inv(Do(s, a))
  {
    var u := Do(s, a);
    forall g | 0 <= g < |u.gates| && Yes(u.gates[g]) ensures ApprovedByOwner(u, g) {
      if g < |s.gates| && Yes(s.gates[g]) {
        ApprovalStays(s, a, g);
      } else {
        assert IsApproval(u, a.a, g);
      }
    }
  }

  lemma {:induction false} RunInv(s: System, acts: seq<Action>)
    requires Inv(s) && Legal(s, acts)
    ensures Inv(Run(s, acts))
    decreases |acts|
  {
    hide Inv, Do, Enabled;
    if acts != [] {
      KeepsInv(s, acts[0]);
      RunInv(Do(s, acts[0]), acts[1..]);
    }
  }

  /** In every interleaving, a gate that lets its tool run was answered with yes by its own user. */
  lemma OnlyTheOwnerApproves(acts: seq<Action>, g: nat)
    requires Legal(START, acts) && g < |Run(START, acts).gates|
    requires Run(START, acts).gates[g].status == Finished(true)
    ensures ApprovedByOwner(Run(START, acts), g)
  {
    StartInv();
    RunInv(START, acts);
  }

  /** No entry of a gate outlives it. */
  lemma NoEntryRemains(acts: seq<Action>, id: string)
    requires Legal(START, acts) && id in Run(START, acts).pending
    ensures var s := Run(START, acts); s.pending[id] < |s.gates| && !s.gates[s.pending[id]].status.Finished?
  {
    StartInv();
    RunInv(START, acts);
  }

  // ---------------------------------------------------------------------------------------------
  // Where ids collide
  // ---------------------------------------------------------------------------------------------

  /** Its user can still resolve the gate. */
  predicate Reachable(s: System, g: nat) {
    g < |s.gates| && s.gates[g].id in s.pending && s.pending[s.gates[g].id] == g
  }

  /** A waiting gate loses its entry exactly when another gate with its id is registered, or removed. */
  lemma LosesEntry(s: System, a: Action, g: nat)
    requires Inv(s) && Enabled(s, a) && Reachable(s, g) && s.gates[g].status.Waiting?
    ensures Reachable(Do(s, a), g) <==>
              !(a.Register? && a.id == s.gates[g].id) && !(a.Cleanup? && s.gates[a.g].id == s.gates[g].id)
  {
  }

  /** An unreachable gate stays so, and from then on it can only be answered by what was sent before. */
  lemma {:induction false} StaysLost(s: System, acts: seq<Action>, g: nat)
    requires Inv(s) && Legal(s, acts) && g < |s.gates| && !Reachable(s, g)
    ensures !Reachable(Run(s, acts), g)
    ensures forall k | |s.answers| <= k < |Run(s, acts).answers| :: Run(s, acts).answers[k].gate != g
    ensures |s.answers| <= |Run(s, acts).answers|
    decreases |acts|
  {
    hide Inv;
    if acts != [] {
      var u := Do(s, acts[0]);
      LostStep(s, acts[0], g);
      KeepsInv(s, acts[0]);
      StaysLost(u, acts[1..], g);
      var v := Run(u, acts[1..]);
      forall k | |s.answers| <= k < |v.answers| ensures v.answers[k].gate != g {
        if k < |u.answers| { AnswersStay(u, acts[1..], k); }
      }
    }
  }

  lemma LostStep(s: System, a: Action, g: nat)
    requires Inv(s) && Enabled(s, a) && g < |s.gates| && !Reachable(s, g)
    ensures !Reachable(Do(s, a), g) && g < |Do(s, a).gates| && |s.answers| <= |Do(s, a).answers|
    ensures forall k | |s.answers| <= k < |Do(s, a).answers| :: Do(s, a).answers[k].gate != g
  {
  }

  lemma {:induction false} AnswersStay(s: System, acts: seq<Action>, k: nat)
    requires Legal(s, acts) && k < |s.answers|
    ensures k < |Run(s, acts).answers| && Run(s, acts).answers[k].gate == s.answers[k].gate
    decreases |acts|
  {
    if acts != [] {
      assert k < |Do(s, acts[0]).answers| && Do(s, acts[0]).answers[k].gate == s.answers[k].gate;
      AnswersStay(Do(s, acts[0]), acts[1..], k);
    }
  }

  /** Two conversations with the same call id and tool: the second takes the entry of the first. */
  lemma CollisionStrands(first: nat, second: nat, id: string, acts: seq<Action>)
    requires Legal(Do(Do(START, Register(first, id)), Register(second, id)), acts)
    ensures var s := Run(Do(Do(START, Register(first, id)), Register(second, id)), acts);
            0 < |s.gates| &&
            (s.gates[0].status.Waiting? || s.gates[0].status == Decided(false) || s.gates[0].status == Finished(false))
  {
    var s := Do(Do(START, Register(first, id)), Register(second, id));
    StartInv();
    KeepsInv(START, Register(first, id));
    KeepsInv(Do(START, Register(first, id)), Register(second, id));
    RunInv(s, acts);
    StaysLost(s, acts, 0);
    GatesStay(s, acts);
    var end := Run(s, acts);
    forall k ensures !IsApproval(end, k, 0) {}
    assert !ApprovedByOwner(end, 0);
  }

  /** The answer meant for the first of two such conversations of one user goes to the second. */
  lemma CollisionCrosses(user: nat, id: string, approved: bool)
    ensures var s := Do(Do(START, Register(user, id)), Register(user, id));
            Do(s, Resolve(user, id, approved)).answers == [Answer(user, 1, approved, false)]
  {
    var s := Do(Do(START, Register(user, id)), Register(user, id));
    assert s.pending[id] == 1 && s.gates[1].user == user;
  }

  lemma {:induction false} GatesStay(s: System, acts: seq<Action>)
    requires Legal(s, acts)
    ensures |s.gates| <= |Run(s, acts).gates|
    decreases |acts|
  {
    if acts != [] { GatesStay(Do(s, acts[0]), acts[1..]); }
  }

  /** An answer that finds the channel full after the gate is past its select is never delivered. */
  lemma {:induction false} BlockedForever(s: System, acts: seq<Action>, k: nat)
    requires Legal(s, acts) && k < |s.answers| && !s.answers[k].sent && s.answers[k].gate < |s.gates|
    requires !s.gates[s.answers[k].gate].status.Waiting? && s.gates[s.answers[k].gate].box.Some?
    ensures k < |Run(s, acts).answers| && !Run(s, acts).answers[k].sent
    decreases |acts|
  {
    if acts != [] {
      var u, g := Do(s, acts[0]), s.answers[k].gate;
      assert k < |u.answers| && u.answers[k] == s.answers[k];
      assert g < |u.gates| && !u.gates[g].status.Waiting? && u.gates[g].box.Some?;
      BlockedForever(u, acts[1..], k);
    }
  }

  /** Some continuation delivers answer `k`. */
  ghost predicate CanArrive(s: System, k: nat) {
    exists acts :: Legal(s, acts) && k < |Run(s, acts).answers| && Run(s, acts).answers[k].sent
  }

  lemma ArrivesBy(s: System, acts: seq<Action>, k: nat)
    requires Legal(s, acts) && k < |Run(s, acts).answers| && Run(s, acts).answers[k].sent
    ensures CanArrive(s, k)
  {
  }

  /** An answer that is not sent yet can still arrive exactly when its gate waits or its channel is empty. */
  lemma ArrivesIff(s: System, k: nat)
    requires k < |s.answers| && !s.answers[k].sent && s.answers[k].gate < |s.gates|
    ensures var gate := s.gates[s.answers[k].gate];
            CanArrive(s, k) <==> gate.status.Waiting? || gate.box.None?
  {
    var g := s.answers[k].gate;
    if s.gates[g].box.None? {
      FirstStep(s, Deliver(k), []);
      ArrivesBy(s, [Deliver(k)] + [], k);
    } else if s.gates[g].status.Waiting? {
      var u := Do(s, Take(g));
      FirstStep(u, Deliver(k), []);
      FirstStep(s, Take(g), [Deliver(k)] + []);
      ArrivesBy(s, [Take(g)] + ([Deliver(k)] + []), k);
    } else {
      forall acts | Legal(s, acts) ensures k < |Run(s, acts).answers| && !Run(s, acts).answers[k].sent {
        BlockedForever(s, acts, k);
      }
    }
  }

  /** Two answers are enough to block a request for good when the conversation is cancelled between them. */
  lemma TwoAnswersBlock(user: nat, id: string) returns (acts: seq<Action>)
    ensures Legal(START, acts)
    ensures var s := Run(START, acts);
            |s.answers| == 2 && !s.answers[1].sent && s.answers[1].gate < |s.gates| && !CanArrive(s, 1)
  {
    var yes := Resolve(user, id, true);
    var s1 := Do(START, Register(user, id));
    var s2 := Do(s1, yes);
    var s3 := Do(s2, yes);
    var s4 := Do(s3, Deliver(0));
    var s5 := Do(s4, Cancel(0));
    ArrivesIff(s5, 1);
    acts := [];
    FirstStep(s4, Cancel(0), acts);
    acts := [Cancel(0)] + acts;
    FirstStep(s3, Deliver(0), acts);
    acts := [Deliver(0)] + acts;
    FirstStep(s2, yes, acts);
    acts := [yes] + acts;
    FirstStep(s1, yes, acts);
    acts := [yes] + acts;
    FirstStep(START, Register(user, id), acts);
    acts := [Register(user, id)] + acts;
  }

  /** Without a cancellation, three answers while the gate waits block a request for good. */
  lemma ThirdAnswerBlocks(user: nat, id: string) returns (acts: seq<Action>)
    ensures Legal(START, acts)
    ensures var s := Run(START, acts);
            |s.answers| == 3 && !s.answers[2].sent && s.answers[2].gate < |s.gates|
            && !s.gates[s.answers[2].gate].status.Waiting? && s.gates[s.answers[2].gate].box.Some?
  {
    var yes := Resolve(user, id, true);
    var s1 := Do(START, Register(user, id));
    var s2 := Do(s1, yes);
    var s3 := Do(s2, yes);
    var s4 := Do(s3, yes);
    var s5 := Do(s4, Deliver(0));
    var s6 := Do(s5, Take(0));
    var s7 := Do(s6, Deliver(1));
    acts := [];
    FirstStep(s6, Deliver(1), acts);
    acts := [Deliver(1)] + acts;
    FirstStep(s5, Take(0), acts);
    acts := [Take(0)] + acts;
    FirstStep(s4, Deliver(0), acts);
    acts := [Deliver(0)] + acts;
    FirstStep(s3, yes, acts);
    acts := [yes] + acts;
    FirstStep(s2, yes, acts);
    acts := [yes] + acts;
    FirstStep(s1, yes, acts);
    acts := [yes] + acts;
    FirstStep(START, Register(user, id), acts);
    acts := [Register(user, id)] + acts;
  }

  lemma FirstStep(s: System, a: Action, acts: seq<Action>)
    requires Enabled(s, a) && Legal(Do(s, a), acts)
    ensures Legal(s, [a] + acts) && Run(s, [a] + acts) == Run(Do(s, a), acts)
  {
    assert ([a] + acts)[1..] == acts;
  }

  // ---------------------------------------------------------------------------------------------
  // What a decision does
  // ---------------------------------------------------------------------------------------------

  /** While a call waits under its own entry, the answer of its user reaches it as it was given, and ends it. */
  lemma DecisionArrives(s: System, g: nat, approved: bool)
    requires Inv(s) && Reachable(s, g) && s.gates[g].status.Waiting? && s.gates[g].box.None?
    ensures var acts := [Resolve(s.gates[g].user, s.gates[g].id, approved), Deliver(|s.answers|), Take(g), Cleanup(g)];
            Legal(s, acts) && g < |Run(s, acts).gates| && Run(s, acts).gates[g].status == Finished(approved)
  {
    var resolve := Resolve(s.gates[g].user, s.gates[g].id, approved);
    var s1 := Do(s, resolve);
    assert s1.answers[|s.answers|] == Answer(s.gates[g].user, g, approved, false);
    var s2 := Do(s1, Deliver(|s.answers|));
    var s3 := Do(s2, Take(g));
    FirstStep(s3, Cleanup(g), []);
    FirstStep(s2, Take(g), [Cleanup(g)] + []);
    FirstStep(s1, Deliver(|s.answers|), [Take(g)] + ([Cleanup(g)] + []));
    FirstStep(s, resolve, [Deliver(|s.answers|)] + ([Take(g)] + ([Cleanup(g)] + [])));
    assert [resolve, Deliver(|s.answers|), Take(g), Cleanup(g)] ==
           [resolve] + ([Deliver(|s.answers|)] + ([Take(g)] + ([Cleanup(g)] + [])));
  }

  /** An answer of somebody else, or to an id that is not pending, changes nothing. */
  lemma OthersIgnored(s: System, user: nat, id: string, approved: bool)
    requires Inv(s)
    ensures Do(s, Resolve(user, id, approved)) != s <==>
              exists g: nat :: Reachable(s, g) && s.gates[g].id == id && s.gates[g].user == user
  {
    var u := Do(s, Resolve(user, id, approved));
    if id in s.pending && s.gates[s.pending[id]].user == user {
      assert Reachable(s, s.pending[id]);
      assert |u.answers| == |s.answers| + 1;
    }
  }

  /** A no that gate `g` was sent. */
  ghost predicate IsRefusal(s: System, k: nat, g: nat)
    requires g < |s.gates|
  {
    k < |s.answers| && s.answers[k] == Answer(s.gates[g].user, g, false, true)
  }

  predicate No(gate: Gate) {
    gate.box == Some(false) || (!gate.status.Waiting? && !gate.status.approved)
  }

  /** Gate `g` is told no only if it was cancelled so far, or its user said no. */
  ghost predicate Denied(s: System, done: seq<Action>) {
    forall g | 0 <= g < |s.gates| && No(s.gates[g]) :: Cancel(g) in done || exists k :: IsRefusal(s, k, g)
  }

  lemma DeniedStep(s: System, done: seq<Action>, a: Action)
    requires Inv(s) && Denied(s, done) && Enabled(s, a)
    ensures Denied(Do(s, a), done + [a])
  {
    var u := Do(s, a);
    forall g | 0 <= g < |u.gates| && No(u.gates[g])
      ensures Cancel(g) in done + [a] || exists k :: IsRefusal(u, k, g)
    {
      if g < |s.gates| && No(s.gates[g]) {
        if Cancel(g) !in done {
          var k :| IsRefusal(s, k, g);
          assert IsRefusal(u, k, g);
        }
      } else if a.Deliver? {
        assert IsRefusal(u, a.a, g);
      } else {
        assert (done + [a])[|done|] == Cancel(g);
      }
    }
  }

  lemma {:induction false} RunDenied(s: System, done: seq<Action>, acts: seq<Action>)
    requires Inv(s) && Denied(s, done) && Legal(s, acts)
    ensures Denied(Run(s, acts), done + acts)
    decreases |acts|
  {
    hide Inv, Denied, Do, Enabled;
    if acts == [] {
      assert done + acts == done;
    } else {
      KeepsInv(s, acts[0]);
      DeniedStep(s, done, acts[0]);
      RunDenied(Do(s, acts[0]), done + [acts[0]], acts[1..]);
      assert done + acts == done + [acts[0]] + acts[1..];
    }
  }

  /** In every interleaving, a call that was not let through was cancelled, or refused by its own user. */
  lemma RefusedForReason(acts: seq<Action>, g: nat)
    requires Legal(START, acts) && g < |Run(START, acts).gates|
    requires Run(START, acts).gates[g].status == Finished(false)
    ensures Cancel(g) in acts || exists k :: IsRefusal(Run(START, acts), k, g)
  {
    StartInv();
    RunDenied(START, [], acts);
    assert [] + acts == acts;
  }
}
