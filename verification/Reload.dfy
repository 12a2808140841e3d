/** internal/caddy/manager.go: coalescing reload requests behind one timer, as a state machine. */
module Reload {
  import opened Optional

  // ---------------------------------------------------------------------------------------------
  // States and steps
  // ---------------------------------------------------------------------------------------------

  /** What a reload reports. */
  datatype Outcome = Reloaded | Failed(message: string)

  /** A result, and the moment at which the reload that produced it began. */
  datatype Result = Result(began: nat, outcome: Outcome)

  /** A timer made by time.AfterFunc, and how far its callback has come. */
  datatype Timer =
    | Armed
    | Stopped
    | Fired                                       // the callback is about to run
    | Running(began: nat)                         // inside Reload
    | Returned(result: Result)                    // Reload has returned, the lock is not taken yet
    | Sending(result: Result, todo: seq<nat>)     // the waiters that it took, not yet served

  /** When a caller joined, and whether a reload was under way at that moment. */
  datatype Caller = Caller(joined: nat, late: bool)

  /**
   * Callers are numbered in the order of their requests. A caller's channel holds one result: `boxes` are
   * the results sent and not received, `got` those received.
   */
  datatype System = System(
    clock: nat, timers: seq<Timer>, reloadTimer: Option<nat>, waiters: seq<nat>,
    callers: seq<Caller>, boxes: map<nat, Result>, got: map<nat, Result>)

  const START := System(0, [], None, [], [], map[], map[])

  datatype Action =
    | Request
    | Fire(t: nat)
    | Begin(t: nat)
    | End(t: nat, outcome: Outcome)
    | Take(t: nat)          // the locked section of the callback
    | Send(t: nat)
    | Receive(w: nat)

  predicate UnderWay(t: Timer) { t.Running? || t.Returned? }

  /** The timer can still take waiters: its callback has not run its locked section. */
  predicate Live(t: Timer) { t.Armed? || t.Fired? || t.Running? || t.Returned? }

  predicate Enabled(s: System, a: Action) {
    match a
    case Request => s.reloadTimer.Some? ==> s.reloadTimer.value < |s.timers|
    case Fire(t) => t < |s.timers| && s.timers[t].Armed?
    case Begin(t) => t < |s.timers| && s.timers[t].Fired?
    case End(t, _) => t < |s.timers| && s.timers[t].Running?
    case Take(t) => t < |s.timers| && s.timers[t].Returned?
    case Send(t) => t < |s.timers| && s.timers[t].Sending? && s.timers[t].todo != [] && s.timers[t].todo[0] !in s.boxes
    case Receive(w) => w in s.boxes
  }

  function Put(s: System, t: nat, timer: Timer): System
    requires t < |s.timers|
  {
    s.(timers := s.timers[t := timer], clock := s.clock + 1)
  }

  /** RequestReload up to the wait on the channel. */
  function AfterRequest(s: System): System
    requires Enabled(s, Request)
  {
    var late := s.reloadTimer.Some? && UnderWay(s.timers[s.reloadTimer.value]);
    var joined := s.(waiters := s.waiters + [|s.callers|],
                     callers := s.callers + [Caller(s.clock, late)],
                     clock := s.clock + 1);
    if s.reloadTimer.Some? && !s.timers[s.reloadTimer.value].Armed? then joined
    else
      var stopped := if s.reloadTimer.Some? then s.timers[s.reloadTimer.value := Stopped] else s.timers;
      joined.(timers := stopped + [Armed], reloadTimer := Some(|s.timers|))
  }

  function Do(s: System, a: Action): System
    requires Enabled(s, a)
  {
    match a
    case Request => AfterRequest(s)
    case Fire(t) => Put(s, t, Fired)
    case Begin(t) => Put(s, t, Running(s.clock))
    case End(t, outcome) => Put(s, t, Returned(Result(s.timers[t].began, outcome)))
    case Take(t) => Put(s, t, Sending(s.timers[t].result, s.waiters)).(waiters := [], reloadTimer := None)
    case Send(t) =>
      var timer := s.timers[t];
      Put(s, t, Sending(timer.result, timer.todo[1..])).(boxes := s.boxes[timer.todo[0] := timer.result])
    case Receive(w) => s.(got := s.got[w := s.boxes[w]], boxes := s.boxes - {w}, clock := s.clock + 1)
  }

  ghost predicate Legal(s: System, acts: seq<Action>)
    decreases |acts|
  {
    acts == [] || (Enabled(s, acts[0]) && Legal(Do(s, acts[0]), acts[1..]))
  }

  ghost function Run(s: System, acts: seq<Action>): System
    requires Legal(s, acts)
    decreases |acts|
  {
    if acts == [] then s else Run(Do(s, acts[0]), acts[1..])
  }

  // ---------------------------------------------------------------------------------------------
  // What every run keeps
  // ---------------------------------------------------------------------------------------------

  /** The one live timer is the one the field points to, and it is there while somebody waits. */
  ghost predicate OneTimer(s: System) {
    && (forall t | 0 <= t < |s.timers| :: Live(s.timers[t]) <==> s.reloadTimer == Some(t))
    && (s.reloadTimer.Some? ==> s.reloadTimer.value < |s.timers|)
    && (s.reloadTimer.Some? <==> s.waiters != [])
  }

  ghost predicate Distinct(s: seq<nat>) {
    forall i, j | 0 <= i < j < |s| :: s[i] != s[j]
  }

  /** The callers that timer `t` has taken and not served. */
  function Todo(s: System, t: int): seq<nat> {
    if 0 <= t < |s.timers| && s.timers[t].Sending? then s.timers[t].todo else []
  }

  /** A caller waits, is about to be served, has a result in its channel, or has received it; never two of these. */
  ghost predicate OnePlace(s: System) {
    && Distinct(s.waiters)
    && (forall t :: Distinct(Todo(s, t)))
    && (forall t, u, w | t != u && w in Todo(s, t) :: w !in Todo(s, u))
    && (forall t, w | w in Todo(s, t) :: w !in s.waiters && w !in s.boxes && w !in s.got)
    && (forall w | w in s.waiters :: w !in s.boxes && w !in s.got)
    && (forall w | w in s.boxes :: w !in s.got)
  }

  ghost predicate Held(s: System, w: nat) {
    w in s.waiters || w in s.boxes || w in s.got || exists t :: w in Todo(s, t)
  }

  /** Nobody is lost and nobody is made up. */
  ghost predicate AllHeld(s: System) {
    forall w: nat :: w < |s.callers| <==> Held(s, w)
  }

  /** A reload that begins at `began` is fresh for a caller exactly when the caller did not join late. */
  ghost predicate Fits(s: System, w: nat, began: nat) {
    w < |s.callers| && (s.callers[w].joined < began <==> !s.callers[w].late)
  }

  /** A caller who waits for the callback of `timer` and will fit the reload of that callback. */
  ghost predicate WillFit(s: System, w: nat, timer: Timer) {
    w < |s.callers| &&
    match timer
    case Running(began) => Fits(s, w, began)
    case Returned(result) => Fits(s, w, result.began)
    case _ => !s.callers[w].late
  }

  ghost predicate FreshWaiters(s: System)
    requires OneTimer(s)
  {
    forall w | w in s.waiters :: WillFit(s, w, s.timers[s.reloadTimer.value])
  }

  ghost predicate FreshResults(s: System) {
    && (forall w, t | w in Todo(s, t) :: Fits(s, w, s.timers[t].result.began))
    && (forall w | w in s.boxes :: Fits(s, w, s.boxes[w].began))
    && (forall w | w in s.got :: Fits(s, w, s.got[w].began))
  }

  ghost predicate Timely(s: System)
    requires OneTimer(s)
  {
    && (forall w | 0 <= w < |s.callers| :: s.callers[w].joined < s.clock)
    && (s.reloadTimer.Some? ==>
          var timer := s.timers[s.reloadTimer.value];
          && (timer.Running? ==> timer.began < s.clock)
          && (timer.Returned? ==> timer.result.began < s.clock))
  }

  ghost predicate Fresh(s: System)
    requires OneTimer(s)
  {
    Timely(s) && FreshWaiters(s) && FreshResults(s)
  }

  ghost predicate Inv(s: System) {
    OneTimer(s) && OnePlace(s) && AllHeld(s) && Fresh(s)
  }

  lemma StartInv()
    ensures Inv(START)
  {
  }

  lemma KeepsOneTimer(s: System, a: Action)
    requires OneTimer(s) && Enabled(s, a)
    ensures OneTimer(Do(s, a))
  {
  }

  /** What a step does to the callers that a timer has taken. */
  function TodoAfter(s: System, a: Action, t: int): seq<nat>
    requires Enabled(s, a)
  {
    match a
    case Take(u) => if t == u then s.waiters else Todo(s, t)
    case Send(u) => if t == u then Todo(s, t)[1..] else Todo(s, t)
    case _ => Todo(s, t)
  }

  lemma TodoStep(s: System, a: Action, t: int)
    requires Enabled(s, a) && OneTimer(s)
    ensures Todo(Do(s, a), t) == TodoAfter(s, a, t)
  {
  }

  lemma TodoSteps(s: System, a: Action)
    requires Enabled(s, a) && OneTimer(s)
    ensures forall t :: Todo(Do(s, a), t) == TodoAfter(s, a, t)
  {
    forall t ensures Todo(Do(s, a), t) == TodoAfter(s, a, t) { TodoStep(s, a, t); }
  }

  lemma TailOf(q: seq<nat>)
    requires Distinct(q) && q != []
    ensures Distinct(q[1..]) && q[0] !in q[1..] && forall w :: w in q <==> w == q[0] || w in q[1..]
  {
  }

  lemma SamePlaces(s: System, u: System)
    requires OnePlace(s) && u.waiters == s.waiters && u.boxes == s.boxes && u.got == s.got
    requires forall t :: Todo(u, t) == Todo(s, t)
    ensures OnePlace(u)
  {
    hide Todo, Distinct;
  }

  lemma JoinPlaces(s: System, u: System, w: nat)
    requires OnePlace(s) && u.waiters == s.waiters + [w] && u.boxes == s.boxes && u.got == s.got
    requires !Held(s, w) && Distinct(u.waiters) && forall t :: Todo(u, t) == Todo(s, t)
    ensures OnePlace(u)
  {
    hide Todo, Distinct;
  }

  lemma TakePlaces(s: System, u: System, k: nat)
    requires OnePlace(s) && u.waiters == [] && u.boxes == s.boxes && u.got == s.got
    requires Todo(s, k) == [] && Todo(u, k) == s.waiters && forall t | t != k :: Todo(u, t) == Todo(s, t)
    ensures OnePlace(u)
  {
    assert Distinct([]);
    hide Todo, Distinct;
    forall t ensures Distinct(Todo(u, t)) {
      assert Distinct(Todo(s, t));
    }
    forall t, v, w | t != v && w in Todo(u, t) ensures w !in Todo(u, v) {
      assert w in Todo(s, t) ==> w !in Todo(s, v) && w !in s.waiters;
    }
  }

  lemma SendPlaces(s: System, u: System, k: nat)
    requires OnePlace(s) && Todo(s, k) != [] && u.waiters == s.waiters && u.got == s.got
    requires u.boxes.Keys == s.boxes.Keys + {Todo(s, k)[0]}
    requires Todo(u, k) == Todo(s, k)[1..] && forall t | t != k :: Todo(u, t) == Todo(s, t)
    ensures OnePlace(u)
  {
    TailOf(Todo(s, k));
    hide Todo, Distinct;
    var head := Todo(s, k)[0];
    assert head in Todo(s, k);
    forall t, w | w in Todo(u, t) ensures w in Todo(s, t) && w != head {}
    hide OnePlace;
    assert OnePlace(u) by { StillOnePlace(s, u, head); }
  }

  lemma StillOnePlace(s: System, u: System, head: nat)
    requires OnePlace(s) && u.waiters == s.waiters && u.got == s.got && u.boxes.Keys == s.boxes.Keys + {head}
    requires head !in s.waiters && head !in s.got
    requires forall t :: Distinct(Todo(u, t))
    requires forall t, w | w in Todo(u, t) :: w in Todo(s, t) && w != head
    ensures OnePlace(u)
  {
    hide Todo, Distinct;
  }

  lemma ReceivePlaces(s: System, u: System, w: nat)
    requires OnePlace(s) && w in s.boxes && u.waiters == s.waiters
    requires u.boxes.Keys == s.boxes.Keys - {w} && u.got.Keys == s.got.Keys + {w}
    requires forall t :: Todo(u, t) == Todo(s, t)
    ensures OnePlace(u)
  {
    hide Todo, Distinct;
  }

  lemma {:induction false} KeepsOnePlace(s: System, a: Action)
    requires OneTimer(s) && OnePlace(s) && AllHeld(s) && Enabled(s, a)
    ensures OnePlace(Do(s, a))
  {
    var u := Do(s, a);
    TodoSteps(s, a);
    match a
    case Request =>
      NewCaller(s);
      JoinPlaces(s, u, |s.callers|);
    case Take(t) =>
      TookBefore(s, t);
      TakePlaces(s, u, t);
    case Send(t) =>
      SendHead(s, t);
      SendPlaces(s, u, t);
    case Receive(w) => ReceivePlaces(s, u, w);
    case _ => SamePlaces(s, u);
  }

  lemma NewCaller(s: System)
    requires AllHeld(s) && Distinct(s.waiters)
    ensures !Held(s, |s.callers|) && Distinct(s.waiters + [|s.callers|])
  {
    assert !Held(s, |s.callers|);
  }

  lemma TookBefore(s: System, t: nat)
    requires t < |s.timers| && s.timers[t].Returned?
    ensures Todo(s, t) == []
  {
  }

  lemma SendHead(s: System, t: nat)
    requires Enabled(s, Send(t)) && Distinct(Todo(s, t))
    ensures Todo(s, t) != [] && Distinct(Todo(s, t)[1..])
    ensures forall w :: w in Todo(s, t) <==> w == Todo(s, t)[0] || w in Todo(s, t)[1..]
    ensures Todo(s, t)[0] !in Todo(s, t)[1..] && s.timers[t].todo == Todo(s, t)
  {
    TailOf(Todo(s, t));
  }

  lemma {:induction false} KeepsAllHeld(s: System, a: Action)
    requires OneTimer(s) && OnePlace(s) && AllHeld(s) && Enabled(s, a)
    ensures AllHeld(Do(s, a))
  {
    var u := Do(s, a);
    forall w: nat ensures w < |u.callers| <==> Held(u, w) {
      HeldStep(s, a, w);
    }
  }

  lemma HeldStep(s: System, a: Action, w: nat)
    requires OneTimer(s) && OnePlace(s) && Enabled(s, a)
    ensures Held(Do(s, a), w) <==> Held(s, w) || (a == Request && w == |s.callers|)
  {
    var u := Do(s, a);
    TodoSteps(s, a);
    if a.Send? { SendHead(s, a.t); }
    if a.Take? { TookBefore(s, a.t); }
    hide Todo, Distinct;
    if t :| w in Todo(s, t) {
      assert w in Todo(u, t) || (a.Send? && w == Todo(s, t)[0]);
    }
    if t :| w in Todo(u, t) {
      assert w in Todo(s, t) || w in s.waiters;
    }
    if a.Take? && w in s.waiters { assert w in Todo(u, a.t); }
    if a.Send? && w == Todo(s, a.t)[0] { assert w in Todo(s, a.t); }
  }

  lemma KeepsTimely(s: System, a: Action)
    requires OneTimer(s) && Timely(s) && Enabled(s, a)
    ensures OneTimer(Do(s, a)) && Timely(Do(s, a))
  {
    KeepsOneTimer(s, a);
  }

  lemma KeepsWaiters(s: System, a: Action)
    requires OneTimer(s) && Timely(s) && FreshWaiters(s) && Enabled(s, a)
    ensures OneTimer(Do(s, a)) && FreshWaiters(Do(s, a))
  {
    KeepsOneTimer(s, a);
    var u := Do(s, a);
    forall w | w in u.waiters ensures WillFit(u, w, u.timers[u.reloadTimer.value]) {
      if w in s.waiters {
        assert WillFit(s, w, s.timers[s.reloadTimer.value]);
      }
    }
  }

  lemma FitsStill(s: System, u: System, w: nat, began: nat)
    requires Fits(s, w, began) && s.callers <= u.callers
    ensures Fits(u, w, began)
  {
  }

  lemma CallersGrow(s: System, a: Action)
    requires Enabled(s, a)
    ensures s.callers <= Do(s, a).callers
  {
  }

  lemma KeepsResults(s: System, a: Action)
    requires OneTimer(s) && Timely(s) && FreshWaiters(s) && FreshResults(s) && Enabled(s, a)
    ensures FreshResults(Do(s, a))
  {
    var u := Do(s, a);
    CallersGrow(s, a);
    TodoSteps(s, a);
    forall w, t | w in Todo(u, t) ensures Fits(u, w, u.timers[t].result.began) {
      TodoFits(s, a, w, t);
    }
    forall w | w in u.boxes ensures Fits(u, w, u.boxes[w].began) {
      BoxFits(s, a, w);
    }
    forall w | w in u.got ensures Fits(u, w, u.got[w].began) {
      if w in s.got { assert Fits(s, w, s.got[w].began); }
    }
  }

  lemma TodoFits(s: System, a: Action, w: nat, t: int)
    requires OneTimer(s) && FreshWaiters(s) && FreshResults(s) && Enabled(s, a)
    requires w in Todo(Do(s, a), t)
    ensures Fits(Do(s, a), w, Do(s, a).timers[t].result.began)
  {
    var u := Do(s, a);
    CallersGrow(s, a);
    TodoStep(s, a, t);
    if a == Take(t) {
      assert s.reloadTimer == Some(t) && WillFit(s, w, s.timers[t]);
      FitsStill(s, u, w, s.timers[t].result.began);
    } else {
      if a.Send? { SendFresh(s, a.t); }
      assert w in Todo(s, t) && u.timers[t].result == s.timers[t].result;
      FitsStill(s, u, w, s.timers[t].result.began);
    }
  }

  lemma BoxFits(s: System, a: Action, w: nat)
    requires FreshResults(s) && Enabled(s, a) && w in Do(s, a).boxes
    ensures Fits(Do(s, a), w, Do(s, a).boxes[w].began)
  {
    var u := Do(s, a);
    CallersGrow(s, a);
    if a.Send? && w == s.timers[a.t].todo[0] {
      SendFresh(s, a.t);
      FitsStill(s, u, w, s.timers[a.t].result.began);
    } else {
      FitsStill(s, u, w, s.boxes[w].began);
    }
  }

  lemma SendFresh(s: System, t: nat)
    requires Enabled(s, Send(t))
    ensures Todo(s, t) == s.timers[t].todo && Todo(s, t)[0] in Todo(s, t)
    ensures forall w | w in Todo(s, t)[1..] :: w in Todo(s, t)
  {
  }

  lemma KeepsInv(s: System, a: Action)
    requires Inv(s) && Enabled(s, a)
    ensures Inv(Do(s, a))
  {
    KeepsOneTimer(s, a);
    KeepsOnePlace(s, a);
    KeepsAllHeld(s, a);
    KeepsTimely(s, a);
    KeepsWaiters(s, a);
    KeepsResults(s, a);
  }

  /** Whatever happens in whatever order, from the start on. */
  lemma {:induction false} RunInv(s: System, acts: seq<Action>)
    requires Inv(s) && Legal(s, acts)
    ensures Inv(Run(s, acts))
    decreases |acts|
  {
    hide Inv, Do, Enabled;
    if acts != [] {
      KeepsInv(s, acts[0]);
      RunInv(Do(s, acts[0]), acts[1..]);
    }
  }

  // ---------------------------------------------------------------------------------------------
  // Nobody is lost
  // ---------------------------------------------------------------------------------------------

  /** While somebody waits, exactly one timer is armed or has a callback that will take the waiters. */
  lemma OneCallback(acts: seq<Action>) returns (t: nat)
    requires Legal(START, acts) && Run(START, acts).waiters != []
    ensures var timers := Run(START, acts).timers;
            t < |timers| && Live(timers[t]) && forall u | 0 <= u < |timers| && Live(timers[u]) :: u == t
  {
    StartInv();
    RunInv(START, acts);
    t := Run(START, acts).reloadTimer.value;
  }

  /** The channel of the next waiter is empty, and its result was not received before: sends never block. */
  lemma SendsNeverBlock(acts: seq<Action>, t: nat)
    requires Legal(START, acts)
    requires var s := Run(START, acts); t < |s.timers| && s.timers[t].Sending? && s.timers[t].todo != []
    ensures var s := Run(START, acts); Enabled(s, Send(t)) && s.timers[t].todo[0] !in s.got
  {
    StartInv();
    RunInv(START, acts);
    var s := Run(START, acts);
    assert s.timers[t].todo[0] in Todo(s, t);
  }

  /** Once received, a result is never replaced: one result per caller. */
  lemma {:induction false} GotStays(s: System, acts: seq<Action>, w: nat)
    requires Inv(s) && Legal(s, acts) && w in s.got
    ensures w in Run(s, acts).got && Run(s, acts).got[w] == s.got[w]
    decreases |acts|
  {
    if acts != [] {
      assert w in Do(s, acts[0]).got && Do(s, acts[0]).got[w] == s.got[w];
      KeepsInv(s, acts[0]);
      GotStays(Do(s, acts[0]), acts[1..], w);
    }
  }

  /**
   * A caller receives the outcome of a reload that began after it joined exactly when no reload was under
   * way at that moment; a caller that joins during a reload receives the outcome of that reload.
   */
  lemma FreshUnlessLate(acts: seq<Action>, w: nat)
    requires Legal(START, acts) && w in Run(START, acts).got
    ensures var s := Run(START, acts);
            w < |s.callers| && (s.callers[w].joined < s.got[w].began <==> !s.callers[w].late)
  {
    StartInv();
    RunInv(START, acts);
    var s := Run(START, acts);
    assert Fits(s, w, s.got[w].began);
  }

  /** What `late` records: the reload had begun and its callback had not taken its waiters. */
  lemma LateMeansUnderWay(s: System)
    requires Inv(s)
    ensures var u := Do(s, Request);
            |u.callers| == |s.callers| + 1 &&
            (u.callers[|s.callers|].late <==> exists t :: 0 <= t < |s.timers| && UnderWay(s.timers[t]))
  {
    if t :| 0 <= t < |s.timers| && UnderWay(s.timers[t]) {
      assert Live(s.timers[t]);
    }
  }

  lemma FirstStep(s: System, a: Action, acts: seq<Action>)
    requires Enabled(s, a) && Legal(Do(s, a), acts)
    ensures Legal(s, [a] + acts) && Run(s, [a] + acts) == Run(Do(s, a), acts)
  {
    assert ([a] + acts)[1..] == acts;
  }

  const SECOND := Result(2, Reloaded)
  const FIRST_CALLER := [Caller(0, false)]
  const BOTH_CALLERS := [Caller(0, false), Caller(3, true)]
  const ARMED := System(1, [Armed], Some(0), [0], FIRST_CALLER, map[], map[])
  const RUNNING := System(3, [Running(2)], Some(0), [0], FIRST_CALLER, map[], map[])
  const JOINED := System(4, [Running(2)], Some(0), [0, 1], BOTH_CALLERS, map[], map[])
  const TAKEN := System(6, [Sending(SECOND, [0, 1])], None, [], BOTH_CALLERS, map[], map[])
  const HALF := System(7, [Sending(SECOND, [1])], None, [], BOTH_CALLERS, map[0 := SECOND], map[])
  const SENT := System(8, [Sending(SECOND, [])], None, [], BOTH_CALLERS, map[0 := SECOND, 1 := SECOND], map[])

  lemma UpToRunning()
    ensures Legal(START, [Request, Fire(0), Begin(0)]) && Run(START, [Request, Fire(0), Begin(0)]) == RUNNING
  {
    assert Do(START, Request) == ARMED;
    assert Do(Do(ARMED, Fire(0)), Begin(0)) == RUNNING;
    FirstStep(Do(ARMED, Fire(0)), Begin(0), []);
    FirstStep(ARMED, Fire(0), [Begin(0)]);
    FirstStep(START, Request, [Fire(0), Begin(0)]);
    assert [Request] + [Fire(0), Begin(0)] == [Request, Fire(0), Begin(0)];
    assert [Fire(0)] + [Begin(0)] == [Fire(0), Begin(0)] && [Begin(0)] + [] == [Begin(0)];
  }

  lemma UpToTaken()
    ensures var acts := [Request, End(0, Reloaded), Take(0)]; Legal(RUNNING, acts) && Run(RUNNING, acts) == TAKEN
  {
    assert Do(RUNNING, Request) == JOINED;
    assert Do(Do(JOINED, End(0, Reloaded)), Take(0)) == TAKEN;
    FirstStep(Do(JOINED, End(0, Reloaded)), Take(0), []);
    FirstStep(JOINED, End(0, Reloaded), [Take(0)]);
    FirstStep(RUNNING, Request, [End(0, Reloaded), Take(0)]);
    assert [Request] + [End(0, Reloaded), Take(0)] == [Request, End(0, Reloaded), Take(0)];
    assert [End(0, Reloaded)] + [Take(0)] == [End(0, Reloaded), Take(0)] && [Take(0)] + [] == [Take(0)];
  }

  lemma UpToSent()
    ensures Legal(TAKEN, [Send(0), Send(0)]) && Run(TAKEN, [Send(0), Send(0)]) == SENT
  {
    assert [0, 1][1..] == [1] && [1][1..] == [];
    assert Do(TAKEN, Send(0)) == HALF;
    assert Do(HALF, Send(0)) == SENT;
    FirstStep(HALF, Send(0), []);
    FirstStep(TAKEN, Send(0), [Send(0)]);
    assert [Send(0)] + [Send(0)] == [Send(0), Send(0)] && [Send(0)] + [] == [Send(0)];
  }

  lemma {:induction false} RunConcat(s: System, a: seq<Action>, b: seq<Action>)
    requires Legal(s, a) && Legal(Run(s, a), b)
    ensures Legal(s, a + b) && Run(s, a + b) == Run(Run(s, a), b)
    decreases |a|
  {
    hide Do, Enabled;
    if a == [] {
      assert a + b == b;
    } else {
      assert (a + b)[1..] == a[1..] + b;
      RunConcat(Do(s, a[0]), a[1..], b);
    }
  }

  /** A second caller joins while Reload runs, and receives the outcome of the reload that began before. */
  lemma LateCallerIsStale() returns (acts: seq<Action>)
    ensures Legal(START, acts)
    ensures var s := Run(START, acts); 1 in s.got && 1 < |s.callers| && s.got[1].began < s.callers[1].joined
  {
    hide Legal, Run;
    UpToRunning();
    UpToTaken();
    UpToSent();
    acts := [Request, Fire(0), Begin(0)];
    RunConcat(START, acts, [Request, End(0, Reloaded), Take(0)]);
    acts := acts + [Request, End(0, Reloaded), Take(0)];
    RunConcat(START, acts, [Send(0), Send(0)]);
    acts := acts + [Send(0), Send(0)];
    LastReceives();
    RunConcat(START, acts, [Receive(1)]);
    acts := acts + [Receive(1)];
  }

  lemma LastReceives()
    ensures Legal(SENT, [Receive(1)]) && Run(SENT, [Receive(1)]) == Do(SENT, Receive(1))
  {
    FirstStep(SENT, Receive(1), []);
    assert [Receive(1)] + [] == [Receive(1)];
  }

  // ---------------------------------------------------------------------------------------------
  // Everybody is served in the end
  // ---------------------------------------------------------------------------------------------

  function Weight(t: Timer): nat {
    match t
    case Armed => 4
    case Stopped => 0
    case Fired => 3
    case Running(_) => 2
    case Returned(_) => 1
    case Sending(_, todo) => 2 * |todo|
  }

  function Total(timers: seq<Timer>): nat {
    if timers == [] then 0 else Weight(timers[0]) + Total(timers[1..])
  }

  lemma {:induction false} TotalUpdate(timers: seq<Timer>, t: nat, timer: Timer)
    requires t < |timers|
    ensures Total(timers[t := timer]) + Weight(timers[t]) == Total(timers) + Weight(timer)
  {
    if t == 0 {
      assert timers[0 := timer][1..] == timers[1..];
    } else {
      assert timers[t := timer][1..] == timers[1..][t - 1 := timer];
      TotalUpdate(timers[1..], t - 1, timer);
    }
  }

  /** The steps left, if nobody else asks. */
  function StepsLeft(s: System): nat {
    Total(s.timers) + 2 * |s.waiters| + |s.boxes|
  }

  lemma StepCounts(s: System, a: Action)
    requires Enabled(s, a) && a != Request
    ensures StepsLeft(Do(s, a)) == StepsLeft(s) - 1
  {
    var u := Do(s, a);
    match a
    case Receive(w) => OneBoxLess(s.boxes, w);
    case Send(t) =>
      OneBoxMore(s.boxes, s.timers[t].todo[0], s.timers[t].result);
      TotalUpdate(s.timers, t, u.timers[t]);
    case Fire(t) => TotalUpdate(s.timers, t, u.timers[t]);
    case Begin(t) => TotalUpdate(s.timers, t, u.timers[t]);
    case End(t, _) => TotalUpdate(s.timers, t, u.timers[t]);
    case Take(t) => TotalUpdate(s.timers, t, u.timers[t]);
  }

  lemma OneBoxLess(boxes: map<nat, Result>, w: nat)
    requires w in boxes
    ensures |boxes - {w}| == |boxes| - 1
  {
    assert (boxes - {w}).Keys == boxes.Keys - {w};
    assert |(boxes - {w}).Keys| == |boxes - {w}| && |boxes.Keys| == |boxes|;
  }

  lemma OneBoxMore(boxes: map<nat, Result>, w: nat, r: Result)
    requires w !in boxes
    ensures |boxes[w := r]| == |boxes| + 1
  {
    assert boxes[w := r].Keys == boxes.Keys + {w};
    assert |boxes[w := r].Keys| == |boxes[w := r]| && |boxes.Keys| == |boxes|;
  }

  /** While somebody is not served, the timer, a callback or a waiting caller can move. */
  lemma NotStuck(s: System, w: nat) returns (a: Action)
    requires Inv(s) && w < |s.callers| && w !in s.got
    ensures a != Request && Enabled(s, a)
  {
    assert Held(s, w);
    if w in s.boxes {
      a := Receive(w);
    } else if w in s.waiters {
      var t := s.reloadTimer.value;
      assert Live(s.timers[t]);
      match s.timers[t] {
        case Armed => a := Fire(t);
        case Fired => a := Begin(t);
        case Running(_) => a := End(t, Reloaded);
        case Returned(_) => a := Take(t);
      }
    } else {
      var t :| w in Todo(s, t);
      assert s.timers[t].todo[0] in Todo(s, t);
      a := Send(t);
    }
  }

  ghost predicate Quiet(acts: seq<Action>) { forall a | a in acts :: a != Request }

  /** However the steps are scheduled, without further requests there are at most StepsLeft of them. */
  lemma {:induction false} QuietEnds(s: System, acts: seq<Action>)
    requires Legal(s, acts) && Quiet(acts)
    ensures |acts| <= StepsLeft(s)
    decreases |acts|
  {
    hide Do, Enabled, StepsLeft;
    if acts != [] {
      assert acts[0] in acts && forall a | a in acts[1..] :: a in acts;
      StepCounts(s, acts[0]);
      QuietEnds(Do(s, acts[0]), acts[1..]);
    }
  }

  /** And when they have run out, everybody has a result. */
  lemma AllServed(acts: seq<Action>)
    requires Legal(START, acts) && forall a | a != Request :: !Enabled(Run(START, acts), a)
    ensures var s := Run(START, acts); forall w | 0 <= w < |s.callers| :: w in s.got
  {
    StartInv();
    RunInv(START, acts);
    var s := Run(START, acts);
    hide Inv, Enabled;
    forall w | 0 <= w < |s.callers| ensures w in s.got {
      if w !in s.got {
        var a := NotStuck(s, w);
      }
    }
  }

  // ---------------------------------------------------------------------------------------------
  // The manager
  // ---------------------------------------------------------------------------------------------

  lemma TimerInRange(s: System)
    requires Inv(s)
    ensures s.reloadTimer.Some? ==> s.reloadTimer.value < |s.timers|
  {
  }

  class Manager {
    ghost var clock: nat
    var timers: seq<Timer>
    var reloadTimer: Option<nat>
    var reloadWaiters: seq<nat>
    ghost var callers: seq<Caller>
    var nextWaiter: nat
    ghost var boxes: map<nat, Result>
    ghost var got: map<nat, Result>

    ghost function View(): System
      reads this
    {
      System(clock, timers, reloadTimer, reloadWaiters, callers, boxes, got)
    }

    ghost predicate Valid()
      reads this
    {
      Inv(View()) && nextWaiter == |callers|
    }

    constructor ()
      ensures View() == START && Valid()
    {
      clock, timers, reloadTimer, reloadWaiters, callers := 0, [], None, [], [];
      nextWaiter, boxes, got := 0, map[], map[];
      new;
      StartInv();
    }

    /** Timer.Stop: whether it prevented the callback. */
    method Stop(t: nat) returns (ok: bool)
      requires t < |timers|
      modifies `timers
      ensures ok <==> old(timers)[t].Armed?
      ensures timers == if ok then old(timers)[t := Stopped] else old(timers)
    {
      ok := timers[t].Armed?;
      if ok {
        timers := timers[t := Stopped];
      }
    }

    /** The locked part; the caller then waits on its channel. */
    method RequestReload() returns (waiter: nat)
      requires Valid()
      modifies this
      ensures Valid() && waiter == |old(callers)|
      ensures Enabled(old(View()), Request) && View() == Do(old(View()), Request)
    {
      hide Inv;
      ghost var s := View();
      TimerInRange(s);
      KeepsInv(s, Request);
      waiter := nextWaiter;
      nextWaiter := nextWaiter + 1;
      reloadWaiters := reloadWaiters + [waiter];
      callers := callers + [Caller(clock, reloadTimer.Some? && UnderWay(timers[reloadTimer.value]))];
      clock := clock + 1;
      var needNewTimer := true;
      if reloadTimer.Some? {
        var stopped := Stop(reloadTimer.value);
        if !stopped {
          needNewTimer := false;
        }
      }
      if needNewTimer {
        timers := timers + [Armed];
        reloadTimer := Some(|timers| - 1);
      }
      assert View() == Do(s, Request);
    }

    /** The locked part of the callback, after Reload has returned. */
    method TakeWaiters(t: nat) returns (waiters: seq<nat>)
      requires Valid() && Enabled(View(), Take(t))
      modifies this
      ensures Valid() && View() == Do(old(View()), Take(t)) && waiters == old(reloadWaiters)
    {
      hide Inv;
      ghost var s := View();
      KeepsInv(s, Take(t));
      waiters := reloadWaiters;
      timers := timers[t := Sending(timers[t].result, waiters)];
      reloadWaiters := [];
      reloadTimer := None;
      clock := clock + 1;
      assert View() == Do(s, Take(t));
    }
  }
}
