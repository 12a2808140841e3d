/** internal/caddy/manager.go: whose outcome a caller of the coalesced reload receives, traced through the actions. */
module ReloadOutcomes {
  import opened Optional
  import opened Reload

  // ---------------------------------------------------------------------------------------------
  // States by the number of actions
  // ---------------------------------------------------------------------------------------------

  lemma {:induction false} RunPrefix(s: System, acts: seq<Action>, n: nat)
    requires Legal(s, acts) && n <= |acts|
    ensures Legal(s, acts[..n])
    ensures n < |acts| ==> Enabled(Run(s, acts[..n]), acts[n]) && Legal(s, acts[..n + 1]) &&
                           Run(s, acts[..n + 1]) == Do(Run(s, acts[..n]), acts[n])
    decreases |acts|
  {
    hide Do, Enabled;
    if n > 0 {
      RunPrefix(Do(s, acts[0]), acts[1..], n - 1);
      assert acts[..n][1..] == acts[1..][..n - 1];
      if n < |acts| { assert acts[..n + 1][1..] == acts[1..][..n]; }
    } else if acts != [] {
      assert acts[..1] == [acts[0]] + [];
      assert acts[..0] == [];
      FirstStep(s, acts[0], []);
    }
  }

  /** The state behind the first `n` actions. */
  ghost function After(acts: seq<Action>, n: nat): System
    requires Legal(START, acts) && n <= |acts|
  {
    RunPrefix(START, acts, n);
    Run(START, acts[..n])
  }

  lemma AfterStep(acts: seq<Action>, n: nat)
    requires Legal(START, acts) && n < |acts|
    ensures Enabled(After(acts, n), acts[n]) && After(acts, n + 1) == Do(After(acts, n), acts[n])
  {
    RunPrefix(START, acts, n);
  }

  lemma AfterNone(acts: seq<Action>)
    requires Legal(START, acts)
    ensures After(acts, 0) == START
  {
    assert acts[..0] == [];
  }

  lemma AfterAll(acts: seq<Action>)
    requires Legal(START, acts)
    ensures After(acts, |acts|) == Run(START, acts)
  {
    assert acts[..|acts|] == acts;
  }

  lemma AfterInv(acts: seq<Action>, n: nat)
    requires Legal(START, acts) && n <= |acts|
    ensures Inv(After(acts, n))
  {
    RunPrefix(START, acts, n);
    StartInv();
    RunInv(START, acts[..n]);
  }

  // ---------------------------------------------------------------------------------------------
  // Where results come from
  // ---------------------------------------------------------------------------------------------

  /** Among the first `n` actions, timer `t` began a reload at `r.began`, and that reload ended with `r.outcome`. */
  ghost predicate Ended(acts: seq<Action>, n: nat, t: nat, r: Result) {
    n <= |acts| && exists e :: r.began < e < n && acts[r.began] == Begin(t) && acts[e] == End(t, r.outcome)
  }

  /** Among the first `n` actions, the callback of timer `t` took caller `w`. */
  ghost predicate TakenBy(acts: seq<Action>, n: nat, t: nat, w: nat)
    requires Legal(START, acts) && n <= |acts|
  {
    exists k :: 0 <= k < n && acts[k] == Take(t) && w in After(acts, k).waiters
  }

  /** What each timer has done so far. */
  ghost predicate Traced(acts: seq<Action>, n: nat, t: nat, timer: Timer)
    requires n <= |acts|
  {
    match timer
    case Running(began) => began < n && acts[began] == Begin(t)
    case Returned(r) => Ended(acts, n, t, r)
    case Sending(r, _) => Ended(acts, n, t, r)
    case _ => true
  }

  /** Caller `w` is about to get the result of timer `t`, or has got it. */
  ghost predicate Owed(s: System, t: nat, w: nat) {
    && t < |s.timers| && s.timers[t].Sending?
    && (|| w in s.timers[t].todo
        || (w in s.boxes && s.boxes[w] == s.timers[t].result)
        || (w in s.got && s.got[w] == s.timers[t].result))
  }

  ghost predicate Somewhere(s: System, w: nat) {
    w in s.boxes || w in s.got || exists t :: w in Todo(s, t)
  }

  lemma TakenNext(acts: seq<Action>, n: nat, t: nat, w: nat)
    requires Legal(START, acts) && n < |acts|
    ensures TakenBy(acts, n + 1, t, w) <==>
              TakenBy(acts, n, t, w) || (acts[n] == Take(t) && w in After(acts, n).waiters)
  {
    hide After;
  }

  lemma TracedStep(acts: seq<Action>, n: nat, s: System, t: nat)
    requires n < |acts| && Enabled(s, acts[n]) && s.clock == n
    requires t < |Do(s, acts[n]).timers|
    requires forall u: nat | u < |s.timers| :: Traced(acts, n, u, s.timers[u])
    ensures Traced(acts, n + 1, t, Do(s, acts[n]).timers[t])
  {
    if t < |s.timers| {
      assert Traced(acts, n, t, s.timers[t]);
      if acts[n].End? && acts[n].t == t {
        var r := Do(s, acts[n]).timers[t].result;
        assert r.began < n < n + 1 && acts[r.began] == Begin(t) && acts[n] == End(t, r.outcome);
      }
    }
  }

  lemma OwedSend(s: System, a: nat, t: nat, w: nat)
    requires OnePlace(s) && Enabled(s, Send(a)) && Owed(s, t, w)
    ensures Owed(Do(s, Send(a)), t, w)
  {
    var u := s.timers[a];
    assert u.todo[0] in Todo(s, a);
    if w in s.timers[t].todo { assert w in Todo(s, t); }
    if a == t && w in u.todo && w != u.todo[0] {
      var i :| 0 <= i < |u.todo| && u.todo[i] == w;
      assert u.todo[1..][i - 1] == w;
    }
  }

  lemma OwedOther(s: System, a: Action, t: nat, w: nat)
    requires Enabled(s, a) && !a.Send? && !a.Receive? && Owed(s, t, w)
    requires s.reloadTimer.Some? ==> s.reloadTimer.value < |s.timers| && Live(s.timers[s.reloadTimer.value])
    ensures Owed(Do(s, a), t, w)
  {
  }

  lemma OwedReceive(s: System, a: nat, t: nat, w: nat)
    requires OnePlace(s) && Enabled(s, Receive(a)) && Owed(s, t, w)
    ensures Owed(Do(s, Receive(a)), t, w)
  {
  }

  lemma OwedTake(s: System, t: nat, w: nat)
    requires Enabled(s, Take(t)) && w in s.waiters
    ensures Owed(Do(s, Take(t)), t, w)
  {
  }

  lemma InvMeans(s: System)
    requires Inv(s)
    ensures OnePlace(s)
    ensures s.reloadTimer.Some? ==> s.reloadTimer.value < |s.timers| && Live(s.timers[s.reloadTimer.value])
  {
  }

  /** Each step keeps what is owed; a callback that takes its waiters owes each of them its result. */
  lemma OwedStep(s: System, a: Action, t: nat, w: nat)
    requires Inv(s) && Enabled(s, a)
    requires Owed(s, t, w) || (a == Take(t) && w in s.waiters)
    ensures Owed(Do(s, a), t, w)
  {
    InvMeans(s);
    hide Inv, OnePlace, Do, Enabled, Live;
    if !Owed(s, t, w) {
      OwedTake(s, t, w);
    } else if a.Send? {
      OwedSend(s, a.t, t, w);
    } else if a.Receive? {
      OwedReceive(s, a.w, t, w);
    } else {
      OwedOther(s, a, t, w);
    }
  }

  lemma SomewhereStep(s: System, a: Action, w: nat)
    requires Inv(s) && Enabled(s, a) && Somewhere(Do(s, a), w)
    ensures Somewhere(s, w) || (a.Take? && w in s.waiters)
  {
    var u := Do(s, a);
    if t :| w in Todo(u, t) {
      TodoStep(s, a, t);
      if a.Send? && a.t == t { assert w in Todo(s, t); }
    }
    if a.Send? { assert s.timers[a.t].todo[0] in Todo(s, a.t); }
  }

  ghost predicate TimersTraced(acts: seq<Action>, n: nat, s: System)
    requires n <= |acts|
  {
    forall t: nat | t < |s.timers| :: Traced(acts, n, t, s.timers[t])
  }

  ghost predicate TakenOwed(acts: seq<Action>, n: nat, s: System)
    requires Legal(START, acts) && n <= |acts|
  {
    forall t: nat, w: nat | TakenBy(acts, n, t, w) :: Owed(s, t, w)
  }

  ghost predicate AllTaken(acts: seq<Action>, n: nat, s: System)
    requires Legal(START, acts) && n <= |acts|
  {
    forall w: nat | Somewhere(s, w) :: exists t: nat :: TakenBy(acts, n, t, w)
  }

  /** Everything that the trace says of the state behind `n` actions. */
  ghost predicate Trace(acts: seq<Action>, n: nat)
    requires Legal(START, acts) && n <= |acts|
  {
    var s := After(acts, n);
    s.clock == n && TimersTraced(acts, n, s) && TakenOwed(acts, n, s) && AllTaken(acts, n, s)
  }

  lemma ClockStep(s: System, a: Action)
    requires Enabled(s, a)
    ensures Do(s, a).clock == s.clock + 1
  {
  }

  lemma {:induction false} TraceHolds(acts: seq<Action>, n: nat)
    requires Legal(START, acts) && n <= |acts|
    ensures Trace(acts, n)
  {
    if n == 0 {
      AfterNone(acts);
    } else {
      var m := n - 1;
      TraceHolds(acts, m);
      AfterStep(acts, m);
      AfterInv(acts, m);
      TraceStep(acts, m);
    }
  }

  lemma TimersStep(acts: seq<Action>, m: nat, s: System)
    requires m < |acts| && Enabled(s, acts[m]) && s.clock == m && TimersTraced(acts, m, s)
    ensures TimersTraced(acts, m + 1, Do(s, acts[m]))
  {
    hide Do, Enabled, Traced;
    var u, n := Do(s, acts[m]), m + 1;
    forall t: nat | t < |u.timers| ensures Traced(acts, n, t, u.timers[t]) { TracedStep(acts, m, s, t); }
  }

  lemma TakenStep(acts: seq<Action>, m: nat, s: System)
    requires Legal(START, acts) && m < |acts| && s == After(acts, m) && Inv(s) && Enabled(s, acts[m])
    requires TakenOwed(acts, m, s)
    ensures TakenOwed(acts, m + 1, Do(s, acts[m]))
  {
    hide Do, Enabled, Inv, Owed, TakenBy, After, Legal;
    var u, n := Do(s, acts[m]), m + 1;
    forall t: nat, w: nat | TakenBy(acts, n, t, w) ensures Owed(u, t, w) {
      TakenNext(acts, m, t, w);
      OwedStep(s, acts[m], t, w);
    }
  }

  lemma AllTakenStep(acts: seq<Action>, m: nat, s: System)
    requires Legal(START, acts) && m < |acts| && s == After(acts, m) && Inv(s) && Enabled(s, acts[m])
    requires AllTaken(acts, m, s)
    ensures AllTaken(acts, m + 1, Do(s, acts[m]))
  {
    hide Do, Enabled, Inv, Somewhere, TakenBy, After, Legal;
    var u, n := Do(s, acts[m]), m + 1;
    forall w: nat | Somewhere(u, w) ensures exists t: nat :: TakenBy(acts, n, t, w) {
      SomewhereStep(s, acts[m], w);
      if Somewhere(s, w) {
        var t: nat :| TakenBy(acts, m, t, w);
        TakenNext(acts, m, t, w);
      } else {
        TakenNext(acts, m, acts[m].t, w);
      }
    }
  }

  lemma TraceStep(acts: seq<Action>, m: nat)
    requires Legal(START, acts) && m < |acts| && Trace(acts, m) && Inv(After(acts, m))
    requires Enabled(After(acts, m), acts[m]) && After(acts, m + 1) == Do(After(acts, m), acts[m])
    ensures Trace(acts, m + 1)
  {
    var s := After(acts, m);
    ClockStep(s, acts[m]);
    hide After, Do, Enabled, Inv, TimersTraced, TakenOwed, AllTaken, Legal;
    TimersStep(acts, m, s);
    TakenStep(acts, m, s);
    AllTakenStep(acts, m, s);
  }

  // ---------------------------------------------------------------------------------------------
  // What a caller receives
  // ---------------------------------------------------------------------------------------------

  /** Whoever the callback of timer `t` took receives the outcome with which the reload of that timer ended. */
  lemma OutcomeOfCallback(acts: seq<Action>, t: nat, w: nat)
    requires Legal(START, acts) && TakenBy(acts, |acts|, t, w) && w in Run(START, acts).got
    ensures var s := Run(START, acts);
            && t < |s.timers| && s.timers[t].Sending? && s.got[w] == s.timers[t].result
            && Ended(acts, |acts|, t, s.got[w])
  {
    var n := |acts|;
    TraceHolds(acts, n);
    AfterAll(acts);
    AfterInv(acts, n);
    var s := Run(START, acts);
    assert Owed(s, t, w) && Traced(acts, n, t, s.timers[t]);
    assert w in s.timers[t].todo ==> w in Todo(s, t);
  }

  /** In every run: a caller's result is the outcome of a reload that did end so, run by the callback that took it. */
  lemma OutcomeIs(acts: seq<Action>, w: nat) returns (t: nat)
    requires Legal(START, acts) && w in Run(START, acts).got
    ensures TakenBy(acts, |acts|, t, w) && Ended(acts, |acts|, t, Run(START, acts).got[w])
  {
    TraceHolds(acts, |acts|);
    AfterAll(acts);
    assert Somewhere(Run(START, acts), w);
    t :| TakenBy(acts, |acts|, t, w);
    OutcomeOfCallback(acts, t, w);
  }

  /** All callers taken by one callback receive the same result. */
  lemma SameOutcome(acts: seq<Action>, t: nat, v: nat, w: nat)
    requires Legal(START, acts) && TakenBy(acts, |acts|, t, v) && TakenBy(acts, |acts|, t, w)
    requires v in Run(START, acts).got && w in Run(START, acts).got
    ensures Run(START, acts).got[v] == Run(START, acts).got[w]
  {
    OutcomeOfCallback(acts, t, v);
    OutcomeOfCallback(acts, t, w);
  }

  predicate Over(s: System, t: nat) { t < |s.timers| && (s.timers[t].Returned? || s.timers[t].Sending?) }

  lemma OverStep(s: System, a: Action, t: nat)
    requires Inv(s) && Enabled(s, a)
    ensures Over(s, t) || (a.End? && a.t == t) ==> Over(Do(s, a), t)
    ensures Over(s, t) ==> !(a.End? && a.t == t)
  {
  }

  lemma {:induction false} StaysOver(acts: seq<Action>, e: nat, n: nat)
    requires Legal(START, acts) && e < n <= |acts| && acts[e].End?
    ensures Over(After(acts, n), acts[e].t)
  {
    hide After, Do, Enabled, Inv, Over, Legal;
    var m := n - 1;
    AfterStep(acts, m);
    AfterInv(acts, m);
    if e < m { StaysOver(acts, e, m); }
    OverStep(After(acts, m), acts[m], acts[e].t);
  }

  /** A reload ends only once, so the outcome is not one among several. */
  lemma OneEnd(acts: seq<Action>, d: nat, e: nat)
    requires Legal(START, acts) && d < |acts| && e < |acts|
    requires acts[d].End? && acts[e].End? && acts[d].t == acts[e].t
    ensures d == e
  {
    if d < e {
      NoSecondEnd(acts, d, e);
    } else if e < d {
      NoSecondEnd(acts, e, d);
    }
  }

  lemma NoSecondEnd(acts: seq<Action>, d: nat, e: nat)
    requires Legal(START, acts) && d < e < |acts| && acts[d].End?
    ensures !(acts[e].End? && acts[e].t == acts[d].t)
  {
    StaysOver(acts, d, e);
    AfterStep(acts, e);
    AfterInv(acts, e);
    hide After, Do, Enabled, Inv, Over;
    OverStep(After(acts, e), acts[e], acts[d].t);
  }

  /** A lone request whose reload fails reports that failure. */
  lemma FailureReaches(message: string, acts: seq<Action>)
    requires Legal(START, acts) && 0 in Run(START, acts).got
    requires forall i | 0 <= i < |acts| && acts[i].End? :: acts[i].outcome == Failed(message)
    ensures Run(START, acts).got[0].outcome == Failed(message)
  {
    var t := OutcomeIs(acts, 0);
  }
}
