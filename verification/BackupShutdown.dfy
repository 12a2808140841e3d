/** plugins/backup/service.go: triggering, running and stopping backups, in any interleaving. */
module BackupShutdown {

  // ---------------------------------------------------------------------------------------------
  // States and steps
  // ---------------------------------------------------------------------------------------------

  /** How far a goroutine that runs a backup has come. */
  datatype Phase =
    | Spawned     // before the running flag
    | Holding     // owns the running flag
    | Leaving     // RunBackup has returned
    | Gone

  /** A job started by TriggerAsync is tracked by the wait group; one started by the HTTP handler is not. */
  datatype Job = Job(tracked: bool, phase: Phase)

  datatype Stopper = Draining | Drained | GaveUp

  datatype System = System(running: bool, cancelled: bool, wg: int, jobs: seq<Job>, stoppers: seq<Stopper>)

  const START := System(false, false, 0, [], [])

  datatype Action =
    | Trigger
    | Manual
    | NoKopia(j: nat)
    | Acquire(j: nat)
    | Release(j: nat)
    | Exit(j: nat)
    | Stop
    | Drain(k: nat)
    | TimeOut(k: nat)

  predicate At(s: System, j: nat, p: Phase) {
    j < |s.jobs| && s.jobs[j].phase == p
  }

  predicate Enabled(s: System, a: Action) {
    match a
    case Trigger => true
    case Manual => true
    case NoKopia(j) => At(s, j, Spawned)
    case Acquire(j) => At(s, j, Spawned)
    case Release(j) => At(s, j, Holding)
    case Exit(j) => At(s, j, Leaving)
    case Stop => true
    case Drain(k) => k < |s.stoppers| && s.stoppers[k].Draining? && s.wg == 0
    case TimeOut(k) => k < |s.stoppers| && s.stoppers[k].Draining?
  }

  function Move(s: System, j: nat, p: Phase): System
    requires j < |s.jobs|
  {
    s.(jobs := s.jobs[j := s.jobs[j].(phase := p)])
  }

  function Do(s: System, a: Action): System
    requires Enabled(s, a)
  {
    match a
    case Trigger => if s.cancelled then s else s.(wg := s.wg + 1, jobs := s.jobs + [Job(true, Spawned)])
    case Manual => s.(jobs := s.jobs + [Job(false, Spawned)])
    case NoKopia(j) => Move(s, j, Leaving)
    case Acquire(j) => if s.running then Move(s, j, Leaving) else Move(s, j, Holding).(running := true)
    case Release(j) => Move(s, j, Leaving).(running := false)
    case Exit(j) => if s.jobs[j].tracked then Move(s, j, Gone).(wg := s.wg - 1) else Move(s, j, Gone)
    case Stop => s.(cancelled := true, stoppers := s.stoppers + [Draining])
    case Drain(k) => s.(stoppers := s.stoppers[k := Drained])
    case TimeOut(k) => s.(stoppers := s.stoppers[k := GaveUp])
  }

  ghost predicate Legal(s: System, acts: seq<Action>)
    decreases |acts|
  {
    acts == [] || (Enabled(s, acts[0]) && Legal(Do(s, acts[0]), acts[1..]))
  }

  ghost function Run(s: System, acts: seq<Action>): System
    requires Legal(s, acts)
    decreases |acts|
  {
    if acts == [] then s else Run(Do(s, acts[0]), acts[1..])
  }

  // ---------------------------------------------------------------------------------------------
  // What every run keeps
  // ---------------------------------------------------------------------------------------------

  predicate LiveTracked(job: Job) { job.tracked && !job.phase.Gone? }

  predicate Holds(job: Job) { job.phase.Holding? }

  function Count(jobs: seq<Job>, p: Job -> bool): nat {
    if jobs == [] then 0 else (if p(jobs[0]) then 1 else 0) + Count(jobs[1..], p)
  }

  lemma {:induction false} CountUpdate(jobs: seq<Job>, p: Job -> bool, j: nat, job: Job)
    requires j < |jobs|
    ensures Count(jobs[j := job], p) + (if p(jobs[j]) then 1 else 0) == Count(jobs, p) + if p(job) then 1 else 0
  {
    if j == 0 {
      assert jobs[0 := job][1..] == jobs[1..];
    } else {
      assert jobs[j := job][1..] == jobs[1..][j - 1 := job];
      CountUpdate(jobs[1..], p, j - 1, job);
    }
  }

  lemma {:induction false} CountAppend(jobs: seq<Job>, p: Job -> bool, job: Job)
    ensures Count(jobs + [job], p) == Count(jobs, p) + if p(job) then 1 else 0
  {
    if jobs == [] {
      assert ([job])[1..] == [];
    } else {
      assert (jobs + [job])[1..] == jobs[1..] + [job];
      CountAppend(jobs[1..], p, job);
    }
  }

  lemma {:induction false} CountNone(jobs: seq<Job>, p: Job -> bool, j: nat)
    requires j < |jobs|
    ensures p(jobs[j]) ==> Count(jobs, p) >= 1
  {
    if j > 0 { CountNone(jobs[1..], p, j - 1); }
  }

  lemma {:induction false} CountTwo(jobs: seq<Job>, p: Job -> bool, i: nat, j: nat)
    requires i < j < |jobs| && p(jobs[i]) && p(jobs[j])
    ensures Count(jobs, p) >= 2
  {
    if i == 0 { CountNone(jobs[1..], p, j - 1); } else { CountTwo(jobs[1..], p, i - 1, j - 1); }
  }

  /** The wait group counts the live tracked jobs, and the flag stands for the one job that owns it. */
  ghost predicate Inv(s: System) {
    && s.wg == Count(s.jobs, LiveTracked)
    && Count(s.jobs, Holds) == (if s.running then 1 else 0)
    && (s.stoppers != [] ==> s.cancelled)
    && (Drained in s.stoppers ==> s.wg == 0)
  }

  lemma StartInv()
    ensures Inv(START)
  {
  }

  lemma Moved(s: System, j: nat, p: Phase)
    requires j < |s.jobs|
    ensures Count(Move(s, j, p).jobs, LiveTracked) + (if LiveTracked(s.jobs[j]) then 1 else 0) ==
            Count(s.jobs, LiveTracked) + if s.jobs[j].tracked && p != Gone then 1 else 0
    ensures Count(Move(s, j, p).jobs, Holds) + (if Holds(s.jobs[j]) then 1 else 0) ==
            Count(s.jobs, Holds) + if p == Holding then 1 else 0
  {
    CountUpdate(s.jobs, LiveTracked, j, s.jobs[j].(phase := p));
    CountUpdate(s.jobs, Holds, j, s.jobs[j].(phase := p));
  }

  lemma KeepsInv(s: System, a: Action)
    requires Inv(s) && Enabled(s, a)
    ensures Inv(Do(s, a))
  {
    match a
    case Trigger =>
      CountAppend(s.jobs, LiveTracked, Job(true, Spawned));
      CountAppend(s.jobs, Holds, Job(true, Spawned));
    case Manual =>
      CountAppend(s.jobs, LiveTracked, Job(false, Spawned));
      CountAppend(s.jobs, Holds, Job(false, Spawned));
    case NoKopia(j) => Moved(s, j, Leaving);
    case Acquire(j) => Moved(s, j, if s.running then Leaving else Holding);
    case Release(j) =>
      Moved(s, j, Leaving);
      CountNone(s.jobs, Holds, j);
    case Exit(j) =>
      Moved(s, j, Gone);
      CountNone(s.jobs, LiveTracked, j);
    case Stop =>
      assert forall x | x in s.stoppers + [Draining] :: x in s.stoppers || x == Draining;
    case Drain(k) =>
      assert s.stoppers[k] in s.stoppers;
    case TimeOut(k) =>
      assert forall x | x in s.stoppers[k := GaveUp] :: x in s.stoppers || x == GaveUp;
      assert s.stoppers[k] in s.stoppers;
  }

  lemma {:induction false} RunInv(s: System, acts: seq<Action>)
    requires Inv(s) && Legal(s, acts)
    ensures Inv(Run(s, acts))
    decreases |acts|
  {
    hide Inv, Do, Enabled;
    if acts != [] {
      KeepsInv(s, acts[0]);
      RunInv(Do(s, acts[0]), acts[1..]);
    }
  }

  /** In every interleaving at most one RunBackup holds the running flag. */
  lemma OneHolder(acts: seq<Action>, i: nat, j: nat)
    requires Legal(START, acts) && At(Run(START, acts), i, Holding) && At(Run(START, acts), j, Holding)
    ensures i == j && Run(START, acts).running
  {
    StartInv();
    RunInv(START, acts);
    var s := Run(START, acts);
    CountNone(s.jobs, Holds, i);
    if i < j { CountTwo(s.jobs, Holds, i, j); }
    if j < i { CountTwo(s.jobs, Holds, j, i); }
  }

  /** The wait counter is the number of live tracked jobs, so it is never negative. */
  lemma CounterExact(acts: seq<Action>)
    requires Legal(START, acts)
    ensures Run(START, acts).wg == Count(Run(START, acts).jobs, LiveTracked)
  {
    StartInv();
    RunInv(START, acts);
  }

  /** Once Stop has cancelled, nothing raises the counter: no Add races with Wait. */
  lemma {:induction false} NoAddAfterCancel(s: System, acts: seq<Action>)
    requires s.cancelled && Legal(s, acts)
    ensures Run(s, acts).cancelled && Run(s, acts).wg <= s.wg
    decreases |acts|
  {
    if acts != [] {
      NoAddAfterCancel(Do(s, acts[0]), acts[1..]);
    }
  }

  /** After a Stop that drained, no tracked job is alive, then or later. */
  lemma DrainedStaysQuiet(acts: seq<Action>, j: nat)
    requires Legal(START, acts) && Drained in Run(START, acts).stoppers && j < |Run(START, acts).jobs|
    ensures !LiveTracked(Run(START, acts).jobs[j])
  {
    StartInv();
    RunInv(START, acts);
    CountNone(Run(START, acts).jobs, LiveTracked, j);
  }

  /** A stopped service never triggers again, although its Start can be called again. */
  lemma TriggersAreOver(s: System, acts: seq<Action>)
    requires s.cancelled && Legal(s, acts)
    ensures var u := Run(s, acts); Do(u, Trigger) == u
  {
    NoAddAfterCancel(s, acts);
  }

  // ---------------------------------------------------------------------------------------------
  // What the drain does not wait for
  // ---------------------------------------------------------------------------------------------

  lemma FirstStep(s: System, a: Action, acts: seq<Action>)
    requires Enabled(s, a) && Legal(Do(s, a), acts)
    ensures Legal(s, [a] + acts) && Run(s, [a] + acts) == Run(Do(s, a), acts)
  {
    assert ([a] + acts)[1..] == acts;
  }

  /** A backup started by hand is not tracked: Stop reports a full drain while it still runs. */
  lemma ManualOutlivesStop() returns (acts: seq<Action>)
    ensures Legal(START, acts)
    ensures var s := Run(START, acts); Drained in s.stoppers && At(s, 0, Holding)
  {
    var s1 := Do(START, Manual);
    var s2 := Do(s1, Acquire(0));
    var s3 := Do(s2, Stop);
    var s4 := Do(s3, Drain(0));
    assert s4.stoppers == [Drained];
    acts := [];
    FirstStep(s3, Drain(0), acts);
    acts := [Drain(0)] + acts;
    FirstStep(s2, Stop, acts);
    acts := [Stop] + acts;
    FirstStep(s1, Acquire(0), acts);
    acts := [Acquire(0)] + acts;
    FirstStep(START, Manual, acts);
    acts := [Manual] + acts;
  }

  ghost predicate NoManual(acts: seq<Action>) { forall a | a in acts :: a != Manual }

  lemma {:induction false} AllTracked(s: System, acts: seq<Action>)
    requires Legal(s, acts) && NoManual(acts) && forall j | 0 <= j < |s.jobs| :: s.jobs[j].tracked
    ensures forall j | 0 <= j < |Run(s, acts).jobs| :: Run(s, acts).jobs[j].tracked
    decreases |acts|
  {
    if acts != [] {
      assert acts[0] in acts && forall a | a in acts[1..] :: a in acts;
      AllTracked(Do(s, acts[0]), acts[1..]);
    }
  }

  /** A drained Stop leaves no backup running exactly when the running one is not a manual one. */
  lemma DrainedQuietIff(acts: seq<Action>)
    requires Legal(START, acts) && Drained in Run(START, acts).stoppers
    ensures var s := Run(START, acts);
            s.running <==> exists j :: 0 <= j < |s.jobs| && Holds(s.jobs[j]) && !s.jobs[j].tracked
    ensures NoManual(acts) ==> !Run(START, acts).running
  {
    StartInv();
    RunInv(START, acts);
    var s := Run(START, acts);
    if s.running {
      var j := Holder(s.jobs);
      DrainedStaysQuiet(acts, j);
    }
    if j :| 0 <= j < |s.jobs| && Holds(s.jobs[j]) && !s.jobs[j].tracked {
      CountNone(s.jobs, Holds, j);
    }
    if NoManual(acts) { AllTracked(START, acts); }
  }

  lemma {:induction false} Holder(jobs: seq<Job>) returns (j: nat)
    requires Count(jobs, Holds) > 0
    ensures j < |jobs| && Holds(jobs[j])
  {
    if Holds(jobs[0]) {
      j := 0;
    } else {
      j := Holder(jobs[1..]);
      j := j + 1;
    }
  }

  // ---------------------------------------------------------------------------------------------
  // The same in terms of the actions
  // ---------------------------------------------------------------------------------------------

  lemma {:induction false} RunPrefix(s: System, acts: seq<Action>, n: nat)
    requires Legal(s, acts) && n <= |acts|
    ensures Legal(s, acts[..n])
    ensures n < |acts| ==> Enabled(Run(s, acts[..n]), acts[n]) && Legal(s, acts[..n + 1]) &&
                           Run(s, acts[..n + 1]) == Do(Run(s, acts[..n]), acts[n])
    decreases |acts|
  {
    if n > 0 {
      RunPrefix(Do(s, acts[0]), acts[1..], n - 1);
      assert acts[..n][1..] == acts[1..][..n - 1];
      if n < |acts| { assert acts[..n + 1][1..] == acts[1..][..n]; }
    } else if acts != [] {
      assert acts[..1] == [acts[0]] + [];
      assert acts[..0] == [];
      FirstStep(s, acts[0], []);
    }
  }

  /** The state behind the first `n` actions. */
  ghost function After(acts: seq<Action>, n: nat): System
    requires Legal(START, acts) && n <= |acts|
  {
    RunPrefix(START, acts, n);
    Run(START, acts[..n])
  }

  lemma AfterStep(acts: seq<Action>, n: nat)
    requires Legal(START, acts) && n < |acts|
    ensures Enabled(After(acts, n), acts[n]) && After(acts, n + 1) == Do(After(acts, n), acts[n])
  {
    RunPrefix(START, acts, n);
  }

  /** Among the first `n` actions, job `j` takes the free flag and does not give it back. */
  ghost predicate Took(acts: seq<Action>, n: nat, j: nat)
    requires Legal(START, acts) && n <= |acts|
  {
    exists m :: 0 <= m < n && acts[m] == Acquire(j) && !After(acts, m).running && Release(j) !in acts[m..n]
  }

  /** Job `j` is started by hand: a manual action finds `j` jobs. */
  ghost predicate ByHand(acts: seq<Action>, n: nat, j: nat)
    requires Legal(START, acts) && n <= |acts|
  {
    exists m :: 0 <= m < n && acts[m] == Manual && |After(acts, m).jobs| == j
  }

  ghost predicate Untracked(s: System, j: nat) {
    j < |s.jobs| && !s.jobs[j].tracked
  }

  lemma ByHandStep(acts: seq<Action>, n: nat, j: nat)
    requires Legal(START, acts) && n < |acts|
    ensures ByHand(acts, n + 1, j) <==> ByHand(acts, n, j) || (acts[n] == Manual && |After(acts, n).jobs| == j)
  {
    hide After;
  }

  lemma TookStep(acts: seq<Action>, n: nat, j: nat)
    requires Legal(START, acts) && n < |acts|
    ensures Took(acts, n + 1, j) <==>
              acts[n] != Release(j) && (Took(acts, n, j) || (acts[n] == Acquire(j) && !After(acts, n).running))
  {
    hide After;
    forall m | 0 <= m <= n ensures Release(j) in acts[m..n + 1] <==> Release(j) in acts[m..n] || acts[n] == Release(j) {
      assert acts[m..n + 1] == acts[m..n] + [acts[n]];
    }
    assert acts[n..n] == [];
  }

  lemma UntrackedStep(s: System, a: Action, j: nat)
    requires Enabled(s, a)
    ensures Untracked(Do(s, a), j) <==> Untracked(s, j) || (a == Manual && |s.jobs| == j)
  {
  }

  lemma HoldingStep(s: System, a: Action, j: nat)
    requires Enabled(s, a)
    ensures At(Do(s, a), j, Holding) <==> a != Release(j) && (At(s, j, Holding) || (a == Acquire(j) && !s.running))
  {
  }

  lemma {:induction false} JobHistory(acts: seq<Action>, n: nat, j: nat)
    requires Legal(START, acts) && n <= |acts|
    ensures Untracked(After(acts, n), j) <==> ByHand(acts, n, j)
    ensures At(After(acts, n), j, Holding) <==> Took(acts, n, j)
  {
    if n == 0 {
      assert acts[..0] == [];
    } else {
      var m := n - 1;
      JobHistory(acts, m, j);
      AfterStep(acts, m);
      ByHandStep(acts, m, j);
      TookStep(acts, m, j);
      UntrackedStep(After(acts, m), acts[m], j);
      HoldingStep(After(acts, m), acts[m], j);
    }
  }

  /** Behind a drained Stop a backup is running exactly if one started by hand took the flag and kept it. */
  lemma DrainedRunsIff(acts: seq<Action>)
    requires Legal(START, acts) && Drained in Run(START, acts).stoppers
    ensures Run(START, acts).running <==> exists j: nat :: ByHand(acts, |acts|, j) && Took(acts, |acts|, j)
  {
    var s := Run(START, acts);
    assert acts[..|acts|] == acts;
    assert After(acts, |acts|) == s;
    DrainedQuietIff(acts);
    hide After, Run, Legal, ByHand, Took;
    if s.running {
      var j :| 0 <= j < |s.jobs| && Holds(s.jobs[j]) && !s.jobs[j].tracked;
      JobHistory(acts, |acts|, j);
    }
    if j: nat :| ByHand(acts, |acts|, j) && Took(acts, |acts|, j) {
      JobHistory(acts, |acts|, j);
      assert Holds(s.jobs[j]);
    }
  }

  // ---------------------------------------------------------------------------------------------
  // The service
  // ---------------------------------------------------------------------------------------------

  class Service {
    var running: bool
    var cancelled: bool
    var wg: int
    ghost var jobs: seq<Job>
    ghost var stoppers: seq<Stopper>

    ghost function View(): System
      reads this
    {
      System(running, cancelled, wg, jobs, stoppers)
    }

    constructor ()
      ensures View() == START && Inv(View())
    {
      running, cancelled, wg, jobs, stoppers := false, false, 0, [], [];
    }

    /** The locked part; a job is spawned unless the service is shutting down. */
    method TriggerAsync() returns (spawned: bool)
      requires Inv(View())
      modifies this
      ensures View() == Do(old(View()), Action.Trigger) && Inv(View()) && spawned == !old(cancelled)
    {
      KeepsInv(View(), Action.Trigger);
      if cancelled {
        return false;
      }
      wg := wg + 1;
      jobs := jobs + [Job(true, Spawned)];
      return true;
    }

    /** The locked part at the beginning of RunBackup. */
    method TryAcquire(ghost j: nat) returns (ok: bool)
      requires Inv(View()) && Enabled(View(), Acquire(j))
      modifies this
      ensures View() == Do(old(View()), Acquire(j)) && Inv(View()) && ok == !old(running)
    {
      KeepsInv(View(), Acquire(j));
      if running {
        jobs := jobs[j := jobs[j].(phase := Leaving)];
        return false;
      }
      running := true;
      jobs := jobs[j := jobs[j].(phase := Holding)];
      return true;
    }

    /** The deferred reset. */
    method ReleaseFlag(ghost j: nat)
      requires Inv(View()) && Enabled(View(), Release(j))
      modifies this
      ensures View() == Do(old(View()), Release(j)) && Inv(View()) && !running
    {
      KeepsInv(View(), Release(j));
      running := false;
      jobs := jobs[j := jobs[j].(phase := Leaving)];
    }

    /** The end of a tracked goroutine. */
    method Done(ghost j: nat)
      requires Inv(View()) && Enabled(View(), Exit(j)) && jobs[j].tracked
      modifies this
      ensures View() == Do(old(View()), Exit(j)) && Inv(View()) && wg >= 0
    {
      KeepsInv(View(), Exit(j));
      wg := wg - 1;
      jobs := jobs[j := jobs[j].(phase := Gone)];
    }

    /** Stop up to the wait: cancelled under the lock. */
    method BeginStop()
      requires Inv(View())
      modifies this
      ensures View() == Do(old(View()), Action.Stop) && Inv(View()) && cancelled
    {
      KeepsInv(View(), Action.Stop);
      cancelled := true;
      stoppers := stoppers + [Draining];
    }
  }
}
