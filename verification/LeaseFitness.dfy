/**
 * Which process a lease is given on: a living one, launched for the path that the call asked for,
 * with uses left and never reported unhealthy.
 */
module LeaseFitness {
  import opened Wrappers
  import opened BrowserRuntime
  import opened LeaseProtocol
  import opened LeaseSafety

  /** What a run says about paths: the one each Acquire asked for, and the one each process was launched for. */
  datatype Paths = Paths(asked: map<Tid, string>, made: map<Pid, string>)

  function PathsStep(h: Paths, a: Action): Paths {
    match a
    case CallAcquire(t, path) => h.(asked := h.asked[t := path])
    case LaunchSucceeds(t, p) => if t in h.asked then h.(made := h.made[p := h.asked[t]]) else h
    case _ => h
  }

  /** The paths after a run, read off its actions alone. */
  function PathsOf(h: Paths, acts: seq<Action>): Paths
    decreases |acts|
  {
    if acts == [] then h else PathsOf(PathsStep(h, acts[0]), acts[1..])
  }

  const NoPaths := Paths(map[], map[])

  /** The path that a call still works for. */
  function Wanted(pc: PC): Option<string> {
    match pc
    case AcquireTop(path) => Some(path)
    case AcquireAsleep(path, _) => Some(path)
    case Launching(path) => Some(path)
    case Launched(path, _) => Some(path)
    case Closing(_, ThenAcquire(path)) => Some(path)
    case Publishing(_, ThenAcquire(path)) => Some(path)
    case _ => None
  }

  predicate KnowsPath(h: Paths, t: Tid, pc: PC) {
    && (Wanted(pc).Some? ==> t in h.asked && h.asked[t] == Wanted(pc).value)
    && (pc.Launched? ==> pc.p in h.made && h.made[pc.p] == pc.path)
    && (pc.Leased? ==> t in h.asked && pc.p in h.made && h.made[pc.p] == h.asked[t])
  }

  ghost predicate PathInv(s: State, h: Paths) {
    && h.made.Keys <= s.spawned
    && (forall t :: t in s.threads ==> KnowsPath(h, t, s.threads[t]))
    && (s.slot.process.Some? ==> s.slot.process.value in h.made && h.made[s.slot.process.value] == s.slot.path)
  }

  /** Thread t moved on without a new path becoming known. */
  lemma MoveKeepsPaths(s: State, t: Tid, pc: PC, n: State, h: Paths)
    requires PathInv(s, h) && n.threads == s.threads[t := pc] && s.spawned <= n.spawned && KnowsPath(h, t, pc)
    requires n.slot.process.None? || (n.slot.process == s.slot.process && n.slot.path == s.slot.path)
    ensures PathInv(n, h)
  {
  }

  /** A call begins, or a process starts and is put into the slot. */
  lemma NewPaths(l: Limits, s: State, a: Action, h: Paths)
    requires PathInv(s, h) && Enabled(s, a) && (a.CallAcquire? || a.LaunchSucceeds? || a.InstallStep?)
    ensures PathInv(Apply(l, s, a), PathsStep(h, a))
  {
    var n, g := Apply(l, s, a), PathsStep(h, a);
    if !a.CallAcquire? { assert KnowsPath(h, a.t, s.threads[a.t]); }
    forall u | u in n.threads && u != a.t ensures KnowsPath(g, u, n.threads[u]) {
      assert KnowsPath(h, u, s.threads[u]);
    }
  }

  /** A locked turn of Acquire leases what is in the slot only to a call that asked for its path. */
  lemma AcquireKeepsPaths(l: Limits, s: State, a: Action, h: Paths)
    requires PathInv(s, h) && Enabled(s, a) && a.AcquireStepOf?
    ensures PathInv(Apply(l, s, a), h)
  {
    var n := Apply(l, s, a);
    assert KnowsPath(h, a.t, s.threads[a.t]);
    MoveKeepsPaths(s, a.t, n.threads[a.t], n, h);
  }

  lemma CallKnows(s: State, t: Tid, h: Paths)
    requires PathInv(s, h) && t in s.threads
    ensures KnowsPath(h, t, s.threads[t])
  {
  }

  predicate TakesLock(a: Action) {
    a.PublishStep? || a.ReleaseStepOf? || a.ExpireStep? || a.CaptureStep? || a.StopStep? || a.Wake?
  }

  /** A call that looks again or goes on after a retirement still works for its path. */
  lemma AgainKeepsPaths(l: Limits, s: State, a: Action, h: Paths)
    requires PathInv(s, h) && Enabled(s, a) && (a.PublishStep? || a.Wake?)
    ensures PathInv(Apply(l, s, a), h)
  {
    hide ApplyAcquire, ApplyInstall, ApplyRelease, ApplyExpire, ApplyCapture, PathInv;
    var n := Apply(l, s, a);
    CallKnows(s, a.t, h);
    MoveKeepsPaths(s, a.t, n.threads[a.t], n, h);
  }

  /** The other locked turns keep the slot or empty it, and no call learns a path. */
  lemma LockedKeepsPaths(l: Limits, s: State, a: Action, h: Paths)
    requires PathInv(s, h) && Enabled(s, a) && TakesLock(a) && !a.PublishStep? && !a.Wake?
    ensures PathInv(Apply(l, s, a), h)
  {
    hide ApplyAcquire, ApplyInstall, ApplyPublish, PathInv;
    var n := Apply(l, s, a);
    CallKnows(s, a.t, h);
    MoveKeepsPaths(s, a.t, n.threads[a.t], n, h);
  }

  lemma OtherKeepsPaths(l: Limits, s: State, a: Action, h: Paths)
    requires PathInv(s, h) && Enabled(s, a) && !TakesLock(a)
    requires !a.CallAcquire? && !a.LaunchSucceeds? && !a.InstallStep? && !a.AcquireStepOf? && !a.Dies?
    ensures PathInv(Apply(l, s, a), h)
  {
    hide ApplyAcquire, ApplyInstall, ApplyPublish, ApplyRelease, ApplyExpire, ApplyCapture, ApplyStop;
    var n := Apply(l, s, a);
    if a.t in s.threads { assert KnowsPath(h, a.t, s.threads[a.t]); }
    MoveKeepsPaths(s, a.t, n.threads[a.t], n, h);
  }

  lemma StepKeepsPaths(l: Limits, s: State, a: Action, h: Paths)
    requires PathInv(s, h) && Enabled(s, a)
    ensures PathInv(Apply(l, s, a), PathsStep(h, a))
  {
    hide Apply;
    if a.CallAcquire? || a.LaunchSucceeds? || a.InstallStep? {
      NewPaths(l, s, a, h);
    } else if a.AcquireStepOf? {
      AcquireKeepsPaths(l, s, a, h);
    } else if a.Dies? {
      DeathKeepsPaths(l, s, a.p, h);
    } else if a.PublishStep? || a.Wake? {
      AgainKeepsPaths(l, s, a, h);
    } else if TakesLock(a) {
      LockedKeepsPaths(l, s, a, h);
    } else {
      OtherKeepsPaths(l, s, a, h);
    }
  }

  lemma DeathKeepsPaths(l: Limits, s: State, p: Pid, h: Paths)
    requires PathInv(s, h) && Enabled(s, Dies(p))
    ensures PathInv(Apply(l, s, Dies(p)), h)
  {
  }

  lemma {:induction false} RunKeepsPaths(l: Limits, s: State, acts: seq<Action>, h: Paths)
    requires PathInv(s, h) && CanRun(l, s, acts)
    ensures PathInv(Exec(l, s, acts), PathsOf(h, acts))
    decreases |acts|
  {
    if acts != [] {
      StepKeepsPaths(l, s, acts[0], h);
      RunKeepsPaths(l, Apply(l, s, acts[0]), acts[1..], PathsStep(h, acts[0]));
    }
  }

  // ----- what a call gets

  /** The process died, was launched for another path than call t asked for, or gave all its leases. */
  predicate Unfit(l: Limits, s: State, h: Paths, t: Tid, p: Pid) {
    || p in s.dead
    || !(t in h.asked && p in h.made && h.made[p] == h.asked[t])
    || (p in s.grants && l.maxUses <= s.grants[p])
  }

  ghost predicate LeasesFit(s: State, h: Paths) {
    forall t :: t in s.threads && s.threads[t].Leased? ==>
      t in h.asked && s.threads[t].p in h.made && h.made[s.threads[t].p] == h.asked[t]
  }

  /** In every run each lease is on a process that was launched for the path its call asked for. */
  lemma LeasesMatchPaths(l: Limits, acts: seq<Action>)
    requires CanRun(l, Start, acts)
    ensures LeasesFit(Exec(l, Start, acts), PathsOf(NoPaths, acts))
  {
    RunKeepsPaths(l, Start, acts, NoPaths);
    var s, h := Exec(l, Start, acts), PathsOf(NoPaths, acts);
    forall t | t in s.threads && s.threads[t].Leased?
      ensures t in h.asked && s.threads[t].p in h.made && h.made[s.threads[t].p] == h.asked[t]
    {
      assert KnowsPath(h, t, s.threads[t]);
    }
  }

  /** The slot holds a process and nobody works on it. */
  predicate Offers(s: State, p: Pid) { !s.slot.busy && s.slot.process == Some(p) }

  /**
   * What a turn of Acquire decides, in every reachable state. A closed, failed or cancelled call ends
   * and touches nothing. Otherwise it leases the process in the slot exactly when that one is fit, not
   * retiring and has a place left; it retires it exactly when it is unfit and unleased, and marks it
   * exactly when it is unfit and leased; it launches exactly when the slot is free and empty; and else
   * it sleeps.
   */
  ghost predicate Decides(l: Limits, s: State, h: Paths, t: Tid, cancelled: bool, n: State)
    requires t in n.threads
  {
    var pc, free := n.threads[t], !s.slot.closed && !s.slot.failed && !cancelled;
    && (pc.Finished? <==> !free)
    && (pc.Finished? ==> n.slot == s.slot)
    && (forall p: Pid :: pc == Leased(p) <==>
          free && Offers(s, p) && !Unfit(l, s, h, t, p) && !s.slot.retiring && s.slot.active < l.maxConcurrency)
    && (forall p: Pid :: pc.Closing? && pc.detached == Some(p) <==>
          free && Offers(s, p) && Unfit(l, s, h, t, p) && s.slot.active == 0)
    && (pc.Launching? <==> free && !s.slot.busy && s.slot.process.None?)
    && (forall p: Pid :: n.slot.retiring && s.slot.process == Some(p) <==>
          Offers(s, p) && (s.slot.retiring || (free && Unfit(l, s, h, t, p) && 0 < s.slot.active)))
    && (pc.Leased? || pc.Launching? ==> n.slot.idle.None?)
    && (pc.Leased? || pc.Finished? || pc.AcquireAsleep? || pc.Launching? || (pc.Closing? && pc.detached.Some?))
  }

  lemma AcquireDecides(l: Limits, acts: seq<Action>, t: Tid, cancelled: bool)
    requires l.Valid() && CanRun(l, Start, acts) && Enabled(Exec(l, Start, acts), AcquireStepOf(t, cancelled))
    ensures var s := Exec(l, Start, acts);
            Decides(l, s, PathsOf(NoPaths, acts), t, cancelled, Apply(l, s, AcquireStepOf(t, cancelled)))
  {
    var s, h := Exec(l, Start, acts), PathsOf(NoPaths, acts);
    RunKeepsPaths(l, Start, acts, NoPaths);
    ReachableInv(l, s);
    OnlyHolder(l, s, t);
    assert KnowsPath(h, t, s.threads[t]);
    StepDecides(l, s, h, t, cancelled);
  }

  lemma StepDecides(l: Limits, s: State, h: Paths, t: Tid, cancelled: bool)
    requires l.Valid() && Inv(l, s) && PathInv(s, h) && Enabled(s, AcquireStepOf(t, cancelled))
    requires KnowsPath(h, t, s.threads[t]) && (s.slot.process.None? && !s.slot.closed ==> s.slot.active == 0)
    ensures Decides(l, s, h, t, cancelled, Apply(l, s, AcquireStepOf(t, cancelled)))
  {
    assert t in h.asked && h.asked[t] == s.threads[t].path;
  }

  /** A lease on the process in the slot is told apart from one on a process just launched. */
  lemma ReuseIsTold(l: Limits, s: State, a: Action)
    requires l.Valid() && Reachable(l, s) && Enabled(s, a) && a.AcquireStepOf? && AcquireOutcome(l, s, a).Granted?
    ensures var step := AcquireOutcome(l, s, a);
            step.lease in s.grants && (step.reused <==> 0 < s.grants[step.lease])
  {
    ReachableInv(l, s);
  }

  // ----- what a release and a failure leave behind

  /** No further lease may be given on p after this release. */
  predicate WearsOut(l: Limits, s: State, p: Pid, healthy: bool) {
    s.slot.process != Some(p) || s.slot.retiring || !healthy || (p in s.grants && l.maxUses <= s.grants[p])
  }

  /**
   * A release dooms its process exactly when it reports it unhealthy, its leases are used up, or it was
   * doomed before; the last one then closes it at once. Otherwise the process stays in the slot.
   */
  lemma ReleaseDecides(l: Limits, s: State, t: Tid, healthy: bool)
    requires l.Valid() && Reachable(l, s) && Enabled(s, ReleaseStepOf(t, healthy))
    ensures var p := s.threads[t].p;
            var n := Apply(l, s, ReleaseStepOf(t, healthy));
            && p in n.grants && n.grants == s.grants
            && (Doomed(n, p) <==> WearsOut(l, s, p, healthy))
            && (n.threads[t] == Closing(Some(p), ThenRelease) <==>
                  s.slot.process == Some(p) && s.slot.active == 1 && WearsOut(l, s, p, healthy))
            && (!n.threads[t].Closing? ==> n.threads[t].Finished? && n.slot.process == s.slot.process)
  {
    ReachableInv(l, s);
    OnlyHolder(l, s, t);
  }

  /** A process that was reported unhealthy is never leased again. */
  lemma UnhealthyIsNeverLeased(l: Limits, s: State, t: Tid, acts: seq<Action>)
    requires l.Valid() && Reachable(l, s) && Enabled(s, ReleaseStepOf(t, false))
    requires CanRun(l, Apply(l, s, ReleaseStepOf(t, false)), acts)
    ensures var p := s.threads[t].p;
            var n := Exec(l, Apply(l, s, ReleaseStepOf(t, false)), acts);
            p in s.grants && p in n.grants && n.grants[p] == s.grants[p]
  {
    var p := s.threads[t].p;
    hide Doomed, Apply, Inv, LeaseInv;
    ReachableInv(l, s);
    StepKeepsInv(l, s, ReleaseStepOf(t, false));
    ReleaseDecides(l, s, t, false);
    RetiringGrantsNothing(l, Apply(l, s, ReleaseStepOf(t, false)), acts, p);
  }

  /** After a failed retirement the slot stays empty and nobody launches for it. */
  predicate FailInv(s: State) {
    s.slot.failed ==>
      s.slot.process.None? && forall t :: t in s.threads ==> !s.threads[t].Launching? && !s.threads[t].Launched?
  }

  lemma LockedRecordsFailure(l: Limits, s: State, a: Action)
    requires Enabled(s, a) && (TakesLock(a) || a.AcquireStepOf? || a.InstallStep?)
    ensures Apply(l, s, a).slot.failed <==> s.slot.failed || (a.PublishStep? && s.threads[a.t].failed)
  {
  }

  /** The failure is recorded exactly when a call publishes one. */
  lemma FailureIsRecorded(l: Limits, s: State, a: Action)
    requires Enabled(s, a)
    ensures Apply(l, s, a).slot.failed <==> s.slot.failed || (a.PublishStep? && s.threads[a.t].failed)
  {
    if TakesLock(a) || a.AcquireStepOf? || a.InstallStep? {
      LockedRecordsFailure(l, s, a);
    } else {
      hide ApplyAcquire, ApplyInstall, ApplyPublish, ApplyRelease, ApplyExpire, ApplyCapture, ApplyStop;
    }
  }

  /** A step that leaves the slot empty and starts no launch. */
  lemma QuietAfterFailure(s: State, t: Tid, pc: PC, n: State)
    requires FailInv(s) && s.slot.failed && n.threads == s.threads[t := pc] && !pc.Launching? && !pc.Launched?
    requires n.slot.process.None?
    ensures FailInv(n)
  {
  }

  lemma PublishKeepsFailure(l: Limits, s: State, a: Action)
    requires OwnerInv(s) && FailInv(s) && Enabled(s, a) && a.PublishStep?
    ensures FailInv(Apply(l, s, a)) && Apply(l, s, a).grants == s.grants
  {
    assert Owns(s.threads[a.t]);
  }

  lemma LockedKeepsFailure(l: Limits, s: State, a: Action)
    requires FailInv(s) && s.slot.failed && Enabled(s, a)
    requires !a.PublishStep? && (TakesLock(a) || a.AcquireStepOf?)
    ensures FailInv(Apply(l, s, a)) && Apply(l, s, a).grants == s.grants
  {
    hide FailInv, ApplyInstall, ApplyPublish;
    var n := Apply(l, s, a);
    assert s.slot.process.None? by { EmptyAfterFailure(s); }
    QuietAfterFailure(s, a.t, n.threads[a.t], n);
  }

  lemma EmptyAfterFailure(s: State)
    requires FailInv(s) && s.slot.failed
    ensures s.slot.process.None?
  {
  }

  lemma OtherKeepsFailure(l: Limits, s: State, a: Action)
    requires FailInv(s) && s.slot.failed && Enabled(s, a) && !TakesLock(a) && !a.AcquireStepOf?
    ensures FailInv(Apply(l, s, a)) && Apply(l, s, a).grants == s.grants
  {
    hide ApplyAcquire, ApplyInstall, ApplyPublish, ApplyRelease, ApplyExpire, ApplyCapture, ApplyStop;
  }

  lemma StepKeepsFailure(l: Limits, s: State, a: Action)
    requires OwnerInv(s) && FailInv(s) && Enabled(s, a)
    ensures FailInv(Apply(l, s, a)) && (s.slot.failed ==> Apply(l, s, a).grants == s.grants)
  {
    FailureIsRecorded(l, s, a);
    hide Apply, OwnerInv, TakesLock;
    if a.PublishStep? {
      PublishKeepsFailure(l, s, a);
    } else if !s.slot.failed {
    } else if TakesLock(a) || a.AcquireStepOf? {
      LockedKeepsFailure(l, s, a);
    } else {
      OtherKeepsFailure(l, s, a);
    }
  }

  lemma {:induction false} RunKeepsFailure(l: Limits, s: State, acts: seq<Action>)
    requires l.Valid() && Inv(l, s) && FailInv(s) && CanRun(l, s, acts)
    ensures FailInv(Exec(l, s, acts))
    ensures s.slot.failed ==> Exec(l, s, acts).slot.failed && Exec(l, s, acts).grants == s.grants
    decreases |acts|
  {
    if acts != [] {
      StepKeepsInv(l, s, acts[0]);
      StepKeepsFailure(l, s, acts[0]);
      FailureIsRecorded(l, s, acts[0]);
      RunKeepsFailure(l, Apply(l, s, acts[0]), acts[1..]);
    }
  }

  /** Once the closing of a process failed, no run gives a lease or installs a process again. */
  lemma NoLeaseAfterFailure(l: Limits, s: State, acts: seq<Action>)
    requires l.Valid() && Reachable(l, s) && s.slot.failed && CanRun(l, s, acts)
    ensures var n := Exec(l, s, acts); n.slot.failed && n.grants == s.grants && n.slot.process.None?
  {
    var past :| CanRun(l, Start, past) && Exec(l, Start, past) == s;
    ReachableInv(l, s);
    assert Holders(Start.threads) == {};
    RunKeepsFailure(l, Start, past);
    RunKeepsFailure(l, s, acts);
  }
}
