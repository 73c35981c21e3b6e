/** What the lease protocol guarantees in every state of every run. */
module LeaseSafety {
  import opened Wrappers
  import opened BrowserRuntime
  import opened LeaseProtocol

  ghost predicate CanRun(l: Limits, s: State, acts: seq<Action>)
    decreases |acts|
  {
    acts == [] || (Enabled(s, acts[0]) && CanRun(l, Apply(l, s, acts[0]), acts[1..]))
  }

  /** The state after a run of enabled actions. */
  ghost function Exec(l: Limits, s: State, acts: seq<Action>): State
    requires CanRun(l, s, acts)
    decreases |acts|
  {
    if acts == [] then s else Exec(l, Apply(l, s, acts[0]), acts[1..])
  }

  ghost predicate Reachable(l: Limits, s: State) {
    exists acts :: CanRun(l, Start, acts) && Exec(l, Start, acts) == s
  }

  lemma {:induction false} RunKeepsInv(l: Limits, s: State, acts: seq<Action>)
    requires l.Valid() && Inv(l, s) && CanRun(l, s, acts)
    ensures Inv(l, Exec(l, s, acts))
    decreases |acts|
  {
    if acts != [] {
      StepKeepsInv(l, s, acts[0]);
      RunKeepsInv(l, Apply(l, s, acts[0]), acts[1..]);
    }
  }

  lemma ReachableInv(l: Limits, s: State)
    requires l.Valid() && Reachable(l, s)
    ensures Inv(l, s)
  {
    var acts :| CanRun(l, Start, acts) && Exec(l, Start, acts) == s;
    assert Holders(Start.threads) == {};
    RunKeepsInv(l, Start, acts);
  }

  // ----- one process, one owner

  /** `busy` is an exclusive token, held only while the slot is empty; at most one process exists. */
  lemma AtMostOneProcess(l: Limits, s: State)
    requires l.Valid() && Reachable(l, s)
    ensures |s.live| <= 1
    ensures forall p, q :: p in s.live && q in s.live ==> p == q
    ensures s.slot.busy ==> s.slot.process.None?
    ensures s.slot.busy <==> exists t :: t in s.threads && Owns(s.threads[t])
    ensures forall t, u :: t in s.threads && u in s.threads && Owns(s.threads[t]) && Owns(s.threads[u]) ==> t == u
  {
    ReachableInv(l, s);
    if s.slot.busy { assert Owns(s.threads[s.owner.value]); }
  }

  // ----- leases

  /** The count kept by the code is the number of leases not yet released, within the limits. */
  lemma LeasesAreCounted(l: Limits, s: State)
    requires l.Valid() && Reachable(l, s)
    ensures s.slot.active == |Holders(s.threads)| <= l.maxConcurrency
    ensures forall p :: p in s.grants ==> s.grants[p] <= l.maxUses
    ensures !s.slot.closed ==>
              forall t :: t in s.threads && s.threads[t].Leased? ==> s.slot.process == Some(s.threads[t].p)
  {
    ReachableInv(l, s);
  }

  /** Process p gives no lease any more: it is marked for retirement or already out of the slot. */
  predicate Doomed(s: State, p: Pid) {
    && p in s.spawned
    && (s.slot.process == Some(p) ==> s.slot.retiring)
    && (forall t :: t in s.threads && s.threads[t].Launched? ==> s.threads[t].p != p)
  }

  lemma DoomedMove(l: Limits, s: State, t: Tid, pc: PC, n: State, p: Pid)
    requires Inv(l, s) && LegalMove(l, s, t, pc, n) && Doomed(s, p) && p in s.grants
    ensures Doomed(n, p) && p in n.grants && n.grants[p] == s.grants[p]
  {
  }

  /** Once a process is retiring, no run ever grants another lease on it. */
  lemma {:induction false} RetiringGrantsNothing(l: Limits, s: State, acts: seq<Action>, p: Pid)
    requires l.Valid() && Inv(l, s) && CanRun(l, s, acts)
    requires Doomed(s, p) && p in s.grants
    ensures var n := Exec(l, s, acts); p in n.grants && n.grants[p] == s.grants[p]
    decreases |acts|
  {
    if acts != [] {
      StepKeepsInv(l, s, acts[0]);
      var n := Apply(l, s, acts[0]);
      if !acts[0].Dies? {
        MoveIsLegal(l, s, acts[0]);
        DoomedMove(l, s, acts[0].t, n.threads[acts[0].t], n, p);
      }
      RetiringGrantsNothing(l, n, acts[1..], p);
    }
  }

  /** A retiring process in the slot is doomed, so the theorem above applies to it. */
  lemma RetiringIsDoomed(l: Limits, s: State)
    requires l.Valid() && Reachable(l, s) && s.slot.retiring
    ensures s.slot.process.Some? && s.slot.process.value in s.grants && Doomed(s, s.slot.process.value)
  {
    ReachableInv(l, s);
  }

  /** Only Close ends a process that somebody still leases. */
  lemma OnlyCloseEndsLeasedProcess(l: Limits, s: State, a: Action, t: Tid)
    requires l.Valid() && Reachable(l, s) && Enabled(s, a)
    requires t in s.threads && s.threads[t].Leased? && s.threads[t].p in s.live
    requires s.threads[t].p !in Apply(l, s, a).live
    ensures a.CloseProcess? && s.threads[a.t].after.ThenStop? && s.slot.closed
  {
    ReachableInv(l, s);
    OnlyHolder(l, s, t);
  }

  // ----- close

  lemma ClosedMove(l: Limits, s: State, t: Tid, pc: PC, n: State)
    requires LegalMove(l, s, t, pc, n) && s.slot.closed
    ensures n.slot.closed && n.grants == s.grants && Holders(n.threads) <= Holders(s.threads)
  {
  }

  /** Once Close has begun, no run grants a lease. */
  lemma {:induction false} NoLeaseAfterClose(l: Limits, s: State, acts: seq<Action>)
    requires l.Valid() && Inv(l, s) && CanRun(l, s, acts) && s.slot.closed
    ensures var n := Exec(l, s, acts);
            n.slot.closed && n.grants == s.grants && Holders(n.threads) <= Holders(s.threads)
    decreases |acts|
  {
    if acts != [] {
      StepKeepsInv(l, s, acts[0]);
      var n := Apply(l, s, acts[0]);
      if !acts[0].Dies? {
        MoveIsLegal(l, s, acts[0]);
        ClosedMove(l, s, acts[0].t, n.threads[acts[0].t], n);
      }
      NoLeaseAfterClose(l, n, acts[1..]);
    }
  }

  lemma StoppedStep(l: Limits, s: State, a: Action, t: Tid)
    requires Enabled(s, a) && t in s.threads && s.threads[t].Stopped?
    ensures var n := Apply(l, s, a); t in n.threads && n.threads[t].Stopped?
  {
  }

  lemma {:induction false} StoppedStays(l: Limits, s: State, acts: seq<Action>, t: Tid)
    requires CanRun(l, s, acts) && t in s.threads && s.threads[t].Stopped?
    ensures var n := Exec(l, s, acts); t in n.threads && n.threads[t].Stopped?
    decreases |acts|
  {
    if acts != [] {
      StoppedStep(l, s, acts[0], t);
      StoppedStays(l, Apply(l, s, acts[0]), acts[1..], t);
    }
  }

  /** After Close returned no process is alive, now or later: no launch race leaves an orphan. */
  lemma NoProcessAfterClose(l: Limits, s: State, acts: seq<Action>, t: Tid)
    requires l.Valid() && Reachable(l, s) && CanRun(l, s, acts)
    requires t in s.threads && s.threads[t].Stopped?
    ensures var n := Exec(l, s, acts); n.live == {} && n.slot.process.None? && n.grants == s.grants
  {
    ReachableInv(l, s);
    RunKeepsInv(l, s, acts);
    StoppedStays(l, s, acts, t);
    assert Stopping(s.threads[t]);
    NoLeaseAfterClose(l, s, acts);
    assert PastStop(Exec(l, s, acts).threads[t]);
  }

  // ----- wake-ups and progress

  /** A sleeper that no notification reached would go straight back to sleep if it looked again. */
  lemma NoLostWakeup(l: Limits, s: State, t: Tid, path: string, alive: bool)
    requires l.Valid() && Reachable(l, s) && t in s.threads && Asleep(s.threads[t])
    ensures s.threads[t].generation <= s.slot.generation
    ensures !Enabled(s, Wake(t)) ==>
              match s.threads[t]
              case AcquireAsleep(_, _) => AcquireRegion(l, s.slot, path, alive, false).1.Sleep?
              case CaptureAsleep(_) => CaptureRegion(s.slot, false).1.WaitOn?
              case StopAsleep(_) => StopTurn(s.slot).1.WaitOn?
  {
    ReachableInv(l, s);
    OnlyHolder(l, s, t);
  }

  /** How many actions the holder of `busy` still takes before it hands the slot over. */
  function Rank(pc: PC): nat {
    match pc
    case Launching(_) => 4
    case Launched(_, _) => 3
    case Orphan(_) => 2
    case Abandoning => 1
    case Closing(_, _) => 2
    case Publishing(_, _) => 1
    case CaptureClosing(_) => 4
    case CaptureReady => 3
    case Capturing(_) => 2
    case CaptureEnd => 1
    case _ => 0
  }

  lemma OwnerRanks(l: Limits, s: State, a: Action)
    requires OwnerInv(s) && Enabled(s, a) && !a.Dies? && s.owner == Some(a.t)
    ensures var n := Apply(l, s, a);
            && a.t in n.threads
            && (n.owner == s.owner ==> Rank(n.threads[a.t]) < Rank(s.threads[a.t]))
            && (n.owner != s.owner ==> n.owner.None? && s.slot.generation < n.slot.generation)
  {
    hide AcquireRegion, ReleaseRegion, ExpireRegion, CaptureRegion;
    assert Owns(s.threads[a.t]);
  }

  /** Each action of the owner brings the hand-over closer; the hand-over wakes every sleeper. */
  lemma OwnerHandsOver(l: Limits, s: State, a: Action)
    requires l.Valid() && Reachable(l, s) && Enabled(s, a) && !a.Dies? && s.owner == Some(a.t) && a.t in s.threads
    ensures var n := Apply(l, s, a);
            && a.t in n.threads
            && if n.owner == s.owner then Rank(n.threads[a.t]) < Rank(s.threads[a.t])
               else n.owner.None?
                    && forall t :: t != a.t && t in n.threads && Asleep(n.threads[t]) ==> Enabled(n, Wake(t))
  {
    ReachableInv(l, s);
    OwnerRanks(l, s, a);
    MoveIsLegal(l, s, a);
    var n := Apply(l, s, a);
    Awakened(l, s, a.t, n.threads[a.t], n);
  }

  lemma Awakened(l: Limits, s: State, t: Tid, pc: PC, n: State)
    requires SleepInv(l, s) && n.threads == s.threads[t := pc]
    ensures s.slot.generation < n.slot.generation ==>
              forall u :: u != t && u in n.threads && Asleep(n.threads[u]) ==> Enabled(n, Wake(u))
  {
  }

  /** Nobody else can take the token away or move its holder. */
  lemma OwnerIsUndisturbed(l: Limits, s: State, a: Action, o: Tid)
    requires l.Valid() && Reachable(l, s) && Enabled(s, a) && s.owner == Some(o) && (a.Dies? || a.t != o)
    ensures var n := Apply(l, s, a);
            o in s.threads && n.owner == Some(o) && o in n.threads && n.threads[o] == s.threads[o]
  {
    ReachableInv(l, s);
    if !a.Dies? { MoveIsLegal(l, s, a); }
  }

  /** The action that moves a call forward when nothing outside has to happen first. */
  function NextOf(s: State, t: Tid): Action
    requires t in s.threads
  {
    match s.threads[t]
    case AcquireTop(_) => AcquireStepOf(t, false)
    case AcquireAsleep(_, _) => Wake(t)
    case Launching(_) => LaunchFails(t)
    case Launched(_, _) => InstallStep(t)
    case Orphan(_) => CloseOrphan(t)
    case Abandoning => AbandonStep(t)
    case Closing(_, _) => CloseProcess(t, false)
    case Publishing(_, _) => PublishStep(t)
    case Leased(_) => ReleaseStepOf(t, true)
    case ExpireTop(_) => ExpireStep(t)
    case CaptureTop => CaptureStep(t, false)
    case CaptureAsleep(_) => Wake(t)
    case CaptureClosing(_) => CaptureClose(t, false)
    case CaptureReady => CaptureFails(t)
    case Capturing(_) => CaptureExits(t)
    case CaptureEnd => CaptureFinish(t)
    case StopTop => StopStep(t)
    case StopAsleep(_) => Wake(t)
    case StopFinal => StopReturn(t)
    case Stopped => Wake(t)
    case Finished => Wake(t)
  }

  lemma StuckIsAsleep(l: Limits, s: State, t: Tid)
    requires t in s.threads && !s.threads[t].Finished? && !s.threads[t].Stopped?
    ensures Enabled(s, NextOf(s, t)) || (Asleep(s.threads[t]) && s.threads[t].generation == s.slot.generation)
  {
  }

  /** A call that cannot go on waits for a `busy` owner or a lease holder, and that one can go on. */
  lemma NoDeadlock(l: Limits, s: State, t: Tid) returns (u: Tid)
    requires l.Valid() && Reachable(l, s)
    requires t in s.threads && !s.threads[t].Finished? && !s.threads[t].Stopped?
    ensures u in s.threads && Enabled(s, NextOf(s, u))
    ensures u == t || (Asleep(s.threads[t]) && (s.owner == Some(u) || s.threads[u].Leased?))
  {
    ReachableInv(l, s);
    u := t;
    StuckIsAsleep(l, s, t);
    if !Enabled(s, NextOf(s, t)) {
      assert Blocked(l, s.slot, s.threads[t]);
      u := WaitedFor(l, s, t);
      StuckIsAsleep(l, s, u);
    }
  }

  lemma WaitedFor(l: Limits, s: State, t: Tid) returns (u: Tid)
    requires l.Valid() && Inv(l, s) && t in s.threads && Asleep(s.threads[t]) && Blocked(l, s.slot, s.threads[t])
    ensures u in s.threads && (s.owner == Some(u) || s.threads[u].Leased?)
    ensures Owns(s.threads[u]) || s.threads[u].Leased?
  {
    if s.slot.busy {
      u := s.owner.value;
      assert Owns(s.threads[u]);
    } else {
      assert Holders(s.threads) != {};
      u :| u in Holders(s.threads);
    }
  }

  /** Releasing a lease wakes every sleeper, or takes the token whose hand-over will. */
  lemma ReleaseNotifies(l: Limits, s: State, a: Action)
    requires l.Valid() && Reachable(l, s) && Enabled(s, a) && a.ReleaseStepOf?
    ensures var n := Apply(l, s, a);
            n.slot.active == s.slot.active - 1
            && (s.slot.generation < n.slot.generation || (n.owner == Some(a.t) && n.threads[a.t].Closing?))
  {
    ReachableInv(l, s);
  }

  /** An installed process without leases is not retiring and its retirement is under way. */
  lemma IdleProcessIsTimed(l: Limits, s: State, t: Tid)
    requires l.Valid() && Reachable(l, s) && s.slot.process.Some? && s.slot.active == 0
    ensures !s.slot.retiring && !s.slot.busy && s.slot.idle == s.slot.process
    ensures s.timer.None? && t !in s.threads ==> Enabled(s, TimerFires(t))
    ensures s.timer.Some? ==>
              var a := ExpireStep(s.timer.value);
              Enabled(s, a) && Apply(l, s, a).threads[a.t] == Closing(s.slot.process, ThenExpire)
  {
    ReachableInv(l, s);
  }
}
