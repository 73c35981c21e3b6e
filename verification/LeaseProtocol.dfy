/**
 * All interleavings of Acquire, Release, CaptureDOM, Close and idle expiry.
 *
 * A thread is one call; its program counter says which region it runs next or what it waits for.
 * One action is one locked region, one outside event (a process starts, ends or dies, a context is
 * cancelled, the idle timer fires) or one wake-up.
 */
module LeaseProtocol {
  import opened Wrappers
  import opened BrowserRuntime

  type Tid = nat

  /** What a thread does once the process it detached is closed. */
  datatype After = ThenAcquire(path: string) | ThenRelease | ThenExpire | ThenStop

  datatype PC =
    | AcquireTop(path: string)
    | AcquireAsleep(path: string, generation: nat)
    | Launching(path: string)
    | Launched(path: string, p: Pid)
    | Orphan(p: Pid)
    | Abandoning
    | Closing(detached: Option<Pid>, after: After)
    | Publishing(failed: bool, after: After)
    | Leased(p: Pid)
    | ExpireTop(p: Pid)
    | CaptureTop
    | CaptureAsleep(generation: nat)
    | CaptureClosing(detached: Option<Pid>)
    | CaptureReady
    | Capturing(p: Pid)
    | CaptureEnd
    | StopTop
    | StopAsleep(generation: nat)
    | StopFinal
    | Stopped
    | Finished

  /**
   * `live` holds the processes that were launched and not yet closed, `spawned` every process ever
   * launched, `grants` the number of leases each process gave. `owner` is the thread behind `busy`
   * and `timer` the call spawned by the idle timer in force, once it has fired.
   */
  datatype State = State(
    slot: Slot, threads: map<Tid, PC>, live: set<Pid>, spawned: set<Pid>, dead: set<Pid>,
    grants: map<Pid, nat>, owner: Option<Tid>, timer: Option<Tid>)

  const Start := State(Idle, map[], {}, {}, {}, map[], None, None)

  datatype Action =
    | CallAcquire(t: Tid, path: string)
    | CallCapture(t: Tid)
    | CallStop(t: Tid)
    | AcquireStepOf(t: Tid, cancelled: bool)
    | Wake(t: Tid)
    | CancelWait(t: Tid)
    | LaunchSucceeds(t: Tid, p: Pid)
    | LaunchFails(t: Tid)
    | InstallStep(t: Tid)
    | CloseOrphan(t: Tid)
    | AbandonStep(t: Tid)
    | CloseProcess(t: Tid, failed: bool)
    | PublishStep(t: Tid)
    | ReleaseStepOf(t: Tid, healthy: bool)
    | TimerFires(t: Tid)
    | ExpireStep(t: Tid)
    | CaptureStep(t: Tid, cancelled: bool)
    | CaptureClose(t: Tid, failed: bool)
    | CaptureStarts(t: Tid, p: Pid)
    | CaptureFails(t: Tid)
    | CaptureExits(t: Tid)
    | CaptureFinish(t: Tid)
    | StopStep(t: Tid)
    | StopReturn(t: Tid)
    | Dies(p: Pid)

  predicate At(s: State, t: Tid) { t in s.threads }

  predicate Enabled(s: State, a: Action) {
    match a
    case CallAcquire(t, _) => !At(s, t)
    case CallCapture(t) => !At(s, t)
    case CallStop(t) => !At(s, t)
    case AcquireStepOf(t, _) => At(s, t) && s.threads[t].AcquireTop?
    case Wake(t) => At(s, t) && Asleep(s.threads[t]) && s.threads[t].generation != s.slot.generation
    case CancelWait(t) => At(s, t) && (s.threads[t].AcquireAsleep? || s.threads[t].CaptureAsleep?)
    case LaunchSucceeds(t, p) => At(s, t) && s.threads[t].Launching? && p !in s.spawned
    case LaunchFails(t) => At(s, t) && s.threads[t].Launching?
    case InstallStep(t) => At(s, t) && s.threads[t].Launched?
    case CloseOrphan(t) => At(s, t) && s.threads[t].Orphan?
    case AbandonStep(t) => At(s, t) && s.threads[t].Abandoning?
    case CloseProcess(t, _) => At(s, t) && s.threads[t].Closing?
    case PublishStep(t) => At(s, t) && s.threads[t].Publishing?
    case ReleaseStepOf(t, _) => At(s, t) && s.threads[t].Leased?
    case TimerFires(t) => !At(s, t) && s.slot.idle.Some? && s.timer.None?
    case ExpireStep(t) => At(s, t) && s.threads[t].ExpireTop?
    case CaptureStep(t, _) => At(s, t) && s.threads[t].CaptureTop?
    case CaptureClose(t, _) => At(s, t) && s.threads[t].CaptureClosing?
    case CaptureStarts(t, p) => At(s, t) && s.threads[t].CaptureReady? && p !in s.spawned
    case CaptureFails(t) => At(s, t) && s.threads[t].CaptureReady?
    case CaptureExits(t) => At(s, t) && s.threads[t].Capturing?
    case CaptureFinish(t) => At(s, t) && s.threads[t].CaptureEnd?
    case StopStep(t) => At(s, t) && s.threads[t].StopTop?
    case StopReturn(t) => At(s, t) && s.threads[t].StopFinal?
    case Dies(p) => p in s.live
  }

  predicate Asleep(pc: PC) { pc.AcquireAsleep? || pc.CaptureAsleep? || pc.StopAsleep? }

  function Go(s: State, t: Tid, pc: PC): State { s.(threads := s.threads[t := pc]) }

  /** Thread t ran a locked region that leaves the slot as given. */
  function Commit(s: State, t: Tid, slot: Slot, pc: PC): State {
    s.(slot := slot, threads := s.threads[t := pc],
       owner := if !slot.busy then None else if s.slot.busy then s.owner else Some(t),
       timer := if slot.idle == s.slot.idle then s.timer else None)
  }

  function Granting(s: State, p: Pid): map<Pid, nat> {
    s.grants[p := (if p in s.grants then s.grants[p] else 0) + 1]
  }

  function Without(live: set<Pid>, p: Option<Pid>): set<Pid> {
    if p.Some? then live - {p.value} else live
  }

  function ApplyAcquire(l: Limits, s: State, t: Tid, path: string, cancelled: bool): State {
    var alive := s.slot.process.Some? && s.slot.process.value !in s.dead;
    var (slot, step) := AcquireRegion(l, s.slot, path, alive, cancelled);
    match step
    case Refused(_) => Commit(s, t, slot, Finished)
    case Retire(p) => Commit(s, t, slot, Closing(p, ThenAcquire(path)))
    case Launch => Commit(s, t, slot, Launching(path))
    case Granted(p, _) => Commit(s, t, slot, Leased(p)).(grants := Granting(s, p))
    case Sleep(g) => Commit(s, t, slot, AcquireAsleep(path, g))
  }

  function ApplyInstall(s: State, t: Tid, path: string, p: Pid): State {
    var (slot, lease) := InstallRegion(s.slot, path, p);
    if lease.None? then Commit(s, t, slot, Orphan(p))
    else Commit(s, t, slot, Leased(p)).(grants := Granting(s, p))
  }

  function ApplyPublish(s: State, t: Tid, failed: bool, after: After): State {
    Commit(s, t, PublishRegion(s.slot, failed),
      match after
      case ThenAcquire(path) => if failed then Finished else AcquireTop(path)
      case ThenRelease => Finished
      case ThenExpire => Finished
      case ThenStop => StopFinal)
  }

  function ApplyRelease(l: Limits, s: State, t: Tid, p: Pid, healthy: bool): State {
    var (slot, step) := ReleaseRegion(l, s.slot, p, healthy);
    Commit(s, t, slot, if step.Released? then Finished else Closing(step.process, ThenRelease))
  }

  function ApplyExpire(s: State, t: Tid, p: Pid): State {
    var (slot, retired) := ExpireRegion(s.slot, p);
    Commit(s, t, slot, if retired.None? then Finished else Closing(retired, ThenExpire))
  }

  function ApplyCapture(s: State, t: Tid, cancelled: bool): State {
    var (slot, step) := CaptureRegion(s.slot, cancelled);
    Commit(s, t, slot,
      match step
      case Rejected(_) => Finished
      case Reserve(p) => CaptureClosing(p)
      case WaitOn(g) => CaptureAsleep(g))
  }

  function ApplyStop(s: State, t: Tid, turn: (Slot, WaitStep)): State {
    Commit(s, t, turn.0,
      match turn.1
      case Rejected(_) => Finished
      case Reserve(p) => Closing(p, ThenStop)
      case WaitOn(g) => StopAsleep(g))
  }

  function Apply(l: Limits, s: State, a: Action): State
    requires Enabled(s, a)
  {
    match a
    case CallAcquire(t, path) => Go(s, t, AcquireTop(path))
    case CallCapture(t) => Go(s, t, CaptureTop)
    case CallStop(t) => Go(s, t, StopTop)
    case AcquireStepOf(t, cancelled) => ApplyAcquire(l, s, t, s.threads[t].path, cancelled)
    case Wake(t) =>
      (match s.threads[t]
       case AcquireAsleep(path, _) => Go(s, t, AcquireTop(path))
       case CaptureAsleep(_) => Go(s, t, CaptureTop)
       case StopAsleep(_) => ApplyStop(s, t, StopTurn(s.slot)))
    case CancelWait(t) => Go(s, t, Finished)
    case LaunchSucceeds(t, p) =>
      Go(s, t, Launched(s.threads[t].path, p)).(live := s.live + {p}, spawned := s.spawned + {p})
    case LaunchFails(t) => Go(s, t, Abandoning)
    case InstallStep(t) => ApplyInstall(s, t, s.threads[t].path, s.threads[t].p)
    case CloseOrphan(t) => Go(s, t, Abandoning).(live := s.live - {s.threads[t].p})
    case AbandonStep(t) => Commit(s, t, AbandonRegion(s.slot), Finished)
    case CloseProcess(t, failed) =>
      var p := s.threads[t].detached;
      Go(s, t, Publishing(failed && p.Some?, s.threads[t].after)).(live := Without(s.live, p))
    case PublishStep(t) => ApplyPublish(s, t, s.threads[t].failed, s.threads[t].after)
    case ReleaseStepOf(t, healthy) => ApplyRelease(l, s, t, s.threads[t].p, healthy)
    case TimerFires(t) => Go(s, t, ExpireTop(s.slot.idle.value)).(timer := Some(t))
    case ExpireStep(t) => ApplyExpire(s, t, s.threads[t].p)
    case CaptureStep(t, cancelled) => ApplyCapture(s, t, cancelled)
    case CaptureClose(t, failed) =>
      var p := s.threads[t].detached;
      Go(s, t, if failed && p.Some? then CaptureEnd else CaptureReady).(live := Without(s.live, p))
    case CaptureStarts(t, p) => Go(s, t, Capturing(p)).(live := s.live + {p}, spawned := s.spawned + {p})
    case CaptureFails(t) => Go(s, t, CaptureEnd)
    case CaptureExits(t) => Go(s, t, CaptureEnd).(live := s.live - {s.threads[t].p})
    case CaptureFinish(t) => Commit(s, t, AbandonRegion(s.slot), Finished)
    case StopStep(t) => ApplyStop(s, t, StopRegion(s.slot))
    case StopReturn(t) => Go(s, t, Stopped)
    case Dies(p) => s.(dead := s.dead + {p})
  }

  // ----- the invariant

  /** The calls that hold the `busy` token. */
  predicate Owns(pc: PC) {
    pc.Launching? || pc.Launched? || pc.Orphan? || pc.Abandoning? || pc.Closing? || pc.Publishing?
    || pc.CaptureClosing? || pc.CaptureReady? || pc.Capturing? || pc.CaptureEnd?
  }

  /** The process in the hands of a thread rather than in the slot. */
  function Hand(pc: PC): Option<Pid> {
    match pc
    case Launched(_, p) => Some(p)
    case Orphan(p) => Some(p)
    case Closing(p, _) => p
    case CaptureClosing(p) => p
    case Capturing(p) => Some(p)
    case _ => None
  }

  function OwnerHand(s: State): Option<Pid> {
    if s.owner.Some? && s.owner.value in s.threads then Hand(s.threads[s.owner.value]) else None
  }

  function Held(p: Option<Pid>): set<Pid> { if p.Some? then {p.value} else {} }

  function Holders(threads: map<Tid, PC>): set<Tid> {
    set t | t in threads && threads[t].Leased?
  }

  ghost predicate OwnerInv(s: State) {
    && (s.slot.busy <==> s.owner.Some?)
    && (s.owner.Some? ==> s.owner.value in s.threads)
    && (forall t :: t in s.threads ==> (Owns(s.threads[t]) <==> s.owner == Some(t)))
    && (s.slot.busy ==> s.slot.process.None?)
  }

  ghost predicate LiveInv(s: State) {
    && s.live == Held(if s.slot.process.Some? then s.slot.process else OwnerHand(s))
    && s.live <= s.spawned
    && s.grants.Keys <= s.spawned
    && (forall t :: t in s.threads && Unleased(s.threads[t]) ==> s.threads[t].p !in s.grants)
  }

  /** Calls holding a process that never gave a lease. */
  predicate Unleased(pc: PC) { pc.Launched? || pc.Orphan? || pc.Capturing? }

  /** Calls other than Close that are about to close the process they detached. */
  predicate RetiringIdle(pc: PC) {
    (pc.Closing? && !pc.after.ThenStop?) || pc.CaptureClosing?
  }

  ghost predicate LeaseInv(l: Limits, s: State) {
    && s.slot.active == |Holders(s.threads)|
    && s.slot.active <= l.maxConcurrency
    && (forall t :: t in s.threads && s.threads[t].Leased? ==>
          s.threads[t].p in s.grants
          && (s.slot.process == Some(s.threads[t].p) || (s.slot.closed && s.slot.process.None?)))
    && (forall t :: t in s.threads && RetiringIdle(s.threads[t]) ==> s.slot.active == 0)
  }

  ghost predicate UseInv(l: Limits, s: State) {
    && (s.slot.process.Some? ==>
          s.slot.process.value in s.grants && 1 <= s.slot.uses == s.grants[s.slot.process.value])
    && (forall p :: p in s.grants ==> s.grants[p] <= l.maxUses)
  }

  ghost predicate IdleInv(s: State) {
    && s.slot.idle == (if s.slot.active == 0 then s.slot.process else None)
    && (s.slot.retiring ==> s.slot.process.Some? && 0 < s.slot.active)
    && (s.timer.Some? ==>
          s.slot.idle.Some? && s.timer.value in s.threads
          && s.threads[s.timer.value] == ExpireTop(s.slot.idle.value))
  }

  /** What keeps a thread that fell asleep on the current generation from going on. */
  predicate Blocked(l: Limits, s: Slot, pc: PC) {
    match pc
    case AcquireAsleep(_, _) =>
      !s.closed && !s.failed && (s.busy || (s.retiring && 0 < s.active) || l.maxConcurrency <= s.active)
    case CaptureAsleep(_) => !s.closed && (s.busy || 0 < s.active)
    case StopAsleep(_) => s.closed && s.busy
    case _ => true
  }

  ghost predicate SleepInv(l: Limits, s: State) {
    forall t :: t in s.threads && Asleep(s.threads[t]) ==>
      s.threads[t].generation <= s.slot.generation
      && (s.threads[t].generation == s.slot.generation ==> Blocked(l, s.slot, s.threads[t]))
  }

  predicate Stopping(pc: PC) {
    pc.StopAsleep? || pc.StopFinal? || pc.Stopped?
    || (pc.Closing? && pc.after.ThenStop?) || (pc.Publishing? && pc.after.ThenStop?)
  }

  predicate PastStop(pc: PC) { pc.StopFinal? || pc.Stopped? }

  /** Only Close itself, with nothing in hand, uses the slot after a Close emptied it for good. */
  predicate StoppedFor(s: State) {
    && s.slot.process.None? && s.live == {}
    && (s.owner.Some? && s.owner.value in s.threads ==> Stopping(s.threads[s.owner.value]))
  }

  ghost predicate StopInv(s: State) {
    && (forall t :: t in s.threads && Stopping(s.threads[t]) ==> s.slot.closed)
    && (forall t :: t in s.threads && PastStop(s.threads[t]) ==> StoppedFor(s))
  }

  ghost predicate Inv(l: Limits, s: State) {
    OwnerInv(s) && LiveInv(s) && LeaseInv(l, s) && UseInv(l, s) && IdleInv(s) && SleepInv(l, s) && StopInv(s)
  }

  // ----- preservation

  lemma HoldersUpdate(threads: map<Tid, PC>, t: Tid, pc: PC)
    ensures Holders(threads[t := pc]) ==
            if pc.Leased? then Holders(threads) + {t} else Holders(threads) - {t}
  {
  }

  lemma HoldersCount(threads: map<Tid, PC>, t: Tid, pc: PC)
    ensures var was := if t in threads && threads[t].Leased? then 1 else 0;
            var now := if pc.Leased? then 1 else 0;
            |Holders(threads[t := pc])| == |Holders(threads)| + now - was
  {
    HoldersUpdate(threads, t, pc);
    var h := Holders(threads);
    if t in h { assert h == (h - {t}) + {t}; }
  }

  /** With no active lease no thread holds one; with one, only the given holder does. */
  lemma OnlyHolder(l: Limits, s: State, t: Tid)
    requires Inv(l, s)
    ensures s.slot.active == 0 ==> forall u :: u in s.threads ==> !s.threads[u].Leased?
    ensures s.slot.active == 1 && t in s.threads && s.threads[t].Leased? ==>
            forall u :: u in s.threads && s.threads[u].Leased? ==> u == t
    ensures s.slot.process.None? && !s.slot.closed ==> s.slot.active == 0
    ensures 0 <= s.slot.active
  {
    var h := Holders(s.threads);
    forall u | u in s.threads && s.threads[u].Leased?
      ensures h != {} && (s.slot.active == 1 && t in h ==> u == t)
    {
      assert u in h;
      if t in h && u != t { assert |{t, u}| == 2 && {t, u} <= h; CardinalityOfSubset({t, u}, h); }
    }
  }

  lemma CardinalityOfSubset<T>(a: set<T>, b: set<T>)
    requires a <= b
    ensures |a| <= |b|
  {
    assert b == a + (b - a);
  }

  function Lease(pc: PC): int { if pc.Leased? then 1 else 0 }

  function LeaseAt(s: State, t: Tid): int { if t in s.threads then Lease(s.threads[t]) else 0 }

  /** The fields of state n after thread t moved to pc fit together, whatever the other threads do. */
  ghost predicate LegalMove(l: Limits, s: State, t: Tid, pc: PC, n: State) {
    && n.threads == s.threads[t := pc]
    && MoveOwner(s, t, pc, n) && MoveLeases(l, s, t, pc, n) && UseInv(l, n)
    && MoveIdle(s, t, pc, n) && MoveSleep(l, s, pc, n) && MoveStop(s, pc, n) && MoveGrants(s, t, pc, n)
  }

  /** A lease is granted only by an open runtime, on a process that is not retiring. */
  ghost predicate MoveGrants(s: State, t: Tid, pc: PC, n: State) {
    && (if pc.Leased? then !s.slot.closed && !s.slot.retiring && n.grants == Granting(s, pc.p)
        else n.grants == s.grants)
    && (n.slot.process.Some? ==>
          || (n.slot.process == s.slot.process && (s.slot.retiring ==> n.slot.retiring))
          || (t in s.threads && s.threads[t].Launched? && n.slot.process == Some(s.threads[t].p)))
    && (pc.Launched? ==> pc.p !in s.spawned)
  }

  ghost predicate MoveOwner(s: State, t: Tid, pc: PC, n: State) {
    && (n.slot.busy <==> n.owner.Some?)
    && (n.owner == s.owner || (s.owner.None? && n.owner == Some(t)) || (s.owner == Some(t) && n.owner.None?))
    && (Owns(pc) <==> n.owner == Some(t))
    && (n.slot.busy ==> n.slot.process.None?)
    && n.live == Held(if n.slot.process.Some? then n.slot.process
                      else if n.owner == Some(t) then Hand(pc)
                      else if n.owner.Some? then OwnerHand(s) else None)
    && n.live <= n.spawned && s.spawned <= n.spawned && n.grants.Keys <= n.spawned
    && (Unleased(pc) ==> pc.p !in n.grants)
    && (n.grants.Keys == s.grants.Keys || s.owner.None? || s.owner == Some(t))
  }

  ghost predicate MoveLeases(l: Limits, s: State, t: Tid, pc: PC, n: State) {
    && n.slot.active == s.slot.active + Lease(pc) - LeaseAt(s, t)
    && n.slot.active <= l.maxConcurrency
    && (pc.Leased? ==> n.slot.process == Some(pc.p) && pc.p in n.grants)
    && s.grants.Keys <= n.grants.Keys
    && (RetiringIdle(pc) ==> n.slot.active == 0)
    && (s.slot.active < n.slot.active ==> s.owner.None? || s.owner == Some(t))
    && (s.slot.closed ==> n.slot.closed)
    && (n.slot.process == s.slot.process || (n.slot.closed && n.slot.process.None?) || n.slot.active == Lease(pc))
  }

  ghost predicate MoveIdle(s: State, t: Tid, pc: PC, n: State) {
    && n.slot.idle == (if n.slot.active == 0 then n.slot.process else None)
    && (n.slot.retiring ==> n.slot.process.Some? && 0 < n.slot.active)
    && (n.timer.Some? ==>
          || (n.timer == s.timer != Some(t) && n.slot.idle == s.slot.idle)
          || (n.timer == Some(t) && n.slot.idle.Some? && pc == ExpireTop(n.slot.idle.value)))
  }

  ghost predicate MoveSleep(l: Limits, s: State, pc: PC, n: State) {
    && s.slot.generation <= n.slot.generation
    && (s.slot.generation == n.slot.generation ==>
          forall q :: Asleep(q) && Blocked(l, s.slot, q) ==> Blocked(l, n.slot, q))
    && (Asleep(pc) ==> pc.generation == n.slot.generation && Blocked(l, n.slot, pc))
  }

  ghost predicate MoveStop(s: State, pc: PC, n: State) {
    && (Stopping(pc) ==> n.slot.closed)
    && (PastStop(pc) ==> StoppedFor(n))
    && (s.slot.closed && StoppedFor(s) ==> StoppedFor(n))
  }

  lemma LegalMoveKeepsInv(l: Limits, s: State, t: Tid, pc: PC, n: State)
    requires Inv(l, s) && LegalMove(l, s, t, pc, n)
    ensures Inv(l, n)
  {
    LegalMoveOwner(l, s, t, pc, n);
    LegalMoveLeases(l, s, t, pc, n);
    LegalMoveSleep(l, s, t, pc, n);
    LegalMoveStop(l, s, t, pc, n);
  }

  lemma LegalMoveSleep(l: Limits, s: State, t: Tid, pc: PC, n: State)
    requires SleepInv(l, s) && n.threads == s.threads[t := pc] && MoveSleep(l, s, pc, n)
    ensures SleepInv(l, n)
  {
  }

  lemma LegalMoveStop(l: Limits, s: State, t: Tid, pc: PC, n: State)
    requires StopInv(s) && n.threads == s.threads[t := pc] && MoveStop(s, pc, n)
    requires s.slot.closed ==> n.slot.closed
    ensures StopInv(n)
  {
    forall u | u in n.threads && PastStop(n.threads[u]) ensures StoppedFor(n) {
      if u != t { assert Stopping(s.threads[u]); }
    }
  }

  lemma LegalMoveOwner(l: Limits, s: State, t: Tid, pc: PC, n: State)
    requires Inv(l, s) && n.threads == s.threads[t := pc] && MoveOwner(s, t, pc, n)
    ensures OwnerInv(n) && LiveInv(n)
  {
  }

  lemma LegalMoveLeases(l: Limits, s: State, t: Tid, pc: PC, n: State)
    requires Inv(l, s) && n.threads == s.threads[t := pc] && MoveLeases(l, s, t, pc, n)
    ensures LeaseInv(l, n)
  {
    HoldersCount(s.threads, t, pc);
    OnlyHolder(l, s, t);
    var h := Holders(n.threads);
    forall u | u in n.threads && n.threads[u].Leased? && u != t
      ensures Lease(pc) < n.slot.active
    {
      var mine := if pc.Leased? then {t, u} else {u};
      assert mine <= h && |mine| == Lease(pc) + 1;
      CardinalityOfSubset(mine, h);
    }
  }

  /** What one region of Acquire does when thread t runs it. */
  function AcquireOutcome(l: Limits, s: State, a: Action): AcquireStep
    requires Enabled(s, a) && a.AcquireStepOf?
  {
    var alive := s.slot.process.Some? && s.slot.process.value !in s.dead;
    AcquireRegion(l, s.slot, s.threads[a.t].path, alive, a.cancelled).1
  }

  lemma MoveCall(l: Limits, s: State, a: Action)
    requires l.Valid() && Inv(l, s) && Enabled(s, a)
    requires a.CallAcquire? || a.CallCapture? || a.CallStop?
    ensures var n := Apply(l, s, a); LegalMove(l, s, a.t, n.threads[a.t], n)
  {
    hide ApplyAcquire, ApplyInstall, ApplyPublish, ApplyRelease, ApplyExpire, ApplyCapture, ApplyStop;
    hide SleepInv, Blocked;
    OnlyHolder(l, s, a.t);
  }

  lemma MoveAside(l: Limits, s: State, a: Action)
    requires l.Valid() && Inv(l, s) && Enabled(s, a)
    requires a.CancelWait? || a.StopReturn?
    ensures var n := Apply(l, s, a); LegalMove(l, s, a.t, n.threads[a.t], n)
  {
    hide ApplyAcquire, ApplyInstall, ApplyPublish, ApplyRelease, ApplyExpire, ApplyCapture, ApplyStop;
    hide SleepInv, Blocked;
    OnlyHolder(l, s, a.t);
  }

  lemma MoveFailure(l: Limits, s: State, a: Action)
    requires l.Valid() && Inv(l, s) && Enabled(s, a)
    requires a.LaunchFails? || a.CaptureFails?
    ensures var n := Apply(l, s, a); LegalMove(l, s, a.t, n.threads[a.t], n)
  {
    hide ApplyAcquire, ApplyInstall, ApplyPublish, ApplyRelease, ApplyExpire, ApplyCapture, ApplyStop;
    hide SleepInv, Blocked;
    OnlyHolder(l, s, a.t);
  }

  lemma MoveAbandon(l: Limits, s: State, a: Action)
    requires l.Valid() && Inv(l, s) && Enabled(s, a)
    requires a.AbandonStep? || a.CaptureFinish?
    ensures var n := Apply(l, s, a); LegalMove(l, s, a.t, n.threads[a.t], n)
  {
    OnlyHolder(l, s, a.t);
  }

  lemma MoveLaunch(l: Limits, s: State, a: Action)
    requires l.Valid() && Inv(l, s) && Enabled(s, a)
    requires a.LaunchSucceeds?
    ensures var n := Apply(l, s, a); LegalMove(l, s, a.t, n.threads[a.t], n)
  {
    OnlyHolder(l, s, a.t);
  }

  lemma MoveInstall(l: Limits, s: State, a: Action)
    requires l.Valid() && Inv(l, s) && Enabled(s, a)
    requires a.InstallStep?
    ensures var n := Apply(l, s, a); LegalMove(l, s, a.t, n.threads[a.t], n)
  {
    OnlyHolder(l, s, a.t);
  }

  lemma MoveOrphan(l: Limits, s: State, a: Action)
    requires l.Valid() && Inv(l, s) && Enabled(s, a)
    requires a.CloseOrphan?
    ensures var n := Apply(l, s, a); LegalMove(l, s, a.t, n.threads[a.t], n)
  {
    OnlyHolder(l, s, a.t);
  }

  lemma MoveClose(l: Limits, s: State, a: Action)
    requires l.Valid() && Inv(l, s) && Enabled(s, a)
    requires a.CloseProcess?
    ensures var n := Apply(l, s, a); LegalMove(l, s, a.t, n.threads[a.t], n)
  {
    OnlyHolder(l, s, a.t);
  }

  lemma MovePublish(l: Limits, s: State, a: Action)
    requires l.Valid() && Inv(l, s) && Enabled(s, a)
    requires a.PublishStep?
    ensures var n := Apply(l, s, a); LegalMove(l, s, a.t, n.threads[a.t], n)
  {
    OnlyHolder(l, s, a.t);
  }

  lemma MoveRelease(l: Limits, s: State, a: Action)
    requires l.Valid() && Inv(l, s) && Enabled(s, a)
    requires a.ReleaseStepOf?
    ensures var n := Apply(l, s, a); LegalMove(l, s, a.t, n.threads[a.t], n)
  {
    OnlyHolder(l, s, a.t);
  }

  lemma MoveTimer(l: Limits, s: State, a: Action)
    requires l.Valid() && Inv(l, s) && Enabled(s, a)
    requires a.TimerFires?
    ensures var n := Apply(l, s, a); LegalMove(l, s, a.t, n.threads[a.t], n)
  {
    OnlyHolder(l, s, a.t);
  }

  lemma MoveExpire(l: Limits, s: State, a: Action)
    requires l.Valid() && Inv(l, s) && Enabled(s, a)
    requires a.ExpireStep?
    ensures var n := Apply(l, s, a); LegalMove(l, s, a.t, n.threads[a.t], n)
  {
    OnlyHolder(l, s, a.t);
  }

  lemma MoveCapture(l: Limits, s: State, a: Action)
    requires l.Valid() && Inv(l, s) && Enabled(s, a)
    requires a.CaptureStep?
    ensures var n := Apply(l, s, a); LegalMove(l, s, a.t, n.threads[a.t], n)
  {
    OnlyHolder(l, s, a.t);
  }

  lemma MoveCaptureClose(l: Limits, s: State, a: Action)
    requires l.Valid() && Inv(l, s) && Enabled(s, a)
    requires a.CaptureClose?
    ensures var n := Apply(l, s, a); LegalMove(l, s, a.t, n.threads[a.t], n)
  {
    OnlyHolder(l, s, a.t);
  }

  lemma CaptureStartOwner(s: State, t: Tid, p: Pid, n: State)
    requires OwnerInv(s) && LiveInv(s) && Enabled(s, CaptureStarts(t, p))
    requires n == Go(s, t, Capturing(p)).(live := s.live + {p}, spawned := s.spawned + {p})
    ensures MoveOwner(s, t, Capturing(p), n)
  {
    assert Owns(s.threads[t]) && Hand(s.threads[t]) == None;
  }

  lemma MoveCaptureStart(l: Limits, s: State, a: Action)
    requires l.Valid() && Inv(l, s) && Enabled(s, a)
    requires a.CaptureStarts?
    ensures var n := Apply(l, s, a); LegalMove(l, s, a.t, n.threads[a.t], n)
  {
    hide SleepInv, Blocked, MoveOwner;
    CaptureStartOwner(s, a.t, a.p, Apply(l, s, a));
  }

  lemma MoveCaptureExit(l: Limits, s: State, a: Action)
    requires l.Valid() && Inv(l, s) && Enabled(s, a)
    requires a.CaptureExits?
    ensures var n := Apply(l, s, a); LegalMove(l, s, a.t, n.threads[a.t], n)
  {
    hide ApplyAcquire, ApplyInstall, ApplyPublish, ApplyRelease, ApplyExpire, ApplyCapture, ApplyStop;
    hide SleepInv, Blocked;
    OnlyHolder(l, s, a.t);
  }

  lemma MoveStopStep(l: Limits, s: State, a: Action)
    requires l.Valid() && Inv(l, s) && Enabled(s, a)
    requires a.StopStep?
    ensures var n := Apply(l, s, a); LegalMove(l, s, a.t, n.threads[a.t], n)
  {
    OnlyHolder(l, s, a.t);
  }

  lemma MoveWake(l: Limits, s: State, a: Action)
    requires l.Valid() && Inv(l, s) && Enabled(s, a)
    requires a.Wake? && !s.threads[a.t].StopAsleep?
    ensures var n := Apply(l, s, a); LegalMove(l, s, a.t, n.threads[a.t], n)
  {
    OnlyHolder(l, s, a.t);
  }

  lemma MoveWakeStop(l: Limits, s: State, a: Action)
    requires l.Valid() && Inv(l, s) && Enabled(s, a)
    requires a.Wake? && s.threads[a.t].StopAsleep?
    ensures var n := Apply(l, s, a); LegalMove(l, s, a.t, n.threads[a.t], n)
  {
    OnlyHolder(l, s, a.t);
  }

  lemma MoveAcquireRefused(l: Limits, s: State, a: Action)
    requires l.Valid() && Inv(l, s) && Enabled(s, a)
    requires a.AcquireStepOf? && AcquireOutcome(l, s, a).Refused?
    ensures var n := Apply(l, s, a); LegalMove(l, s, a.t, n.threads[a.t], n)
  {
    OnlyHolder(l, s, a.t);
  }

  lemma MoveAcquireRetire(l: Limits, s: State, a: Action)
    requires l.Valid() && Inv(l, s) && Enabled(s, a)
    requires a.AcquireStepOf? && AcquireOutcome(l, s, a).Retire?
    ensures var n := Apply(l, s, a); LegalMove(l, s, a.t, n.threads[a.t], n)
  {
    OnlyHolder(l, s, a.t);
  }

  lemma MoveAcquireLaunching(l: Limits, s: State, a: Action)
    requires l.Valid() && Inv(l, s) && Enabled(s, a)
    requires a.AcquireStepOf? && AcquireOutcome(l, s, a).Launch?
    ensures var n := Apply(l, s, a); LegalMove(l, s, a.t, n.threads[a.t], n)
  {
    OnlyHolder(l, s, a.t);
  }

  lemma MoveAcquireGranted(l: Limits, s: State, a: Action)
    requires l.Valid() && Inv(l, s) && Enabled(s, a)
    requires a.AcquireStepOf? && AcquireOutcome(l, s, a).Granted?
    ensures var n := Apply(l, s, a); LegalMove(l, s, a.t, n.threads[a.t], n)
  {
    OnlyHolder(l, s, a.t);
  }

  lemma MoveAcquireSleep(l: Limits, s: State, a: Action)
    requires l.Valid() && Inv(l, s) && Enabled(s, a)
    requires a.AcquireStepOf? && AcquireOutcome(l, s, a).Sleep?
    ensures var n := Apply(l, s, a); LegalMove(l, s, a.t, n.threads[a.t], n)
  {
    OnlyHolder(l, s, a.t);
  }

  lemma MoveAcquire(l: Limits, s: State, a: Action)
    requires l.Valid() && Inv(l, s) && Enabled(s, a) && a.AcquireStepOf?
    ensures var n := Apply(l, s, a); LegalMove(l, s, a.t, n.threads[a.t], n)
  {
    match AcquireOutcome(l, s, a)
    case Refused(_) => MoveAcquireRefused(l, s, a);
    case Retire(_) => MoveAcquireRetire(l, s, a);
    case Launch => MoveAcquireLaunching(l, s, a);
    case Granted(_, _) => MoveAcquireGranted(l, s, a);
    case Sleep(_) => MoveAcquireSleep(l, s, a);
  }

  lemma MoveIsLegal(l: Limits, s: State, a: Action)
    requires l.Valid() && Inv(l, s) && Enabled(s, a) && !a.Dies?
    ensures var n := Apply(l, s, a); LegalMove(l, s, a.t, n.threads[a.t], n)
  {
    hide Inv, LegalMove, Apply;
    match a
    case CallAcquire(_, _) => MoveCall(l, s, a);
    case CallCapture(_) => MoveCall(l, s, a);
    case CallStop(_) => MoveCall(l, s, a);
    case AcquireStepOf(_, _) => MoveAcquire(l, s, a);
    case Wake(t) => if s.threads[t].StopAsleep? { MoveWakeStop(l, s, a); } else { MoveWake(l, s, a); }
    case CancelWait(_) => MoveAside(l, s, a);
    case LaunchSucceeds(_, _) => MoveLaunch(l, s, a);
    case LaunchFails(_) => MoveFailure(l, s, a);
    case InstallStep(_) => MoveInstall(l, s, a);
    case CloseOrphan(_) => MoveOrphan(l, s, a);
    case AbandonStep(_) => MoveAbandon(l, s, a);
    case CloseProcess(_, _) => MoveClose(l, s, a);
    case PublishStep(_) => MovePublish(l, s, a);
    case ReleaseStepOf(_, _) => MoveRelease(l, s, a);
    case TimerFires(_) => MoveTimer(l, s, a);
    case ExpireStep(_) => MoveExpire(l, s, a);
    case CaptureStep(_, _) => MoveCapture(l, s, a);
    case CaptureClose(_, _) => MoveCaptureClose(l, s, a);
    case CaptureStarts(_, _) => MoveCaptureStart(l, s, a);
    case CaptureFails(_) => MoveFailure(l, s, a);
    case CaptureExits(_) => MoveCaptureExit(l, s, a);
    case CaptureFinish(_) => MoveAbandon(l, s, a);
    case StopStep(_) => MoveStopStep(l, s, a);
    case StopReturn(_) => MoveAside(l, s, a);
  }

  /** Every action, in every interleaving, keeps the invariant. */
  lemma StepKeepsInv(l: Limits, s: State, a: Action)
    requires l.Valid() && Inv(l, s) && Enabled(s, a)
    ensures Inv(l, Apply(l, s, a))
  {
    if !a.Dies? {
      var n := Apply(l, s, a);
      MoveIsLegal(l, s, a);
      LegalMoveKeepsInv(l, s, a.t, n.threads[a.t], n);
    }
  }
}
