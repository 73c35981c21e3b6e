/**
 * The shared native browser: one process slot guarded by a mutex.
 *
 * Every stretch of code that runs with the mutex held is one region. Each region is a function on
 * Slot, and a method of class Runtime that performs the field updates in source order and is proved
 * equal to that function. Closing a process and launching one happen between regions.
 */
module BrowserRuntime {
  import opened Wrappers

  /** Identity of one launched native process. */
  type Pid = nat

  datatype Limits = Limits(maxConcurrency: int, maxUses: int) {
    predicate Valid() { 0 < maxConcurrency && 0 < maxUses }
  }

  /** The mutable fields of the runtime. The channel `changed` is a generation number. */
  datatype Slot = Slot(
    process: Option<Pid>, path: string, active: int, uses: int,
    busy: bool, retiring: bool, closed: bool, failed: bool,
    idle: Option<Pid>, generation: nat)

  datatype Refusal = RuntimeClosed | RuntimeFailed | Cancelled

  datatype AcquireStep =
    | Refused(why: Refusal)
    | Retire(process: Option<Pid>)
    | Launch
    | Granted(lease: Pid, reused: bool)
    | Sleep(generation: nat)

  datatype ReleaseStep = Released | RetireNow(process: Option<Pid>)

  datatype WaitStep = Rejected(why: Refusal) | Reserve(process: Option<Pid>) | WaitOn(generation: nat)

  const Idle := Slot(None, "", 0, 0, false, false, false, false, None, 0)

  function Notify(s: Slot): Slot { s.(generation := s.generation + 1) }

  /** Empties the slot and reserves it. */
  function Detach(s: Slot): Slot {
    s.(process := None, idle := None, busy := true, retiring := false)
  }

  function AcquireRegion(l: Limits, s: Slot, path: string, alive: bool, cancelled: bool): (Slot, AcquireStep) {
    if s.closed then (s, Refused(RuntimeClosed))
    else if s.failed then (s, Refused(RuntimeFailed))
    else if cancelled then (s, Refused(Cancelled))
    else
      var worn := !s.busy && s.process.Some? && (!alive || s.path != path || s.uses >= l.maxUses);
      var r := if worn then s.(retiring := true) else s;
      if !r.busy && r.retiring && r.active == 0 then (Detach(r), Retire(r.process))
      else if !r.busy && !r.retiring && r.active < l.maxConcurrency then
        if r.process.None? then (r.(idle := None, busy := true), Launch)
        else (r.(idle := None, active := r.active + 1, uses := r.uses + 1),
              Granted(r.process.value, r.uses + 1 > 1))
      else (r, Sleep(r.generation))
  }

  /** A launch succeeded: install the process and lease it, unless the runtime closed meanwhile. */
  function InstallRegion(s: Slot, path: string, p: Pid): (Slot, Option<Pid>) {
    if s.closed then (s, None)
    else (Notify(s.(busy := false, process := Some(p), path := path, uses := 1, active := s.active + 1)), Some(p))
  }

  /** A launch or a capture is over and left nothing in the slot. */
  function AbandonRegion(s: Slot): Slot { Notify(s.(busy := false)) }

  /** Publishes the outcome of closing a detached process. */
  function PublishRegion(s: Slot, failed: bool): Slot {
    Notify(s.(failed := s.failed || failed, busy := false))
  }

  function ReleaseRegion(l: Limits, s: Slot, lease: Pid, healthy: bool): (Slot, ReleaseStep) {
    var r := s.(active := s.active - 1);
    if r.process != Some(lease) then (Notify(r), Released)
    else
      var q := r.(retiring := r.retiring || !healthy || r.uses >= l.maxUses);
      if q.active == 0 && q.retiring then (Detach(q), RetireNow(q.process))
      else if q.active == 0 then (Notify(q.(idle := Some(lease))), Released)
      else (Notify(q), Released)
  }

  function ExpireRegion(s: Slot, p: Pid): (Slot, Option<Pid>) {
    if s.process != Some(p) || s.active != 0 || s.busy then (s, None) else (Detach(s), Some(p))
  }

  /** One turn of the loop in Close, after `closed` is set. */
  function StopTurn(s: Slot): (Slot, WaitStep) {
    if s.busy then (s, WaitOn(s.generation)) else (Detach(s), Reserve(s.process))
  }

  function StopRegion(s: Slot): (Slot, WaitStep) { StopTurn(Notify(s.(closed := true))) }

  function CaptureRegion(s: Slot, cancelled: bool): (Slot, WaitStep) {
    if s.closed then (s, Rejected(RuntimeClosed))
    else if cancelled then (s, Rejected(Cancelled))
    else if !s.busy && s.active == 0 then (Detach(s), Reserve(s.process))
    else (s, WaitOn(s.generation))
  }

  class Runtime {
    const limits: Limits
    var process: Option<Pid>
    var path: string
    var active: int
    var uses: int
    var busy: bool
    var retiring: bool
    var closed: bool
    var failed: bool
    var idle: Option<Pid>
    var changed: nat

    ghost function View(): Slot
      reads this
    {
      Slot(process, path, active, uses, busy, retiring, closed, failed, idle, changed)
    }

    constructor (limits: Limits)
      requires limits.Valid()
      ensures View() == Idle && this.limits == limits
    {
      this.limits := limits;
      process, path, active, uses := None, "", 0, 0;
      busy, retiring, closed, failed := false, false, false, false;
      idle, changed := None, 0;
    }

    method NotifyAll()
      modifies this`changed
      ensures View() == Notify(old(View()))
    {
      changed := changed + 1;
    }

    method DetachProcess() returns (p: Option<Pid>)
      modifies this
      ensures View() == Detach(old(View())) && p == old(process)
    {
      idle := None;
      p := process;
      process := None;
      busy := true;
      retiring := false;
    }

    method Acquire(wanted: string, alive: bool, cancelled: bool) returns (step: AcquireStep)
      modifies this
      ensures (View(), step) == AcquireRegion(limits, old(View()), wanted, alive, cancelled)
    {
      if closed { return Refused(RuntimeClosed); }
      if failed { return Refused(RuntimeFailed); }
      if cancelled { return Refused(Cancelled); }
      if !busy && process.Some? && (!alive || path != wanted || uses >= limits.maxUses) {
        retiring := true;
      }
      if !busy && retiring && active == 0 {
        var p := DetachProcess();
        return Retire(p);
      }
      if !busy && !retiring && active < limits.maxConcurrency {
        idle := None;
        if process.None? {
          busy := true;
          return Launch;
        }
        active := active + 1;
        uses := uses + 1;
        return Granted(process.value, uses > 1);
      }
      return Sleep(changed);
    }

    method Install(wanted: string, p: Pid) returns (lease: Option<Pid>)
      modifies this
      ensures (View(), lease) == InstallRegion(old(View()), wanted, p)
    {
      if closed { return None; }
      busy := false;
      process, path, uses := Some(p), wanted, 0;
      NotifyAll();
      active := active + 1;
      uses := uses + 1;
      return Some(p);
    }

    method Abandon()
      modifies this
      ensures View() == AbandonRegion(old(View()))
    {
      busy := false;
      NotifyAll();
    }

    method FinishRetirement(closeFailed: bool)
      modifies this
      ensures View() == PublishRegion(old(View()), closeFailed)
    {
      failed := failed || closeFailed;
      busy := false;
      NotifyAll();
    }

    method Release(lease: Pid, healthy: bool) returns (step: ReleaseStep)
      modifies this
      ensures (View(), step) == ReleaseRegion(limits, old(View()), lease, healthy)
    {
      active := active - 1;
      if process != Some(lease) {
        NotifyAll();
        return Released;
      }
      retiring := retiring || !healthy || uses >= limits.maxUses;
      if active == 0 && retiring {
        var p := DetachProcess();
        return RetireNow(p);
      }
      if active == 0 {
        idle := Some(lease);
      }
      NotifyAll();
      return Released;
    }

    method Expire(p: Pid) returns (retired: Option<Pid>)
      modifies this
      ensures (View(), retired) == ExpireRegion(old(View()), p)
    {
      if process != Some(p) || active != 0 || busy { return None; }
      retired := DetachProcess();
    }

    method Stop() returns (step: WaitStep)
      modifies this
      ensures (View(), step) == StopRegion(old(View()))
    {
      closed := true;
      NotifyAll();
      step := StopAgain();
    }

    method StopAgain() returns (step: WaitStep)
      modifies this
      ensures (View(), step) == StopTurn(old(View()))
    {
      if busy { return WaitOn(changed); }
      var p := DetachProcess();
      return Reserve(p);
    }

    method Capture(cancelled: bool) returns (step: WaitStep)
      modifies this
      ensures (View(), step) == CaptureRegion(old(View()), cancelled)
    {
      if closed { return Rejected(RuntimeClosed); }
      if cancelled { return Rejected(Cancelled); }
      if !busy && active == 0 {
        var p := DetachProcess();
        return Reserve(p);
      }
      return WaitOn(changed);
    }
  }
}
