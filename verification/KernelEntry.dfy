/** Boot and kernel entries on the kernel's memory, whatever their cause. */
module KernelEntry {
  import opened Common
  import opened KernelState
  import opened KernelMemory
  import opened KernelRun
  import IP = IpcPort
  import PM = ProcessManager
  import PC = ProcessControl
  import P = PortMemory
  import C = ControlMemory

  method ExecuteMessage(k: Kernel, owner: Pid, r: Request) returns (res: IP.Outcome)
    requires k.Valid() && k.s.P(owner).ipcPort.None? && IsMessage(r)
    modifies k, k.ipc, k.ready
    ensures k.Valid() && (k.s, res) == KernelRun.ExecuteMessage(old(k.s), owner, r)
  {
    var info := k.procs[owner].regs[IP.MR_MESSAGE_INFO];
    if !IP.Normal(info) { return IP.Err(IP.InvalidArgument); }
    match r {
      case ReqSend(cap, x) => res := P.Send(k, owner, cap, info, x);
      case ReqReceive(cap, x) => res := P.Receive(k, owner, cap, info, x);
      case ReqCall(cap, x) => res := P.Call(k, owner, cap, info, x);
      case ReqReply(x) => res := P.Reply(k, owner, info, x);
      case ReqReplyReceive(cap, x, y) => res := P.ReplyReceive(k, owner, cap, info, x, y);
    }
  }

  method ExecuteConfigure(k: Kernel, owner: Pid, r: Request) returns (res: IP.Outcome)
    requires k.Valid() && IsConfigure(r)
    modifies k
    ensures k.Valid() && (k.s, res) == KernelRun.ExecuteConfigure(old(k.s), owner, r)
  {
    res := IP.Ok;
    match r {
      case ReqPriority(p, priority) => res := ConfigurePriority(k, p, priority);
      case ReqAffinity(p, d) => res := ConfigureAffinity(k, p, d);
      case ReqBind(p, n) => res := C.ConfigureBinding(k, p, n);
      case ReqResolver(p, resolver) => k.SetProc(p, k.procs[p].(resolver := Some(resolver)));
      case ReqBuffer(p, isFrame) => res := ConfigureBuffer(k, p, isFrame);
      case ReqWriteRegisters(p) => res := WriteRegisters(k, owner, p);
      case ReqUnresolved => res := IP.Err(IP.InvalidDescriptor);
    }
  }

  method WriteRegisters(k: Kernel, owner: Pid, p: Pid) returns (res: IP.Outcome)
    requires k.Valid()
    modifies k
    ensures k.Valid() && (k.s, res) == PC.WriteRegisters(old(k.s), owner, p)
  {
    var count := IP.Field(k.procs[owner].regs[IP.MR_REGISTER_COUNT], 0, 64);
    if count > IP.HARDWARE_CONTEXT_SIZE { return IP.Err(IP.InvalidArgument); }
    var ok := P.OverwriteContext(k, p, owner, IP.REGISTER_START, count);
    res := if ok then IP.Ok else IP.Err(IP.FatalError);
  }

  method ConfigureBuffer(k: Kernel, p: Pid, isFrame: bool) returns (res: IP.Outcome)
    requires k.Valid()
    modifies k
    ensures k.Valid() && (k.s, res) == PC.ConfigureBuffer(old(k.s), p, isFrame)
  {
    if !isFrame { return IP.Err(IP.InvalidDescriptor); }
    k.SetProc(p, k.procs[p].(hasBuffer := true));
    res := IP.Ok;
  }

  method ConfigurePriority(k: Kernel, p: Pid, priority: nat) returns (res: IP.Outcome)
    requires k.Valid()
    modifies k
    ensures k.Valid() && (k.s, res) == PC.ConfigurePriority(old(k.s), p, priority)
  {
    if priority >= PRIORITY_MAX { return IP.Err(IP.InvalidArgument); }
    k.SetProc(p, k.procs[p].(priority := priority));
    res := IP.Ok;
  }

  method ConfigureAffinity(k: Kernel, p: Pid, d: nat) returns (res: IP.Outcome)
    requires k.Valid()
    modifies k
    ensures k.Valid() && (k.s, res) == PC.ConfigureAffinity(old(k.s), p, d)
  {
    if d >= k.coreCount { return IP.Err(IP.InvalidArgument); }
    if d != k.procs[p].affinity && (k.procs[p].status == Ready || k.cores[k.procs[p].affinity].current == Some(p)) {
      return IP.Err(IP.InvalidArgument);
    }
    k.SetProc(p, k.procs[p].(affinity := d));
    res := IP.Ok;
  }

  method Execute(k: Kernel, c: CoreId, owner: Pid, r: Request) returns (res: IP.Outcome)
    requires k.Valid() && k.s.P(owner).ipcPort.None? && k.s.P(owner).ntfPort.None?
    requires r.ReqNotify? ==> C.BoundIsFree(k.s, r.cap.port)
    modifies k, k.ipc, k.ntf, k.ready
    ensures k.Valid() && (k.s, res) == KernelRun.Execute(old(k.s), c, owner, r)
  {
    if IsMessage(r) {
      res := ExecuteMessage(k, owner, r);
    } else if IsConfigure(r) {
      res := ExecuteConfigure(k, owner, r);
    } else {
      res := ExecuteControl(k, c, owner, r);
    }
  }

  method ExecuteControl(k: Kernel, c: CoreId, owner: Pid, r: Request) returns (res: IP.Outcome)
    requires k.Valid() && k.s.P(owner).ntfPort.None? && !IsMessage(r) && !IsConfigure(r)
    requires r.ReqNotify? ==> C.BoundIsFree(k.s, r.cap.port)
    modifies k, k.ipc, k.ntf, k.ready
    ensures k.Valid() && (k.s, res) == KernelRun.Execute(old(k.s), c, owner, r)
  {
    res := IP.Ok;
    match r {
      case ReqNotify(cap) => res := C.Notify(k, c, cap);
      case ReqWait(cap) => res := C.WaitFlag(k, owner, cap);
      case ReqPoll(cap) => res := C.Poll(k, owner, cap);
      case ReqResume(p) => res := C.Resume(k, c, p);
      case ReqSuspend(p) => C.Suspend(k, p);
      case ReqRevokePort(q) => P.Revoke(k, q);
      case ReqRevokeNtf(n) => C.RevokeNotificationPort(k, n);
      case ReqRevokeProcess(p) => C.RevokeProcess(k, p);
    }
  }

  /** The process on core `c`, if any, is in no port queue. */
  ghost predicate CallerIsFree(s: State, c: CoreId) {
    s.C(c).current.Some? ==> s.P(s.C(c).current.value).ipcPort.None? && s.P(s.C(c).current.value).ntfPort.None?
  }

  method HandleCall(k: Kernel, c: CoreId, r: Request)
    requires k.Valid() && CallerIsFree(k.s, c) && (r.ReqNotify? ==> C.BoundIsFree(k.s, r.cap.port))
    modifies k, k.ipc, k.ntf, k.ready
    ensures k.Valid() && k.s == Step(old(k.s), CapabilityCall(c, r))
  {
    if k.cores[c].current.None? { return; }
    var owner := k.cores[c].current.value;
    ghost var s := k.s;
    var res := Execute(k, c, owner, r);
    ghost var t := k.s;
    Report(k, owner, res);
    CallIs(s, c, owner, r, t, res);
  }

  lemma CallIs(s: State, c: CoreId, owner: Pid, r: Request, t: State, res: IP.Outcome)
    requires s.C(c).current == Some(owner) && (t, res) == KernelRun.Execute(s, c, owner, r)
    ensures Step(s, CapabilityCall(c, r)) == Finish(t, owner, res)
  {
  }

  method Report(k: Kernel, owner: Pid, res: IP.Outcome)
    requires k.Valid()
    modifies k
    ensures k.Valid() && k.s == Finish(old(k.s), owner, res)
  {
    var regs := k.procs[owner].regs;
    match res {
      case Ok => regs := regs[IP.MR_IS_SUCCESS := {0}];
      case Err(e) => regs := regs[IP.MR_IS_SUCCESS := {}][IP.MR_ERROR_CODE := ErrorWord(e)];
    }
    k.SetProc(owner, k.procs[owner].(regs := regs));
  }

  method HandleUser(k: Kernel, c: CoreId, regs: Registers)
    requires k.Valid()
    modifies k
    ensures k.Valid() && k.s == Step(old(k.s), UserCode(c, regs))
  {
    if k.cores[c].current.None? { return; }
    var p := k.cores[c].current.value;
    k.SetProc(p, k.procs[p].(regs := regs));
  }

  /**
   Any entry on the linked memory computes the step of the kernel machine, and leaves a consistent
   kernel exactly when it is not one of those that break it.
   */
  method Enter(k: Kernel, e: Entry)
    requires k.Valid() && Good(k.s)
    modifies k, k.ipc, k.ntf, k.ready
    ensures k.Valid() && k.s == Step(old(k.s), e)
    ensures Good(k.s) <==> !Breaks(old(k.s), e)
  {
    StepKeepsIff(k.s, e);
    GoodCallers(k.s);
    Perform(k, e);
  }

  /** What the entry needs of the state before it. */
  ghost predicate Admissible(s: State, e: Entry) {
    && CallerIsFree(s, e.core) && (e.Irq? ==> C.BoundIsFree(s, e.cap.port))
    && (e.CapabilityCall? && e.request.ReqNotify? ==> C.BoundIsFree(s, e.request.cap.port))
  }

  method Perform(k: Kernel, e: Entry)
    requires k.Valid() && Admissible(k.s, e)
    modifies k, k.ipc, k.ntf, k.ready
    ensures k.Valid() && k.s == Step(old(k.s), e)
  {
    match e {
      case UserCode(c, regs) => HandleUser(k, c, regs);
      case CapabilityCall(c, r) => HandleCall(k, c, r);
      case YieldCall(c) => C.Yield(k, c);
      case TimerTick(c) => C.HandleTimer(k, c);
      case Reschedule(c) => C.HandleReschedule(k, c);
      case FaultEntry(c, fault) => C.HandleFault(k, c, fault);
      case Irq(c, cap) => var _ := C.Notify(k, c, cap);
    }
  }

  lemma GoodCallers(s: State)
    requires Good(s)
    ensures forall c: CoreId :: CallerIsFree(s, c)
    ensures forall n: NtfId :: C.BoundIsFree(s, n)
  {
    forall c: CoreId ensures CallerIsFree(s, c) {
      if s.C(c).current.Some? { PM.Running(s, c, s.C(c).current.value); }
    }
    forall n: NtfId ensures C.BoundIsFree(s, n) {
      if s.N(n).bound.Some? { assert PlaceOk(s, {}, None, s.N(n).bound.value); }
    }
  }

  /** Boot constructs the objects and schedules Init on the boot core. */
  method BootKernel(cores: CoreCount, init: Pid) returns (k: Kernel)
    ensures k.Valid() && fresh(k) && fresh(k.ipc) && fresh(k.ntf) && fresh(k.ready)
    ensures k.s == Boot(cores, init) && Good(k.s)
  {
    k := new Kernel(cores);
    k.SetProc(init, InitProcess());
    k.MarkScheduled(init);
    k.TryScheduleAndSwitch(0);
    BootGood(cores, init);
  }

  /** Whole runs from boot: as long as no entry breaks it, the memory follows the machine and stays consistent. */
  method Run(cores: CoreCount, init: Pid, es: seq<Entry>) returns (k: Kernel)
    requires Orderly(Boot(cores, init), es)
    ensures k.Valid() && k.s == After(Boot(cores, init), es) && Good(k.s)
  {
    k := BootKernel(cores, init);
    assert es[..0] == [];
    for i := 0 to |es|
      invariant k.Valid() && fresh(k) && fresh(k.ipc) && fresh(k.ntf) && fresh(k.ready)
      invariant k.s == After(Boot(cores, init), es[..i]) && Good(k.s)
    {
      AfterStep(Boot(cores, init), es, i);
      Enter(k, es[i]);
    }
    assert es[..|es|] == es;
  }
}
