/**
 Process management, notification ports and process control on the kernel's memory: each operation
 changes the fields in place and is proved to compute the function of the same name.
 */
module ControlMemory {
  import opened Common
  import opened KernelState
  import opened KernelPrimitives
  import opened KernelMemory
  import PM = ProcessManager
  import IP = IpcPort
  import NP = NotificationPort
  import PC = ProcessControl
  import PO = PortMemory

  // ---------------------------------------------------------------- process manager

  method MarkSuspended(k: Kernel, p: Pid)
    requires k.Valid()
    modifies k, k.ready
    ensures k.Valid() && k.s == PM.MarkSuspended(old(k.s), p)
  {
    var _ := k.RemoveProcess(k.procs[p].affinity, p);
    k.SetProc(p, k.procs[p].(status := BlockedSuspend));
  }

  method ScheduleIfPreemptedBy(k: Kernel, c: CoreId, p: Pid)
    requires k.Valid()
    modifies k, k.ready
    ensures k.Valid() && k.s == PM.ScheduleIfPreemptedBy(old(k.s), c, p)
  {
    var current := k.cores[c].current;
    if current.None? {
      if k.procs[p].priority > 0 { k.TryScheduleAndSwitch(c); }
    } else if k.procs[p].priority > k.procs[current.value].priority {
      if k.procs[current.value].status == Ready { var _ := k.AddProcess(current.value); }
      k.TryScheduleAndSwitch(c);
    }
  }

  method RouteMarkScheduledPreempting(k: Kernel, c: CoreId, p: Pid)
    requires k.Valid()
    modifies k, k.ready
    ensures k.Valid() && k.s == PM.RouteMarkScheduledPreempting(old(k.s), c, p)
  {
    k.MarkScheduled(p);
    if k.procs[p].affinity != c { k.Announce(p); } else { ScheduleIfPreemptedBy(k, c, p); }
  }

  method Yield(k: Kernel, c: CoreId)
    requires k.Valid()
    modifies k, k.ready
    ensures k.Valid() && k.s == PM.Yield(old(k.s), c)
  {
    if k.cores[c].current.None? {
      k.SetCore(c, k.cores[c].(idleQuantum := QUANTUM_MAX));
    } else {
      k.MarkScheduled(k.cores[c].current.value);
    }
    k.TryScheduleAndSwitch(c);
  }

  method HandleTimer(k: Kernel, c: CoreId)
    requires k.Valid()
    modifies k, k.ready
    ensures k.Valid() && k.s == PM.Timer(old(k.s), c)
  {
    var current := k.cores[c].current;
    if current.None? {
      k.SetCore(c, k.cores[c].(idleQuantum := k.cores[c].idleQuantum - 1));
      if k.cores[c].idleQuantum <= 0 { Yield(k, c); }
    } else if k.procs[current.value].status != Ready {
      k.TryScheduleAndSwitch(c);
    } else {
      CountDown(k, c, current.value);
    }
  }

  method CountDown(k: Kernel, c: CoreId, p: Pid)
    requires k.Valid()
    modifies k, k.ready
    ensures k.Valid() && k.s == PM.Ticked(old(k.s), c, p)
  {
    k.SetProc(p, k.procs[p].(quantum := k.procs[p].quantum - 1));
    if k.procs[p].quantum <= 0 { Yield(k, c); }
  }

  method HandleReschedule(k: Kernel, c: CoreId)
    requires k.Valid()
    modifies k, k.ready
    ensures k.Valid() && k.s == PM.RescheduleIpi(old(k.s), c)
  {
    var target := k.cores[c].pending;
    k.SetCore(c, k.cores[c].(pending := None));
    var current := k.cores[c].current;
    if current.None? {
      k.SetCore(c, k.cores[c].(idleQuantum := QUANTUM_MAX));
    } else if k.procs[current.value].status == Ready {
      k.MarkScheduled(current.value);
    }
    if target.Some? && k.procs[target.value].affinity == c
       && k.procs[target.value].status == Ready && k.procs[target.value].inReady
    {
      var _ := k.RemoveProcess(c, target.value);
      k.SetCore(c, k.cores[c].(current := target));
    } else {
      k.TryScheduleAndSwitch(c);
    }
  }

  method StopProcess(k: Kernel, p: Pid)
    requires k.Valid()
    modifies k, k.ready
    ensures k.Valid() && k.s == PM.StopProcess(old(k.s), p)
  {
    var c := k.procs[p].affinity;
    MarkSuspended(k, p);
    if k.cores[c].pending == Some(p) { k.SetCore(c, k.cores[c].(pending := None)); }
    if k.cores[c].current == Some(p) { k.SetCore(c, k.cores[c].(current := None)); }
  }

  // ---------------------------------------------------------------- notification ports

  method ConsumeFlag(k: Kernel, n: NtfId, taker: Pid) returns (flag: Word)
    requires k.Valid()
    modifies k
    ensures k.Valid() && k.s == ConsumeBits(old(k.s), n, taker) && flag == old(k.s).N(n).flag
  {
    flag := k.ntfs[n].flag;
    k.SetNtf(n, k.ntfs[n].(hasFlag := false, flag := {}), Some(Consumed(flag, taker)));
  }

  /** A receiver bound to `n` waits at no notification port. */
  ghost predicate BoundIsFree(s: State, n: NtfId) {
    s.N(n).bound.Some? && s.P(s.N(n).bound.value).status == BlockedReceive ==> s.P(s.N(n).bound.value).ntfPort.None?
  }

  method WakeBound(k: Kernel, c: CoreId, n: NtfId, p: Pid) returns (res: IP.Outcome)
    requires k.Valid() && k.s.P(p).ntfPort.None?
    modifies k, k.ipc, k.ready
    ensures k.Valid() && (k.s, res) == NP.WakeBound(old(k.s), c, n, p)
  {
    if k.procs[p].ipcPort.None? { return IP.Err(IP.FatalError); }
    var _ := k.RemoveIpcQueue(k.procs[p].ipcPort.value, p);
    var flag := ConsumeFlag(k, n, p);
    k.SetProc(p, k.procs[p].(regs := k.procs[p].regs[IP.MR_MESSAGE_INFO := {14}][IP.MR_IDENTIFIER := flag]));
    k.SetProc(p, k.procs[p].(status := Ready, ntfPort := None));
    RouteMarkScheduledPreempting(k, c, p);
    res := IP.Ok;
  }

  method Notify(k: Kernel, c: CoreId, cap: IP.Cap) returns (res: IP.Outcome)
    requires k.Valid() && BoundIsFree(k.s, cap.port)
    modifies k, k.ipc, k.ntf, k.ready
    ensures k.Valid() && (k.s, res) == NP.Notify(old(k.s), c, cap)
  {
    if !cap.writable { return IP.Err(IP.PermissionDenied); }
    var n := cap.port;
    k.SetNtf(n, k.ntfs[n].(hasFlag := true, flag := k.ntfs[n].flag + cap.identifier), Some(Notified(cap.identifier)));
    var bound := k.ntfs[n].bound;
    if bound.Some? && k.procs[bound.value].status == BlockedReceive {
      res := WakeBound(k, c, n, bound.value);
      return;
    }
    if !k.ntfs[n].readyToWake { return IP.Ok; }
    res := WakeWaiter(k, c, n);
  }

  method WakeWaiter(k: Kernel, c: CoreId, n: NtfId) returns (res: IP.Outcome)
    requires k.Valid()
    modifies k, k.ntf, k.ready
    ensures k.Valid()
    ensures old(k.s).N(n).queue == [] ==> k.s == old(k.s) && res == IP.Err(IP.FatalError)
    ensures old(k.s).N(n).queue != [] ==>
      var p := old(k.s).N(n).queue[0]; var popped := PopNtf(old(k.s), n); var taken := ConsumeBits(popped, n, p);
      && res == IP.Ok
      && k.s == PM.RouteMarkScheduledPreempting(IP.SetRegs(taken, p, taken.P(p).regs[NP.MR_FLAG_WORD := popped.N(n).flag]), c, p)
  {
    var head := k.PopNotificationQueue(n);
    if head.None? { return IP.Err(IP.FatalError); }
    var p := head.value;
    var flag := ConsumeFlag(k, n, p);
    k.SetProc(p, k.procs[p].(regs := k.procs[p].regs[NP.MR_FLAG_WORD := flag]));
    RouteMarkScheduledPreempting(k, c, p);
    res := IP.Ok;
  }

  method TakeFlag(k: Kernel, n: NtfId, owner: Pid)
    requires k.Valid()
    modifies k
    ensures k.Valid() && k.s == NP.TakeFlag(old(k.s), n, owner)
  {
    var flag := ConsumeFlag(k, n, owner);
    k.SetProc(owner, k.procs[owner].(regs := k.procs[owner].regs[NP.MR_FLAG_WORD := flag]));
  }

  method WaitFlag(k: Kernel, owner: Pid, cap: IP.Cap) returns (res: IP.Outcome)
    requires k.Valid() && k.s.P(owner).ntfPort.None?
    modifies k, k.ntf, k.ready
    ensures k.Valid() && (k.s, res) == NP.WaitFlag(old(k.s), owner, cap)
  {
    if !cap.readable { return IP.Err(IP.PermissionDenied); }
    var n := cap.port;
    if k.ntfs[n].bound.Some? && k.ntfs[n].bound != Some(owner) { return IP.Err(IP.FatalError); }
    res := IP.Ok;
    if !k.ntfs[n].readyToWake && k.ntfs[n].hasFlag && k.ntfs[n].flag != {} {
      TakeFlag(k, n, owner);
      return;
    }
    WaitBlocks(k, n, owner);
  }

  method WaitBlocks(k: Kernel, n: NtfId, owner: Pid)
    requires k.Valid() && k.s.P(owner).ntfPort.None?
    modifies k, k.ntf, k.ready
    ensures k.Valid()
    ensures k.s == PM.TryScheduleAndSwitch(
      PushNtf(old(k.s).SetP(owner, old(k.s).P(owner).(status := BlockedWait)), n, owner), old(k.s).P(owner).affinity)
  {
    k.SetProc(owner, k.procs[owner].(status := BlockedWait));
    k.PushNotificationQueue(n, owner);
    k.TryScheduleAndSwitch(k.procs[owner].affinity);
  }

  method Poll(k: Kernel, owner: Pid, cap: IP.Cap) returns (res: IP.Outcome)
    requires k.Valid()
    modifies k
    ensures k.Valid() && (k.s, res) == NP.Poll(old(k.s), owner, cap)
  {
    if !cap.readable { return IP.Err(IP.PermissionDenied); }
    var n := cap.port;
    if k.ntfs[n].bound.Some? && k.ntfs[n].bound != Some(owner) { return IP.Err(IP.FatalError); }
    if !k.ntfs[n].hasFlag || k.ntfs[n].flag == {} {
      k.SetProc(owner, k.procs[owner].(regs := k.procs[owner].regs[NP.MR_FLAG_WORD := {}]));
    } else {
      TakeFlag(k, n, owner);
    }
    res := IP.Ok;
  }

  method RevokeNotificationPort(k: Kernel, n: NtfId)
    requires k.Valid()
    modifies k, k.ntf, k.ready
    ensures k.Valid() && k.s == NP.RevokeNtf(old(k.s), n)
  {
    Drain(k, n);
    var bound := k.ntfs[n].bound;
    if bound.Some? && k.procs[bound.value].boundPort == Some(n) {
      ClearBinding(k, bound.value);
    } else {
      k.SetNtf(n, k.ntfs[n].(bound := None), None);
    }
    k.SetNtf(n, k.ntfs[n].(hasFlag := false, flag := {}), Some(Discarded(k.ntfs[n].flag)));
    k.SetNtf(n, k.ntfs[n].(readyToWake := false), None);
  }

  /** Every waiter is popped and released with an error. */
  method Drain(k: Kernel, n: NtfId)
    requires k.Valid()
    modifies k, k.ntf, k.ready
    ensures k.Valid() && k.s == NP.DrainNtf(old(k.s), n)
  {
    while k.ntf.Head(n).Some?
      invariant k.Valid() && NP.DrainNtf(k.s, n) == NP.DrainNtf(old(k.s), n)
      decreases |k.s.N(n).queue|
    {
      k.NtfViews(n);
      ReleaseWaiter(k, n);
    }
    k.NtfViews(n);
  }

  method ReleaseWaiter(k: Kernel, n: NtfId)
    requires k.Valid() && k.s.N(n).queue != []
    modifies k, k.ntf, k.ready
    ensures k.Valid()
    ensures |k.s.N(n).queue| < |old(k.s).N(n).queue| && NP.DrainNtf(k.s, n) == NP.DrainNtf(old(k.s), n)
  {
    var head := k.PopNotificationQueue(n);
    ghost var popped := k.s;
    PO.CompleteRevokedWait(k, head.value);
    assert k.s.ntfs == popped.ntfs;
  }

  method ClearBinding(k: Kernel, p: Pid)
    requires k.Valid() && k.s.P(p).boundPort.Some?
    modifies k
    ensures k.Valid() && k.s == Unbind(old(k.s), p)
  {
    var n := k.procs[p].boundPort.value;
    k.SetNtf(n, k.ntfs[n].(bound := None), None);
    k.SetProc(p, k.procs[p].(boundPort := None));
  }

  // ---------------------------------------------------------------- process control

  method Detach(k: Kernel, p: Pid)
    requires k.Valid()
    modifies k, k.ipc, k.ntf
    ensures k.Valid() && k.s == PC.Detach(old(k.s), p)
  {
    if k.procs[p].ipcPort.Some? { var _ := k.RemoveIpcQueue(k.procs[p].ipcPort.value, p); }
    if k.procs[p].ntfPort.Some? { k.RemoveNotificationQueue(p); }
  }

  method ForgetReply(k: Kernel, client: Pid)
    requires k.Valid()
    modifies k
    ensures k.Valid() && k.s == CancelReply(old(k.s), client)
  {
    var server := k.procs[client].srcTarget;
    if server.Some? && k.procs[server.value].dstTarget == Some(client) {
      k.SetProc(server.value, k.procs[server.value].(dstReady := false, dstTarget := None));
    }
    k.SetProc(client, k.procs[client].(srcWait := false, srcTarget := None));
  }

  method Resume(k: Kernel, c: CoreId, p: Pid) returns (res: IP.Outcome)
    requires k.Valid()
    modifies k, k.ipc, k.ntf, k.ready
    ensures k.Valid() && (k.s, res) == PC.Resume(old(k.s), c, p)
  {
    if k.cores[k.procs[p].affinity].current == Some(p) { return IP.Err(IP.InvalidArgument); }
    Detach(k, p);
    ForgetReply(k, p);
    k.SetProc(p, k.procs[p].(fault := NoFault));
    k.SetProc(p, k.procs[p].(status := Ready));
    k.RouteMarkScheduled(c, p);
    res := IP.Ok;
  }

  method Suspend(k: Kernel, p: Pid)
    requires k.Valid()
    modifies k, k.ipc, k.ntf, k.ready
    ensures k.Valid() && k.s == PC.Suspend(old(k.s), p)
  {
    var waiting := PC.NativeWait(k.procs[p]);
    StopProcess(k, p);
    if waiting {
      k.SetProc(p, k.procs[p].(regs := k.procs[p].regs[IP.MR_IS_SUCCESS := {}][IP.MR_ERROR_CODE := {}]));
    }
    Detach(k, p);
    ForgetReply(k, p);
    k.SetProc(p, k.procs[p].(fault := NoFault));
  }

  method RevokeProcess(k: Kernel, p: Pid)
    requires k.Valid()
    modifies k, k.ipc, k.ntf, k.ready
    ensures k.Valid() && k.s == PC.RevokeProcess(old(k.s), p)
  {
    StopProcess(k, p);
    Detach(k, p);
    if k.procs[p].dstTarget.Some? { PO.CancelReplyWithError(k, k.procs[p].dstTarget.value); }
    GiveUp(k, p);
  }

  /** The process leaves its own reply link, its buffer, its resolver and its binding. */
  method GiveUp(k: Kernel, p: Pid)
    requires k.Valid()
    modifies k
    ensures k.Valid() && k.s == PC.GiveUp(old(k.s), p)
  {
    ForgetReply(k, p);
    k.SetProc(p, k.procs[p].(hasBuffer := false, resolver := None, regs := PC.ClearContext(k.procs[p].regs)));
    if k.procs[p].boundPort.Some? { ClearBinding(k, p); }
  }

  method ConfigureBinding(k: Kernel, p: Pid, n: NtfId) returns (res: IP.Outcome)
    requires k.Valid()
    modifies k
    ensures k.Valid() && (k.s, res) == PC.ConfigureBinding(old(k.s), p, n)
  {
    if k.procs[p].boundPort.Some? { ClearBinding(k, p); }
    if k.ntfs[n].bound.Some? && k.ntfs[n].bound != Some(p) { return IP.Err(IP.FatalError); }
    k.SetNtf(n, k.ntfs[n].(bound := Some(p)), None);
    k.SetProc(p, k.procs[p].(boundPort := Some(n)));
    res := IP.Ok;
  }

  // ---------------------------------------------------------------- faults

  method HandleFault(k: Kernel, c: CoreId, fault: Fault)
    requires k.Valid() && (k.s.C(c).current.Some? ==> k.s.P(k.s.C(c).current.value).ipcPort.None?)
    modifies k, k.ipc, k.ready
    ensures k.Valid() && k.s == IP.HandleFault(old(k.s), c, fault)
  {
    if k.cores[c].current.None? { return; }
    var p := k.cores[c].current.value;
    k.SetProc(p, k.procs[p].(fault := fault));
    var resolver := k.procs[p].resolver;
    if resolver.Some? {
      var res := FaultCall(k, p, resolver.value);
      if res.Ok? { return; }
    }
    k.SetProc(p, k.procs[p].(status := BlockedSuspend));
    k.TryScheduleAndSwitch(c);
  }

  method FaultCall(k: Kernel, owner: Pid, cap: Resolver) returns (res: IP.Outcome)
    requires k.Valid() && k.s.P(owner).ipcPort.None?
    modifies k, k.ipc, k.ready
    ensures k.Valid() && (k.s, res) == IP.FaultCall(old(k.s), owner, cap)
  {
    if !cap.writable || !cap.readable {
      k.SetProc(owner, k.procs[owner].(status := BlockedFault));
      return IP.Err(IP.PermissionDenied);
    }
    k.PortViews(cap.port);
    if k.portStates[cap.port] != ReadyToReceive {
      FaultWaits(k, owner, cap);
      return IP.Ok;
    }
    var head := k.PopIpcQueue(cap.port);
    if head.None? {
      k.SetProc(owner, k.procs[owner].(identifier := cap.identifier));
      return IP.Err(IP.FatalError);
    }
    k.SetProc(owner, k.procs[owner].(identifier := cap.identifier, status := BlockedFault));
    res := FaultReceiver(k, owner, cap.port, head.value);
  }

  method FaultWaits(k: Kernel, owner: Pid, cap: Resolver)
    requires k.Valid() && k.s.P(owner).ipcPort.None?
    modifies k, k.ipc, k.ready
    ensures k.Valid()
    ensures k.s == IP.Block(old(k.s).SetP(owner, old(k.s).P(owner).(status := BlockedFault, srcWait := true, identifier := cap.identifier)),
                            cap.port, ReadyToSend, owner)
  {
    k.SetProc(owner, k.procs[owner].(status := BlockedFault, srcWait := true, identifier := cap.identifier));
    PO.Block(k, cap.port, ReadyToSend, owner);
  }

  /** The fault goes to a receiver that was waiting at the resolver port. */
  method FaultReceiver(k: Kernel, owner: Pid, q: PortId, target: Pid) returns (res: IP.Outcome)
    requires k.Valid() && k.s.P(owner).ipcPort.None?
    modifies k, k.ipc, k.ready
    ensures k.Valid()
    ensures (k.s, res) == IP.FaultReceiver(old(k.s), owner, q, target)
  {
    res := IP.Ok;
    if k.procs[target].dstReady {
      k.SetProc(owner, k.procs[owner].(srcWait := true));
      k.PortViews(q);
      PO.Block(k, q, k.portStates[q], owner);
      return;
    }
    PO.LinkReply(k, owner, target);
    var ok := PO.TransferFaultMessage(k, target, owner);
    if !ok { return IP.Err(IP.FatalError); }
    k.SetProc(target, k.procs[target].(status := Ready));
    k.TryDirectScheduleAndSwitch(k.procs[owner].affinity, target);
  }
}
