/**
 The operations of an IPC port on the kernel's memory. Each changes fields and links one after another
 and is proved to compute what the function of the same name in `IpcPort` says.
 */
module PortMemory {
  import opened Arithmetic
  import opened Common
  import opened KernelState
  import opened KernelPrimitives
  import opened KernelMemory
  import PM = ProcessManager
  import IP = IpcPort

  // ---------------------------------------------------------------- messages

  lemma {:induction false} FieldBound(w: Word, low: nat, width: nat)
    ensures IP.Field(w, low, width) < Pow2(width)
    decreases width
  {
    if width > 0 { FieldBound(w, low + 1, width - 1); }
  }

  /** Payload words are copied one register at a time, first the hardware registers, then the buffers. */
  method CopyMessages(to: Registers, from: Registers, length: nat, buffered: bool) returns (r: Registers, copied: bool)
    requires IP.PAYLOAD_START + length <= REGISTER_COUNT
    ensures copied == !IP.Overflows(length, buffered)
    ensures r == IP.CopyPayload(to, from, if copied then length else IP.MESSAGE_REGISTER_COUNT - IP.PAYLOAD_START)
  {
    var registers := IP.MESSAGE_REGISTER_COUNT - IP.PAYLOAD_START;
    r := to;
    for i := 0 to registers
      invariant i <= length && r == IP.CopyPayload(to, from, i)
    {
      if i == length { return r, true; }
      r := r[IP.PAYLOAD_START + i := from[IP.PAYLOAD_START + i]];
    }
    if registers < length {
      for i := registers to length
        invariant r == IP.CopyPayload(to, from, i) && (i > registers ==> buffered)
      {
        if !buffered { return r, false; }
        r := r[IP.PAYLOAD_START + i := from[IP.PAYLOAD_START + i]];
      }
    }
    copied := true;
  }

  method TransferMessage(k: Kernel, q: PortId, receiver: Pid, sender: Pid, info: Word, x: IP.Transfer) returns (res: IP.Outcome)
    requires k.Valid()
    modifies k
    ensures k.Valid() && (k.s, res) == IP.TransferMessage(old(k.s), q, receiver, sender, info, x)
  {
    var buffered := k.procs[receiver].hasBuffer && k.procs[sender].hasBuffer;
    res := TransferDirectMessage(k, receiver, sender, info, x);
    if IP.CopyFails(info, buffered) { k.SetPortState(q, Wait); }
  }

  method TransferDirectMessage(k: Kernel, receiver: Pid, sender: Pid, info: Word, x: IP.Transfer) returns (res: IP.Outcome)
    requires k.Valid()
    modifies k
    ensures k.Valid() && (k.s, res) == IP.TransferDirectMessage(old(k.s), receiver, sender, info, x)
  {
    var from := k.procs[sender].regs;
    var to := k.procs[receiver].regs[IP.MR_MESSAGE_INFO := info][IP.MR_IDENTIFIER := k.procs[sender].identifier];
    var buffered := k.procs[receiver].hasBuffer && k.procs[sender].hasBuffer;
    FieldBound(info, 1, 8);
    assert Pow2(8) == 256;
    var copied;
    to, copied := CopyMessages(to, from, IP.MessageLength(info), buffered);
    if copied { res := MoveCapabilities(info, buffered, x); } else { res := IP.Err(IP.FatalError); }
    k.SetProc(receiver, k.procs[receiver].(regs := to));
  }

  /** What moving the named slots reports. */
  method MoveCapabilities(info: Word, buffered: bool, x: IP.Transfer) returns (res: IP.Outcome)
    ensures !IP.CopyFails(info, buffered) ==> res == IP.TransferOutcome(info, buffered, x)
  {
    if IP.TransferCount(info) == 0 { return IP.Ok; }
    if !buffered || !x.framed { return IP.Err(IP.IllegalOperation); }
    res := if x.node && x.movable >= IP.TransferCount(info) then IP.Ok else IP.Err(IP.InvalidArgument);
  }

  method TransferFaultMessage(k: Kernel, receiver: Pid, sender: Pid) returns (ok: bool)
    requires k.Valid()
    modifies k
    ensures k.Valid() && (k.s, ok) == IP.TransferFaultMessage(old(k.s), receiver, sender)
  {
    var fault := k.procs[sender].fault;
    if fault == NoFault || fault == Fatal { return false; }
    var to := k.procs[receiver].regs[IP.MR_IS_SUCCESS := {0}][IP.MR_ERROR_CODE := {}];
    to := to[IP.MR_MESSAGE_INFO := IP.FaultInfo(fault)][IP.MR_IDENTIFIER := k.procs[sender].identifier];
    k.SetProc(receiver, k.procs[receiver].(regs := to));
    ok := fault != InvalidKernelCall || k.procs[receiver].hasBuffer;
  }

  method LinkReply(k: Kernel, client: Pid, server: Pid)
    requires k.Valid()
    modifies k
    ensures k.Valid() && k.s == Link(old(k.s), client, server)
  {
    k.SetProc(client, k.procs[client].(srcWait := true, srcTarget := Some(server)));
    k.SetProc(server, k.procs[server].(dstReady := true, dstTarget := Some(client)));
  }

  method CompleteRevokedWait(k: Kernel, p: Pid)
    requires k.Valid()
    modifies k, k.ready
    ensures k.Valid() && k.s == IP.CompleteRevokedWait(old(k.s), p)
  {
    k.SetProc(p, k.procs[p].(regs := k.procs[p].regs[IP.MR_IS_SUCCESS := {}][IP.MR_ERROR_CODE := {}]));
    if k.procs[p].fault != NoFault {
      k.SetProc(p, k.procs[p].(status := BlockedSuspend));
    } else {
      match k.procs[p].status
      case BlockedSend | BlockedReceive | BlockedReply | BlockedWait => k.MarkScheduled(p);
      case _ =>
    }
  }

  method CancelReplyWithError(k: Kernel, client: Pid)
    requires k.Valid()
    modifies k, k.ready
    ensures k.Valid() && k.s == IP.CancelReplyWithError(old(k.s), client)
  {
    var server := k.procs[client].srcTarget;
    if server.Some? && k.procs[server.value].dstTarget == Some(client) {
      k.SetProc(server.value, k.procs[server.value].(dstReady := false, dstTarget := None));
    }
    k.SetProc(client, k.procs[client].(srcWait := false, srcTarget := None));
    CompleteRevokedWait(k, client);
  }

  method Block(k: Kernel, q: PortId, st: PortState, owner: Pid)
    requires k.Valid() && k.s.P(owner).ipcPort.None?
    modifies k, k.ipc, k.ready
    ensures k.Valid() && k.s == IP.Block(old(k.s), q, st, owner)
  {
    k.PushIpcQueue(q, st, owner);
    k.TryScheduleAndSwitch(k.procs[owner].affinity);
  }

  // ---------------------------------------------------------------- operations

  method Send(k: Kernel, owner: Pid, cap: IP.Cap, info: Word, x: IP.Transfer) returns (res: IP.Outcome)
    requires k.Valid() && k.s.P(owner).ipcPort.None?
    modifies k, k.ipc, k.ready
    ensures k.Valid() && (k.s, res) == IP.Send(old(k.s), owner, cap, info, x)
  {
    if !cap.writable { return IP.Err(IP.PermissionDenied); }
    k.PortViews(cap.port);
    res := IP.Ok;
    match k.portStates[cap.port] {
      case Wait | ReadyToSend =>
        if IP.IsBlock(info) { SendWaits(k, owner, cap); }
      case ReadyToReceive =>
        var target := k.PopIpcQueue(cap.port);
        if target.None? { return IP.Err(IP.FatalError); }
        res := SendReceiver(k, owner, cap, target.value, info, x);
    }
  }

  method SendWaits(k: Kernel, owner: Pid, cap: IP.Cap)
    requires k.Valid() && k.s.P(owner).ipcPort.None?
    modifies k, k.ipc, k.ready
    ensures k.Valid()
    ensures k.s == IP.Block(old(k.s).SetP(owner, old(k.s).P(owner).(status := BlockedSend, identifier := cap.identifier)),
                            cap.port, ReadyToSend, owner)
  {
    k.SetProc(owner, k.procs[owner].(status := BlockedSend, identifier := cap.identifier));
    Block(k, cap.port, ReadyToSend, owner);
  }

  /** The message goes to a receiver that was waiting. */
  method SendReceiver(k: Kernel, owner: Pid, cap: IP.Cap, target: Pid, info: Word, x: IP.Transfer) returns (res: IP.Outcome)
    requires k.Valid()
    modifies k, k.ready
    ensures k.Valid()
    ensures var woken := old(k.s).SetP(target, old(k.s).P(target).(status := Ready));
      (k.s, res) == IP.SendReceiver(woken.SetP(owner, woken.P(owner).(identifier := cap.identifier)), owner, cap.port, target, info, x)
  {
    k.SetProc(target, k.procs[target].(status := Ready));
    k.SetProc(owner, k.procs[owner].(identifier := cap.identifier));
    res := TransferMessage(k, cap.port, target, owner, info, x);
    if res.Ok? { k.RouteMarkScheduled(k.procs[owner].affinity, target); }
  }

  method TryDeliverPending(k: Kernel, owner: Pid) returns (delivered: bool)
    requires k.Valid()
    modifies k
    ensures k.Valid() && (k.s, delivered) == IP.TryDeliverPending(old(k.s), owner)
  {
    if k.procs[owner].boundPort.None? { return false; }
    var n := k.procs[owner].boundPort.value;
    var flag := k.ntfs[n].flag;
    if !k.ntfs[n].hasFlag || flag == {} { return false; }
    k.SetNtf(n, k.ntfs[n].(hasFlag := false, flag := {}), Some(Consumed(flag, owner)));
    k.SetProc(owner, k.procs[owner].(regs := k.procs[owner].regs[IP.MR_MESSAGE_INFO := {14}][IP.MR_IDENTIFIER := flag]));
    delivered := true;
  }

  method TryReceiveFromReadySender(k: Kernel, q: PortId, receiver: Pid, x: IP.Transfer) returns (res: IP.Outcome)
    requires k.Valid() && k.portStates[q] == ReadyToSend
    modifies k, k.ipc, k.ready
    ensures k.Valid() && (k.s, res) == IP.TryReceiveFromReadySender(old(k.s), q, receiver, x)
  {
    k.PortViews(q);
    var head := k.PopIpcQueue(q);
    if head.None? { return IP.Err(IP.FatalError); }
    res := AcceptSender(k, q, receiver, head.value, x);
  }

  method AcceptSender(k: Kernel, q: PortId, receiver: Pid, sender: Pid, x: IP.Transfer) returns (res: IP.Outcome)
    requires k.Valid()
    modifies k, k.ready
    ensures k.Valid() && (k.s, res) == IP.AcceptSender(old(k.s), q, receiver, sender, x)
  {
    if k.procs[receiver].dstReady { return IP.Err(IP.FatalError); }
    if k.procs[sender].fault != NoFault {
      var ok := TransferFaultMessage(k, receiver, sender);
      if !ok { return IP.Err(IP.FatalError); }
      LinkReply(k, sender, receiver);
      k.SetProc(sender, k.procs[sender].(status := BlockedReply));
      return IP.Ok;
    }
    res := TransferMessage(k, q, receiver, sender, k.procs[sender].regs[IP.MR_MESSAGE_INFO], x);
    if res.Err? { return; }
    if k.procs[sender].srcWait {
      LinkReply(k, sender, receiver);
      k.SetProc(sender, k.procs[sender].(status := BlockedReply));
    } else {
      k.SetProc(receiver, k.procs[receiver].(dstReady := false, dstTarget := None));
      k.SetProc(sender, k.procs[sender].(status := Ready));
      k.RouteMarkScheduled(k.procs[receiver].affinity, sender);
    }
  }

  method ReceivePart(k: Kernel, owner: Pid, q: PortId, info: Word, x: IP.Transfer) returns (res: IP.Outcome)
    requires k.Valid() && k.s.P(owner).ipcPort.None?
    modifies k, k.ipc, k.ready
    ensures k.Valid() && (k.s, res) == IP.ReceivePart(old(k.s), owner, q, info, x)
  {
    k.PortViews(q);
    if k.portStates[q] == ReadyToSend {
      res := TryReceiveFromReadySender(k, q, owner, x);
    } else {
      res := IP.Ok;
      var delivered := TryDeliverPending(k, owner);
      if !delivered && IP.IsBlock(info) {
        k.SetProc(owner, k.procs[owner].(status := BlockedReceive));
        Block(k, q, ReadyToReceive, owner);
      }
    }
  }

  method Receive(k: Kernel, owner: Pid, cap: IP.Cap, info: Word, x: IP.Transfer) returns (res: IP.Outcome)
    requires k.Valid() && k.s.P(owner).ipcPort.None?
    modifies k, k.ipc, k.ready
    ensures k.Valid() && (k.s, res) == IP.Receive(old(k.s), owner, cap, info, x)
  {
    if !cap.readable { return IP.Err(IP.PermissionDenied); }
    DiscardLeavesQueues(k.s, owner);
    DiscardCaller(k, owner);
    res := ReceivePart(k, owner, cap.port, info, x);
  }

  method DiscardCaller(k: Kernel, owner: Pid)
    requires k.Valid()
    modifies k, k.ready
    ensures k.Valid() && k.s == IP.DiscardCaller(old(k.s), owner)
  {
    if k.procs[owner].dstReady {
      if k.procs[owner].dstTarget.Some? { CancelReplyWithError(k, k.procs[owner].dstTarget.value); }
      k.SetProc(owner, k.procs[owner].(dstReady := false, dstTarget := None));
    }
  }

  method Call(k: Kernel, owner: Pid, cap: IP.Cap, info: Word, x: IP.Transfer) returns (res: IP.Outcome)
    requires k.Valid() && k.s.P(owner).ipcPort.None?
    modifies k, k.ipc, k.ready
    ensures k.Valid() && (k.s, res) == IP.Call(old(k.s), owner, cap, info, x)
  {
    if !cap.writable { return IP.Err(IP.PermissionDenied); }
    k.PortViews(cap.port);
    res := IP.Ok;
    match k.portStates[cap.port] {
      case Wait | ReadyToSend =>
        if IP.IsBlock(info) { CallWaits(k, owner, cap); }
      case ReadyToReceive =>
        var target := k.PopIpcQueue(cap.port);
        if target.None? { return IP.Err(IP.FatalError); }
        k.SetProc(owner, k.procs[owner].(identifier := cap.identifier));
        res := CallReceiver(k, owner, cap.port, target.value, info, x);
    }
  }

  /** Without a receiver the caller takes its pending notification, or else waits in the queue. */
  method CallWaits(k: Kernel, owner: Pid, cap: IP.Cap)
    requires k.Valid() && k.s.P(owner).ipcPort.None?
    modifies k, k.ipc, k.ready
    ensures k.Valid()
    ensures var (taken, delivered) := IP.TryDeliverPending(old(k.s), owner);
      k.s == if delivered then taken else
             IP.Block(taken.SetP(owner, taken.P(owner).(status := BlockedSend, srcWait := true, identifier := cap.identifier)),
                      cap.port, ReadyToSend, owner)
  {
    var delivered := TryDeliverPending(k, owner);
    if !delivered {
      k.SetProc(owner, k.procs[owner].(status := BlockedSend, srcWait := true, identifier := cap.identifier));
      Block(k, cap.port, ReadyToSend, owner);
    }
  }

  /** The caller hands its message and its core to a receiver that was waiting. */
  method CallReceiver(k: Kernel, owner: Pid, q: PortId, target: Pid, info: Word, x: IP.Transfer) returns (res: IP.Outcome)
    requires k.Valid()
    modifies k, k.ready
    ensures k.Valid()
    ensures (k.s, res) == IP.CallReceiver(old(k.s), owner, q, target, info, x)
  {
    if k.procs[target].dstReady { return IP.Err(IP.FatalError); }
    LinkReply(k, owner, target);
    k.SetProc(owner, k.procs[owner].(status := BlockedReply));
    res := TransferMessage(k, q, target, owner, info, x);
    if res.Err? { return; }
    k.SetProc(target, k.procs[target].(status := Ready));
    k.TryDirectScheduleAndSwitch(k.procs[owner].affinity, target);
  }

  /** General registers of `p` are overwritten one by one by message registers of `owner`, maybe the same process. */
  method OverwriteContext(k: Kernel, p: Pid, owner: Pid, start: nat, count: nat) returns (ok: bool)
    requires k.Valid() && 0 < start <= IP.PAYLOAD_START && count <= IP.HARDWARE_CONTEXT_SIZE
    modifies k
    ensures k.Valid()
    ensures ok <==> start + count <= IP.MESSAGE_REGISTER_COUNT || old(k.s).P(owner).hasBuffer
    ensures k.s == IP.SetRegs(old(k.s), p, IP.WriteContext(old(k.s).P(p).regs, old(k.s).P(owner).regs, start,
                                                        if ok then count else IP.MESSAGE_REGISTER_COUNT - start))
  {
    ghost var s := k.s;
    WriteNothing(s, p, owner, start);
    for i := 0 to count
      invariant k.Valid() && k.s == IP.SetRegs(s, p, IP.WriteContext(s.P(p).regs, s.P(owner).regs, start, i))
      invariant start + i <= IP.MESSAGE_REGISTER_COUNT || s.P(owner).hasBuffer
    {
      if start + i >= IP.MESSAGE_REGISTER_COUNT && !k.procs[owner].hasBuffer { return false; }
      var value := k.procs[owner].regs[start + i];
      assert value == s.P(owner).regs[start + i];
      WriteOne(s, p, owner, start, i);
      if i < 8 {
        k.SetProc(p, k.procs[p].(regs := k.procs[p].regs[i := value]));
      } else if 8 < i <= IP.MESSAGE_REGISTER_COUNT {
        k.SetProc(p, k.procs[p].(regs := k.procs[p].regs[i - 1 := value]));
      }
    }
    ok := true;
  }

  lemma WriteNothing(s: State, p: Pid, owner: Pid, start: nat)
    requires start <= IP.PAYLOAD_START
    ensures IP.SetRegs(s, p, IP.WriteContext(s.P(p).regs, s.P(owner).regs, start, 0)) == s
  {
    assert IP.WriteContext(s.P(p).regs, s.P(owner).regs, start, 0) == s.P(p).regs;
    assert IP.SetRegs(s, p, s.P(p).regs).procs == s.procs;
  }

  /** One more general register, if it carries a message register at all. */
  lemma WriteOne(s: State, p: Pid, owner: Pid, start: nat, i: nat)
    requires 0 < start <= IP.PAYLOAD_START && i < IP.HARDWARE_CONTEXT_SIZE
    ensures var before := IP.WriteContext(s.P(p).regs, s.P(owner).regs, start, i);
      IP.WriteContext(s.P(p).regs, s.P(owner).regs, start, i + 1) ==
        if i < 8 then before[i := s.P(owner).regs[start + i]]
        else if 8 < i <= IP.MESSAGE_REGISTER_COUNT then before[i - 1 := s.P(owner).regs[start + i]]
        else before
  {
  }

  method ApplyReplyContext(k: Kernel, owner: Pid, client: Pid, info: Word) returns (res: IP.Outcome)
    requires k.Valid()
    modifies k
    ensures k.Valid() && res == IP.ReplyContext(old(k.s).P(client).fault, info, old(k.s).P(owner).hasBuffer)
    ensures k.s == IP.SetRegs(old(k.s), client, IP.ReplyRegisters(old(k.s), owner, client, info))
  {
    WriteNothing(k.s, client, owner, IP.PAYLOAD_START);
    if k.procs[client].fault != InvalidKernelCall { return IP.Ok; }
    if IP.MessageLength(info) > IP.HARDWARE_CONTEXT_SIZE { return IP.Err(IP.InvalidArgument); }
    var ok := OverwriteContext(k, client, owner, IP.PAYLOAD_START, IP.MessageLength(info));
    res := if ok then IP.Ok else IP.Err(IP.FatalError);
  }

  method CompleteFaultReply(k: Kernel, owner: Pid, client: Pid)
    requires k.Valid()
    modifies k, k.ready
    ensures k.Valid() && k.s == IP.CompleteFaultReply(old(k.s), owner, client)
  {
    var c := k.procs[owner].affinity;
    k.SetProc(client, k.procs[client].(status := Ready, srcWait := false, srcTarget := None, fault := NoFault));
    k.SetProc(owner, k.procs[owner].(dstReady := false, dstTarget := None));
    k.RouteMarkScheduled(c, client);
  }

  method CompleteReply(k: Kernel, owner: Pid, info: Word, x: IP.Transfer, enqueue: bool) returns (res: IP.Outcome)
    requires k.Valid()
    modifies k, k.ready
    ensures k.Valid() && (k.s, res) == IP.CompleteReply(old(k.s), owner, info, x, enqueue)
  {
    res := IP.Ok;
    if !k.procs[owner].dstReady { return; }
    if k.procs[owner].dstTarget.None? { return IP.Err(IP.FatalError); }
    var client := k.procs[owner].dstTarget.value;
    if k.procs[client].fault != NoFault {
      res := ApplyReplyContext(k, owner, client, info);
      if res.Err? { return; }
      CompleteFaultReply(k, owner, client);
    } else {
      res := TransferDirectMessage(k, client, owner, info, x);
      if res.Err? { return; }
      k.SetProc(client, k.procs[client].(status := Ready, srcWait := false, srcTarget := None));
      k.SetProc(owner, k.procs[owner].(dstReady := false, dstTarget := None));
      if enqueue { k.RouteMarkScheduled(k.procs[owner].affinity, client); }
    }
  }

  method Reply(k: Kernel, owner: Pid, info: Word, x: IP.Transfer) returns (res: IP.Outcome)
    requires k.Valid()
    modifies k, k.ready
    ensures k.Valid() && (k.s, res) == IP.Reply(old(k.s), owner, info, x)
  {
    res := IP.Ok;
    if !k.procs[owner].dstReady { return; }
    res := CompleteReply(k, owner, info, x, true);
    if res.Err? { return; }
    k.SetProc(owner, k.procs[owner].(status := Ready));
    k.TryDirectScheduleAndSwitch(k.procs[owner].affinity, owner);
  }

  /** `x` is what the reply's transfer meets, `y` what the next message's transfer meets. */
  method ReplyReceive(k: Kernel, owner: Pid, cap: IP.Cap, info: Word, x: IP.Transfer, y: IP.Transfer) returns (res: IP.Outcome)
    requires k.Valid() && k.s.P(owner).ipcPort.None?
    modifies k, k.ipc, k.ready
    ensures k.Valid() && (k.s, res) == IP.ReplyReceive(old(k.s), owner, cap, info, x, y)
  {
    if !cap.readable { return IP.Err(IP.PermissionDenied); }
    k.PortViews(cap.port);
    var client, bound := k.procs[owner].dstTarget, k.procs[owner].boundPort;
    if k.procs[owner].dstReady && client.Some? && k.procs[client.value].fault == NoFault && IP.IsBlock(info)
       && k.portStates[cap.port] != ReadyToSend && k.procs[client.value].affinity == k.procs[owner].affinity
       && !(bound.Some? && k.ntfs[bound.value].hasFlag && k.ntfs[bound.value].flag != {})
    {
      res := ReplyReceiveFast(k, owner, cap.port, client.value, info, x);
    } else {
      res := ReplyReceiveSlow(k, owner, cap.port, info, x, y);
    }
  }

  method ReplyReceiveSlow(k: Kernel, owner: Pid, q: PortId, info: Word, x: IP.Transfer, y: IP.Transfer) returns (res: IP.Outcome)
    requires k.Valid() && k.s.P(owner).ipcPort.None?
    modifies k, k.ipc, k.ready
    ensures k.Valid() && (k.s, res) == IP.ReplyReceiveSlow(old(k.s), owner, q, info, x, y)
  {
    ReplyLeavesQueues(k.s, owner, info, x, true);
    res := CompleteReply(k, owner, info, x, true);
    if res.Err? { return; }
    res := ReceivePart(k, owner, q, info, y);
  }

  method ReplyReceiveFast(k: Kernel, owner: Pid, q: PortId, client: Pid, info: Word, x: IP.Transfer) returns (res: IP.Outcome)
    requires k.Valid() && k.s.P(owner).ipcPort.None? && k.s.P(owner).dstTarget == Some(client)
    modifies k, k.ipc, k.ready
    ensures k.Valid() && (k.s, res) == IP.ReplyReceiveFast(old(k.s), owner, q, info, x)
  {
    ReplyLeavesQueues(k.s, owner, info, x, false);
    res := CompleteReply(k, owner, info, x, false);
    if res.Err? { return; }
    res := HandOver(k, owner, q, client);
  }

  method BlockReceive(k: Kernel, owner: Pid, q: PortId)
    requires k.Valid() && k.s.P(owner).ipcPort.None?
    modifies k, k.ipc
    ensures k.Valid() && k.s == PushIpc(old(k.s).SetP(owner, old(k.s).P(owner).(status := BlockedReceive)), q, ReadyToReceive, owner)
  {
    k.SetProc(owner, k.procs[owner].(status := BlockedReceive));
    k.PushIpcQueue(q, ReadyToReceive, owner);
  }

  /** The server blocks in RECEIVE and its core goes to the client or someone more urgent. */
  method HandOver(k: Kernel, owner: Pid, q: PortId, client: Pid) returns (res: IP.Outcome)
    requires k.Valid() && k.s.P(owner).ipcPort.None?
    modifies k, k.ipc, k.ready
    ensures k.Valid()
    ensures var blocked := PushIpc(old(k.s).SetP(owner, old(k.s).P(owner).(status := BlockedReceive)), q, ReadyToReceive, owner);
      var (t, next) := PM.TryDirectSchedule(blocked, blocked.P(owner).affinity, client);
      (k.s, res) == if next.Some? then (SwitchTo(t, blocked.P(owner).affinity, next), IP.Ok) else (t, IP.Err(IP.FatalError))
  {
    BlockReceive(k, owner, q);
    var c := k.procs[owner].affinity;
    var next := k.TryDirectSchedule(c, client);
    if next.None? { return IP.Err(IP.FatalError); }
    k.SetCore(c, k.cores[c].(current := next));
    res := IP.Ok;
  }

  /** Every queued process is popped and released with an error; then the port is idle. */
  method Revoke(k: Kernel, q: PortId)
    requires k.Valid()
    modifies k, k.ipc, k.ready
    ensures k.Valid() && k.s == IP.RevokePort(old(k.s), q)
  {
    k.PortViews(q);
    while k.ipc.Head(q).Some?
      invariant k.Valid() && IP.DrainPort(k.s, q) == IP.DrainPort(old(k.s), q)
      decreases |k.s.Q(q).queue|
    {
      k.PortViews(q);
      ReleaseHead(k, q);
    }
    k.PortViews(q);
    k.SetPortState(q, Wait);
  }

  method ReleaseHead(k: Kernel, q: PortId)
    requires k.Valid() && k.s.Q(q).queue != []
    modifies k, k.ipc, k.ready
    ensures k.Valid()
    ensures |k.s.Q(q).queue| < |old(k.s).Q(q).queue| && IP.DrainPort(k.s, q) == IP.DrainPort(old(k.s), q)
  {
    var head := k.PopIpcQueue(q);
    var p := head.value;
    k.SetProc(p, k.procs[p].(srcWait := false, srcTarget := None));
    ghost var t := k.s;
    CompleteRevokedWait(k, p);
    assert k.s.ports == t.ports;
    k.PortViews(q);
  }

  lemma DiscardLeavesQueues(s: State, owner: Pid)
    ensures IP.DiscardCaller(s, owner).P(owner).ipcPort == s.P(owner).ipcPort
  {
    if s.P(owner).dstReady && s.P(owner).dstTarget.Some? {
      var client := s.P(owner).dstTarget.value;
      CancelLeavesQueues(s, client, owner);
      assert IP.DiscardCaller(s, owner) == IP.Forget(IP.CancelReplyWithError(s, client), owner);
    }
  }

  lemma CancelLeavesQueues(s: State, client: Pid, p: Pid)
    ensures IP.CancelReplyWithError(s, client).P(p).ipcPort == s.P(p).ipcPort
  {
    var s1 := CancelReply(s, client);
    assert s1.P(p).ipcPort == s.P(p).ipcPort;
  }

  lemma RouteLeavesQueues(s: State, c: CoreId, p: Pid, o: Pid)
    ensures PM.RouteMarkScheduled(s, c, p).P(o).ipcPort == s.P(o).ipcPort
  {
    if o != p { PM.RouteFrame(s, c, p); }
  }

  /** Replying moves nobody in or out of a port queue. */
  lemma ReplyLeavesQueues(s: State, owner: Pid, info: Word, x: IP.Transfer, enqueue: bool)
    ensures IP.CompleteReply(s, owner, info, x, enqueue).0.P(owner).ipcPort == s.P(owner).ipcPort
  {
    if s.P(owner).dstReady && s.P(owner).dstTarget.Some? {
      var client := s.P(owner).dstTarget.value;
      var c := s.P(owner).affinity;
      if s.P(client).fault != NoFault {
        var s1 := IP.SetRegs(s, client, IP.ReplyRegisters(s, owner, client, info));
        var s2 := s1.SetP(client, s1.P(client).(status := Ready, srcWait := false, srcTarget := None, fault := NoFault));
        RouteLeavesQueues(IP.Forget(s2, owner), c, client, owner);
      } else {
        var s1 := IP.TransferDirectMessage(s, client, owner, info, x).0;
        var s2 := s1.SetP(client, s1.P(client).(status := Ready, srcWait := false, srcTarget := None));
        RouteLeavesQueues(IP.Forget(s2, owner), c, client, owner);
      }
    }
  }
}
