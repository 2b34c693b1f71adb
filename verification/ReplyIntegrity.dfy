/**
 A process that awaits a reply is left alone: whatever the kernel does, its wait ends only when its
 server replies or discards it, or when it is cancelled, and until then nothing but a WRITE_REGISTER
 changes its registers.
 */
module ReplyIntegrity {
  import opened Common
  import opened KernelState
  import opened ReadyQueues
  import opened KernelPrimitives
  import opened ProcessManager
  import opened IpcPort
  import opened IpcInvariant
  import opened NotificationPort
  import opened ProcessControl
  import opened KernelRun

  /** All that concerns the wait of `p` is as before. */
  ghost predicate StillWaits(s: State, t: State, p: Pid) {
    && t.P(p).status == s.P(p).status && t.P(p).fault == s.P(p).fault
    && t.P(p).srcWait == s.P(p).srcWait && t.P(p).srcTarget == s.P(p).srcTarget
  }

  /** And so are its registers. */
  ghost predicate Spared(s: State, t: State, p: Pid) {
    StillWaits(s, t, p) && t.P(p).regs == s.P(p).regs
  }

  lemma TurnsSpare(s: State, t: State, p: Pid)
    requires OnlyTurns(s, t)
    ensures Spared(s, t, p)
  {
    assert SameUpToTurn(t.P(p), s.P(p));
  }

  // ---------------------------------------------------------------- messages

  lemma BlockSpares(s: State, q: PortId, st: PortState, owner: Pid, p: Pid)
    requires p != owner
    ensures Spared(s, Block(s, q, st, owner), p)
  {
    DispatchLeaves(PushIpc(s, q, st, owner), s.P(owner).affinity);
    TurnsSpare(PushIpc(s, q, st, owner), Block(s, q, st, owner), p);
  }

  lemma SendSpares(s: State, owner: Pid, cap: Cap, info: Word, x: Transfer, p: Pid)
    requires p != owner && p !in s.Q(cap.port).queue
    ensures Spared(s, Send(s, owner, cap, info, x).0, p)
  {
    var q := cap.port;
    if cap.writable {
      if s.Q(q).state == ReadyToReceive {
        if s.Q(q).queue != [] {
          var target := s.Q(q).queue[0];
          var s1 := PopIpc(s, q);
          var s2 := s1.SetP(target, s1.P(target).(status := Ready));
          SendReceiverSpares(s2.SetP(owner, s2.P(owner).(identifier := cap.identifier)), owner, q, target, info, x, p);
        }
      } else if IsBlock(info) {
        BlockSpares(s.SetP(owner, s.P(owner).(status := BlockedSend, identifier := cap.identifier)), q, ReadyToSend, owner, p);
      }
    }
  }

  lemma SendReceiverSpares(s: State, owner: Pid, q: PortId, target: Pid, info: Word, x: Transfer, p: Pid)
    requires p != target
    ensures Spared(s, SendReceiver(s, owner, q, target, info, x).0, p)
  {
    var s1 := TransferMessage(s, q, target, owner, info, x).0;
    RouteLeaves(s1, s1.P(owner).affinity, target);
    TurnsSpare(MadeReady(s1, target), RouteMarkScheduled(s1, s1.P(owner).affinity, target), p);
  }

  lemma AcceptSpares(s: State, q: PortId, receiver: Pid, sender: Pid, x: Transfer, p: Pid)
    requires p != receiver && p != sender
    ensures Spared(s, AcceptSender(s, q, receiver, sender, x).0, p)
  {
    var t := AcceptSender(s, q, receiver, sender, x).0;
    if s.P(receiver).dstReady {
      assert t == s;
    } else if s.P(sender).fault != NoFault {
      var s1 := TransferFaultMessage(s, receiver, sender).0;
      assert Spared(s, s1, p);
      LinkSpares(s1, receiver, sender, p);
      assert Spared(s1, t, p);
    } else {
      var (s1, res) := TransferMessage(s, q, receiver, sender, s.P(sender).regs[MR_MESSAGE_INFO], x);
      assert Spared(s, s1, p);
      LinkSpares(s1, receiver, sender, p);
      ReleaseSpares(s1, receiver, sender, p);
      assert Spared(s1, t, p);
    }
  }

  lemma LinkSpares(s: State, receiver: Pid, sender: Pid, p: Pid)
    requires p != receiver && p != sender
    ensures var t := Link(s, sender, receiver);
      Spared(s, t.SetP(sender, t.P(sender).(status := BlockedReply)), p)
  {
  }

  lemma ReleaseSpares(s: State, receiver: Pid, sender: Pid, p: Pid)
    requires p != receiver && p != sender
    ensures var t := Forget(s, receiver);
      var u := t.SetP(sender, t.P(sender).(status := Ready));
      Spared(s, RouteMarkScheduled(u, u.P(receiver).affinity, sender), p)
  {
    var t := Forget(s, receiver);
    var u := t.SetP(sender, t.P(sender).(status := Ready));
    RouteLeaves(u, u.P(receiver).affinity, sender);
    TurnsSpare(MadeReady(u, sender), RouteMarkScheduled(u, u.P(receiver).affinity, sender), p);
  }

  lemma ReceivePartSpares(s: State, owner: Pid, q: PortId, info: Word, x: Transfer, p: Pid)
    requires p != owner && p !in s.Q(q).queue
    ensures Spared(s, ReceivePart(s, owner, q, info, x).0, p)
  {
    if s.Q(q).state == ReadyToSend {
      if s.Q(q).queue != [] {
        AcceptSpares(PopIpc(s, q), q, owner, s.Q(q).queue[0], x, p);
      }
    } else {
      var (s1, delivered) := TryDeliverPending(s, owner);
      if !delivered && IsBlock(info) {
        BlockSpares(s1.SetP(owner, s1.P(owner).(status := BlockedReceive)), q, ReadyToReceive, owner, p);
      }
    }
  }

  lemma CancelSpares(s: State, client: Pid, p: Pid)
    requires p != client
    ensures Spared(s, CancelReplyWithError(s, client), p)
    ensures CancelReplyWithError(s, client).ports == s.ports
  {
  }

  lemma DiscardSpares(s: State, owner: Pid, p: Pid)
    requires p != owner && s.P(owner).dstTarget != Some(p)
    ensures Spared(s, DiscardCaller(s, owner), p) && DiscardCaller(s, owner).ports == s.ports
  {
    if s.P(owner).dstReady && s.P(owner).dstTarget.Some? {
      CancelSpares(s, s.P(owner).dstTarget.value, p);
    }
  }

  lemma ReceiveSpares(s: State, owner: Pid, cap: Cap, info: Word, x: Transfer, p: Pid)
    requires p != owner && s.P(owner).dstTarget != Some(p) && p !in s.Q(cap.port).queue
    ensures Spared(s, Receive(s, owner, cap, info, x).0, p)
  {
    DiscardSpares(s, owner, p);
    ReceivePartSpares(DiscardCaller(s, owner), owner, cap.port, info, x, p);
  }

  lemma CallSpares(s: State, owner: Pid, cap: Cap, info: Word, x: Transfer, p: Pid)
    requires p != owner && p !in s.Q(cap.port).queue
    ensures Spared(s, Call(s, owner, cap, info, x).0, p)
  {
    var q := cap.port;
    if cap.writable {
      if s.Q(q).state == ReadyToReceive {
        if s.Q(q).queue != [] {
          var s1 := PopIpc(s, q);
          CallReceiverSpares(s1.SetP(owner, s1.P(owner).(identifier := cap.identifier)), owner, q, s.Q(q).queue[0], info, x, p);
        }
      } else if IsBlock(info) {
        var (s1, delivered) := TryDeliverPending(s, owner);
        if !delivered {
          var r := s1.P(owner).(status := BlockedSend, srcWait := true, identifier := cap.identifier);
          BlockSpares(s1.SetP(owner, r), q, ReadyToSend, owner, p);
        }
      }
    }
  }

  lemma CallReceiverSpares(s: State, owner: Pid, q: PortId, target: Pid, info: Word, x: Transfer, p: Pid)
    requires p != owner && p != target
    ensures Spared(s, CallReceiver(s, owner, q, target, info, x).0, p)
  {
    if !s.P(target).dstReady {
      var s1 := Link(s, owner, target);
      var s2 := s1.SetP(owner, s1.P(owner).(status := BlockedReply));
      var s3 := TransferMessage(s2, q, target, owner, info, x).0;
      var s4 := s3.SetP(target, s3.P(target).(status := Ready));
      DirectLeaves(s4, s4.P(owner).affinity, target);
      TurnsSpare(s4, TryDirectScheduleAndSwitch(s4, s4.P(owner).affinity, target), p);
    }
  }

  lemma FaultReplySpares(s: State, owner: Pid, client: Pid, p: Pid)
    requires p != owner && p != client
    ensures Spared(s, CompleteFaultReply(s, owner, client), p) && CompleteFaultReply(s, owner, client).ports == s.ports
  {
    var s1 := s.SetP(client, s.P(client).(status := Ready, srcWait := false, srcTarget := None, fault := NoFault));
    RouteFrame(Forget(s1, owner), s.P(owner).affinity, client);
  }

  lemma CompleteReplySpares(s: State, owner: Pid, info: Word, x: Transfer, enqueue: bool, p: Pid)
    requires p != owner && s.P(owner).dstTarget != Some(p)
    ensures Spared(s, CompleteReply(s, owner, info, x, enqueue).0, p)
    ensures CompleteReply(s, owner, info, x, enqueue).0.ports == s.ports
  {
    if s.P(owner).dstReady && s.P(owner).dstTarget.Some? {
      var client := s.P(owner).dstTarget.value;
      if s.P(client).fault != NoFault {
        FaultReplySpares(SetRegs(s, client, ReplyRegisters(s, owner, client, info)), owner, client, p);
      } else {
        var s1 := TransferDirectMessage(s, client, owner, info, x).0;
        var s2 := s1.SetP(client, s1.P(client).(status := Ready, srcWait := false, srcTarget := None));
        RouteFrame(Forget(s2, owner), s2.P(owner).affinity, client);
      }
    }
  }

  lemma ReplySpares(s: State, owner: Pid, info: Word, x: Transfer, p: Pid)
    requires p != owner && s.P(owner).dstTarget != Some(p)
    ensures Spared(s, Reply(s, owner, info, x).0, p)
  {
    CompleteReplySpares(s, owner, info, x, true, p);
    var s1 := CompleteReply(s, owner, info, x, true).0;
    var s2 := s1.SetP(owner, s1.P(owner).(status := Ready));
    DirectLeaves(s2, s2.P(owner).affinity, owner);
    TurnsSpare(s2, TryDirectScheduleAndSwitch(s2, s2.P(owner).affinity, owner), p);
  }

  lemma ReplyReceiveSpares(s: State, owner: Pid, cap: Cap, info: Word, x: Transfer, y: Transfer, p: Pid)
    requires p != owner && s.P(owner).dstTarget != Some(p) && p !in s.Q(cap.port).queue
    ensures Spared(s, ReplyReceive(s, owner, cap, info, x, y).0, p)
  {
    if cap.readable {
      if FastReply(s, owner, cap.port, info) {
        FastSpares(s, owner, cap.port, info, x, p);
      } else {
        CompleteReplySpares(s, owner, info, x, true, p);
        ReceivePartSpares(CompleteReply(s, owner, info, x, true).0, owner, cap.port, info, y, p);
      }
    }
  }

  lemma FastSpares(s: State, owner: Pid, q: PortId, info: Word, x: Transfer, p: Pid)
    requires s.P(owner).dstTarget.Some? && p != owner && s.P(owner).dstTarget != Some(p)
    ensures Spared(s, ReplyReceiveFast(s, owner, q, info, x).0, p)
  {
    CompleteReplySpares(s, owner, info, x, false, p);
    var s1 := CompleteReply(s, owner, info, x, false).0;
    var s3 := PushIpc(s1.SetP(owner, s1.P(owner).(status := BlockedReceive)), q, ReadyToReceive, owner);
    DirectScheduleSpares(s3, s3.P(owner).affinity, s.P(owner).dstTarget.value, p);
  }

  lemma DirectScheduleSpares(s: State, c: CoreId, target: Pid, p: Pid)
    ensures Spared(s, TryDirectSchedule(s, c, target).0, p)
  {
    var k := s.P(target).priority;
    if k < s.C(c).highest {
      var s1 := SetHighest(s, c, Tighten(s.C(c).ready, s.C(c).highest, k));
      var s2 := AddProcess(s1, target).0;
      assert Spared(s, s1, p) && Spared(s1, s2, p);
      ScheduleSpares(s2, c, p);
    }
  }

  lemma ScheduleSpares(s: State, c: CoreId, p: Pid)
    ensures Spared(s, Schedule(s, c).0, p)
  {
  }

  // ---------------------------------------------------------------- faults, notification and control

  lemma FaultSpares(s: State, c: CoreId, fault: Fault, p: Pid)
    requires s.C(c).current != Some(p) && forall q: PortId :: p !in s.Q(q).queue
    ensures Spared(s, HandleFault(s, c, fault), p)
  {
    if s.C(c).current.Some? {
      var o := s.C(c).current.value;
      var s1 := s.SetP(o, s.P(o).(fault := fault));
      if s1.P(o).resolver.Some? {
        assert p !in s.Q(s1.P(o).resolver.value.port).queue;
        FaultCallSpares(s1, o, s1.P(o).resolver.value, p);
      }
      var s2 := if s1.P(o).resolver.None? then s1 else FaultCall(s1, o, s1.P(o).resolver.value).0;
      var s3 := s2.SetP(o, s2.P(o).(status := BlockedSuspend));
      DispatchLeaves(s3, c);
      TurnsSpare(s3, TryScheduleAndSwitch(s3, c), p);
    }
  }

  lemma FaultCallSpares(s: State, owner: Pid, cap: Resolver, p: Pid)
    requires p != owner && p !in s.Q(cap.port).queue
    ensures Spared(s, FaultCall(s, owner, cap).0, p)
  {
    var q := cap.port;
    if cap.writable && cap.readable {
      if s.Q(q).state == ReadyToReceive {
        if s.Q(q).queue != [] {
          var s1 := PopIpc(s, q);
          var r := s1.P(owner).(identifier := cap.identifier, status := BlockedFault);
          FaultReceiverSpares(s1.SetP(owner, r), owner, q, s.Q(q).queue[0], p);
        }
      } else {
        var r := s.P(owner).(status := BlockedFault, srcWait := true, identifier := cap.identifier);
        BlockSpares(s.SetP(owner, r), q, ReadyToSend, owner, p);
      }
    }
  }

  lemma FaultReceiverSpares(s: State, owner: Pid, q: PortId, target: Pid, p: Pid)
    requires p != owner && p != target
    ensures Spared(s, FaultReceiver(s, owner, q, target).0, p)
  {
    if s.P(target).dstReady {
      var s1 := s.SetP(owner, s.P(owner).(srcWait := true));
      BlockSpares(s1, q, s1.Q(q).state, owner, p);
    } else {
      var s2 := TransferFaultMessage(Link(s, owner, target), target, owner).0;
      var s3 := s2.SetP(target, s2.P(target).(status := Ready));
      DirectLeaves(s3, s3.P(owner).affinity, target);
      TurnsSpare(s3, TryDirectScheduleAndSwitch(s3, s3.P(owner).affinity, target), p);
    }
  }

  lemma WakeSpares(s: State, c: CoreId, o: Pid, p: Pid)
    requires p != o
    ensures Spared(s, RouteMarkScheduledPreempting(s, c, o), p)
  {
    PreemptingLeaves(s, c, o);
    TurnsSpare(MadeReady(s, o), RouteMarkScheduledPreempting(s, c, o), p);
  }

  lemma NotifySpares(s: State, c: CoreId, cap: Cap, p: Pid)
    requires p !in s.N(cap.port).queue && s.P(p).status != BlockedReceive
    ensures Spared(s, Notify(s, c, cap).0, p)
  {
    var n := cap.port;
    if cap.writable {
      var s1 := NotifyBits(s, n, cap.identifier);
      if s1.N(n).bound.Some? && s1.P(s1.N(n).bound.value).status == BlockedReceive {
        var o := s1.N(n).bound.value;
        if s1.P(o).ipcPort.Some? {
          var s2 := RemoveIpc(s1, o);
          var s3 := ConsumeBits(s2, n, o);
          var r := s3.P(o).(regs := s3.P(o).regs[MR_MESSAGE_INFO := {14}][MR_IDENTIFIER := s2.N(n).flag]);
          WakeSpares(s3.SetP(o, r).SetP(o, r.(status := Ready, ipcPort := None, ntfPort := None)), c, o, p);
        }
      } else if s1.N(n).readyToWake && s1.N(n).queue != [] {
        var o := s1.N(n).queue[0];
        var s2 := PopNtf(s1, n);
        var s3 := ConsumeBits(s2, n, o);
        WakeSpares(SetRegs(s3, o, s3.P(o).regs[MR_FLAG_WORD := s2.N(n).flag]), c, o, p);
      }
    }
  }

  lemma WaitSpares(s: State, owner: Pid, cap: Cap, p: Pid)
    requires p != owner
    ensures Spared(s, WaitFlag(s, owner, cap).0, p) && Spared(s, Poll(s, owner, cap).0, p)
  {
    var s1 := PushNtf(s.SetP(owner, s.P(owner).(status := BlockedWait)), cap.port, owner);
    DispatchLeaves(s1, s.P(owner).affinity);
    TurnsSpare(s1, TryScheduleAndSwitch(s1, s.P(owner).affinity), p);
  }

  lemma DetachSpares(s: State, o: Pid, p: Pid)
    requires p != o
    ensures Spared(s, Detach(s, o), p) && Detach(s, o).P(o).dstTarget == s.P(o).dstTarget
  {
  }

  lemma ForgetSpares(s: State, o: Pid, p: Pid)
    requires p != o
    ensures Spared(s, CancelReply(s, o), p)
  {
  }

  lemma CancelOwnSpares(s: State, o: Pid, p: Pid)
    requires p != o
    ensures Spared(s, CancelOwnWait(s, o), p)
  {
    DetachSpares(s, o, p);
    ForgetSpares(Detach(s, o), o, p);
  }

  lemma ResumeSpares(s: State, c: CoreId, o: Pid, p: Pid)
    requires p != o
    ensures Spared(s, Resume(s, c, o).0, p)
  {
    CancelOwnSpares(s, o, p);
    var s1 := ClearFault(CancelOwnWait(s, o), o);
    var s2 := s1.SetP(o, s1.P(o).(status := Ready));
    RouteLeaves(s2, c, o);
    TurnsSpare(MadeReady(s2, o), RouteMarkScheduled(s2, c, o), p);
  }

  lemma StopSpares(s: State, o: Pid, p: Pid)
    requires p != o
    ensures Spared(s, StopProcess(s, o), p) && StopProcess(s, o).P(o).dstTarget == s.P(o).dstTarget
  {
  }

  lemma SuspendSpares(s: State, o: Pid, p: Pid)
    requires p != o
    ensures Spared(s, Suspend(s, o), p)
  {
    StopSpares(s, o, p);
    var s1 := StopProcess(s, o);
    var s2 := if NativeWait(s.P(o)) then SetRegs(s1, o, s1.P(o).regs[MR_IS_SUCCESS := {}][MR_ERROR_CODE := {}]) else s1;
    CancelOwnSpares(s2, o, p);
  }

  lemma RevokeProcessSpares(s: State, o: Pid, p: Pid)
    requires p != o && s.P(o).dstTarget != Some(p)
    ensures Spared(s, RevokeProcess(s, o), p)
  {
    StopSpares(s, o, p);
    var s0 := StopProcess(s, o);
    DetachSpares(s0, o, p);
    var s1 := Detach(s0, o);
    assert Spared(s, s1, p);
    if s1.P(o).dstTarget.Some? { CancelSpares(s1, s1.P(o).dstTarget.value, p); }
    var s2 := if s1.P(o).dstTarget.Some? then CancelReplyWithError(s1, s1.P(o).dstTarget.value) else s1;
    assert Spared(s1, s2, p);
    OwnTeardownSpares(s2, o, p);
    assert Spared(s2, RevokeProcess(s, o), p);
  }

  lemma OwnTeardownSpares(s: State, o: Pid, p: Pid)
    requires p != o
    ensures Spared(s, GiveUp(s, o), p)
  {
    ForgetSpares(s, o, p);
  }

  lemma RevokedSpares(s: State, o: Pid, p: Pid)
    requires p != o
    ensures Spared(s, CompleteRevokedWait(s, o), p)
    ensures CompleteRevokedWait(s, o).ports == s.ports && CompleteRevokedWait(s, o).ntfs == s.ntfs
  {
  }

  lemma {:induction false} DrainPortSpares(s: State, q: PortId, p: Pid)
    requires p !in s.Q(q).queue
    ensures Spared(s, DrainPort(s, q), p)
    decreases |s.Q(q).queue|
  {
    if s.Q(q).queue != [] {
      var o := s.Q(q).queue[0];
      var s1 := PopIpc(s, q);
      var s2 := s1.SetP(o, s1.P(o).(srcWait := false, srcTarget := None));
      RevokedSpares(s2, o, p);
      DrainPortSpares(CompleteRevokedWait(s2, o), q, p);
    }
  }

  lemma {:induction false} DrainNtfSpares(s: State, n: NtfId, p: Pid)
    requires p !in s.N(n).queue
    ensures Spared(s, DrainNtf(s, n), p)
    decreases |s.N(n).queue|
  {
    if s.N(n).queue != [] {
      RevokedSpares(PopNtf(s, n), s.N(n).queue[0], p);
      DrainNtfSpares(CompleteRevokedWait(PopNtf(s, n), s.N(n).queue[0]), n, p);
    }
  }

  lemma RevokePortSpares(s: State, q: PortId, p: Pid)
    requires p !in s.Q(q).queue
    ensures Spared(s, RevokePort(s, q), p)
  {
    DrainPortSpares(s, q, p);
  }

  lemma RevokeNtfSpares(s: State, n: NtfId, p: Pid)
    requires p !in s.N(n).queue
    ensures Spared(s, RevokeNtf(s, n), p)
  {
    DrainNtfSpares(s, n, p);
    var s1 := DrainNtf(s, n);
    assert Spared(s1, RevokeNtf(s, n), p);
  }

  lemma YieldSpares(s: State, c: CoreId, p: Pid)
    requires s.C(c).current != Some(p)
    ensures Spared(s, Yield(s, c), p)
  {
    match s.C(c).current
    case None => IdleSpares(s, c, p);
    case Some(o) => RequeueSpares(s, c, o, p);
  }

  lemma IdleSpares(s: State, c: CoreId, p: Pid)
    ensures var s1 := s.SetC(c, s.C(c).(idleQuantum := QUANTUM_MAX));
      Spared(s, TryScheduleAndSwitch(s1, c), p)
  {
    var s1 := s.SetC(c, s.C(c).(idleQuantum := QUANTUM_MAX));
    DispatchLeaves(s1, c);
    TurnsSpare(s1, TryScheduleAndSwitch(s1, c), p);
  }

  lemma TimerSpares(s: State, c: CoreId, p: Pid)
    requires s.C(c).current != Some(p)
    ensures Spared(s, Timer(s, c), p)
  {
    match s.C(c).current
    case None =>
      var s1 := s.SetC(c, s.C(c).(idleQuantum := s.C(c).idleQuantum - 1));
      IdleSpares(s1, c, p);
      assert Spared(s1, Timer(s, c), p);
    case Some(o) =>
      var s1 := s.SetP(o, s.P(o).(quantum := s.P(o).quantum - 1));
      DispatchLeaves(s, c);
      TurnsSpare(s, TryScheduleAndSwitch(s, c), p);
      RequeueSpares(s1, c, o, p);
      TickedSpares(s, s1, c, o, p);
  }

  /** A tick switches away from a process that may not run, requeues one that used up its time, or just counts. */
  lemma TickedSpares(s: State, s1: State, c: CoreId, o: Pid, p: Pid)
    requires s.C(c).current == Some(o) && p != o && s1 == s.SetP(o, s.P(o).(quantum := s.P(o).quantum - 1))
    requires Spared(s, TryScheduleAndSwitch(s, c), p) && Spared(s1, TryScheduleAndSwitch(MarkScheduled(s1, o), c), p)
    ensures Spared(s, Timer(s, c), p)
  {
    var t := Timer(s, c);
    assert t == TryScheduleAndSwitch(s, c) || t == TryScheduleAndSwitch(MarkScheduled(s1, o), c) || t == s1;
  }

  lemma RequeueSpares(s: State, c: CoreId, o: Pid, p: Pid)
    requires p != o
    ensures Spared(s, TryScheduleAndSwitch(MarkScheduled(s, o), c), p)
  {
    DispatchLeaves(MarkScheduled(s, o), c);
    TurnsSpare(MarkScheduled(s, o), TryScheduleAndSwitch(MarkScheduled(s, o), c), p);
  }

  lemma RescheduleSpares(s: State, c: CoreId, p: Pid)
    requires s.C(c).current != Some(p)
    ensures Spared(s, RescheduleIpi(s, c), p)
  {
    var s1 := SetPending(s, c, None);
    var s2 :=
      match s1.C(c).current
      case None => s1.SetC(c, s1.C(c).(idleQuantum := QUANTUM_MAX))
      case Some(o) => if s1.P(o).status == Ready then MarkScheduled(s1, o) else s1;
    assert Spared(s, s2, p);
    PickSpares(s2, c, s.C(c).pending, p);
  }

  lemma PickSpares(s: State, c: CoreId, target: Option<Pid>, p: Pid)
    ensures Spared(s, TryScheduleAndSwitch(s, c), p)
    ensures target.Some? ==> Spared(s, SwitchTo(RemoveProcess(s, c, target.value), c, target), p)
  {
    DispatchLeaves(s, c);
    TurnsSpare(s, TryScheduleAndSwitch(s, c), p);
  }

  // ---------------------------------------------------------------- the theorem

  /** The server `v` replies to its caller or discards it. */
  predicate Answers(s: State, e: Entry, v: Pid) {
    && e.CapabilityCall? && s.C(e.core).current == Some(v)
    && (e.request.ReqReply? || e.request.ReqReceive? || e.request.ReqReplyReceive?)
  }

  /** The wait of `p` on `v` is ended from outside. */
  predicate Cancels(e: Entry, p: Pid, v: Pid) {
    && e.CapabilityCall?
    && match e.request
       case ReqResume(o) => o == p
       case ReqSuspend(o) => o == p
       case ReqRevokeProcess(o) => o == p || o == v
       case _ => false
  }

  /** Somebody writes the registers of `p` into its saved context, which no wait prevents. */
  predicate Rewrites(e: Entry, p: Pid) {
    e.CapabilityCall? && e.request == ReqWriteRegisters(p)
  }

  /** A waiting caller is in no queue, on no core, and is the caller of its server only. */
  lemma AwaitingIsNowhere(s: State, p: Pid)
    requires Good(s) && s.P(p).srcTarget.Some?
    ensures s.P(p).status == BlockedReply || s.P(p).status == BlockedFault
    ensures forall q: PortId :: p !in s.Q(q).queue
    ensures forall n: NtfId :: p !in s.N(n).queue
    ensures forall c: CoreId :: s.C(c).current != Some(p)
    ensures forall o: Pid :: s.P(o).dstTarget == Some(p) ==> s.P(p).srcTarget == Some(o)
  {
    Awaiting(s, {}, None, p);
    forall q: PortId ensures p !in s.Q(q).queue { assert PortOk(s, q); }
    forall n: NtfId ensures p !in s.N(n).queue { assert NtfOk(s, n); }
    forall c: CoreId ensures s.C(c).current != Some(p) { assert CoreOk(s, None, c); }
    forall o: Pid ensures s.P(o).dstTarget == Some(p) ==> s.P(p).srcTarget == Some(o) { assert ReplyOk(s, o); }
  }

  lemma ConfigureSpares(s: State, owner: Pid, r: Request, p: Pid)
    requires IsConfigure(r) && r != ReqWriteRegisters(p)
    ensures Spared(s, ExecuteConfigure(s, owner, r).0, p)
  {
    match r
    case ReqPriority(o, k) => SettingSpares(s, o, k, 0, p);
    case ReqAffinity(o, d) => SettingSpares(s, o, 0, d, p);
    case ReqBind(o, n) => BindingSpares(s, o, n, p);
    case ReqResolver(o, res) => assert Spared(s, ConfigureResolver(s, o, res), p);
    case ReqBuffer(o, isFrame) => assert Spared(s, ConfigureBuffer(s, o, isFrame).0, p);
    case ReqWriteRegisters(o) => assert Spared(s, WriteRegisters(s, owner, o).0, p);
    case ReqUnresolved =>
  }

  lemma SettingSpares(s: State, o: Pid, k: nat, d: nat, p: Pid)
    ensures Spared(s, ConfigurePriority(s, o, k).0, p) && Spared(s, ConfigureAffinity(s, o, d).0, p)
  {
  }

  lemma BindingSpares(s: State, o: Pid, n: NtfId, p: Pid)
    ensures Spared(s, ConfigureBinding(s, o, n).0, p)
  {
    var s1 := if s.P(o).boundPort.Some? then Unbind(s, o) else s;
    assert Spared(s, s1, p);
    assert Spared(s1, Bind(s1, n, o), p);
  }

  lemma MessageSpares(s: State, c: CoreId, owner: Pid, r: Request, p: Pid)
    requires Good(s) && s.C(c).current == Some(owner) && s.P(p).srcTarget.Some? && IsMessage(r)
    requires r.ReqSend? || r.ReqCall? || s.P(p).srcTarget != Some(owner)
    ensures Spared(s, ExecuteMessage(s, owner, r).0, p)
  {
    AwaitingIsNowhere(s, p);
    if !Normal(Info(s, owner)) { return; }
    var info := Info(s, owner);
    match r
    case ReqSend(cap, x) => SendSpares(s, owner, cap, info, x, p);
    case ReqCall(cap, x) => CallSpares(s, owner, cap, info, x, p);
    case ReqReceive(cap, x) => ReceiveSpares(s, owner, cap, info, x, p);
    case ReqReply(x) => ReplySpares(s, owner, info, x, p);
    case ReqReplyReceive(cap, x, y) => ReplyReceiveSpares(s, owner, cap, info, x, y, p);
  }

  lemma ControlSpares(s: State, c: CoreId, owner: Pid, r: Request, p: Pid)
    requires Good(s) && s.C(c).current == Some(owner) && s.P(p).srcTarget.Some? && !IsMessage(r)
    requires !Cancels(CapabilityCall(c, r), p, s.P(p).srcTarget.value) && r != ReqWriteRegisters(p)
    ensures Spared(s, Execute(s, c, owner, r).0, p)
  {
    AwaitingIsNowhere(s, p);
    match r
    case ReqNotify(cap) => NotifySpares(s, c, cap, p);
    case ReqWait(cap) => WaitSpares(s, owner, cap, p);
    case ReqPoll(cap) => WaitSpares(s, owner, cap, p);
    case ReqResume(o) => ResumeSpares(s, c, o, p);
    case ReqSuspend(o) => SuspendSpares(s, o, p);
    case ReqRevokePort(q) => RevokePortSpares(s, q, p);
    case ReqRevokeNtf(n) => RevokeNtfSpares(s, n, p);
    case ReqRevokeProcess(o) => RevokeProcessSpares(s, o, p);
    case _ => ConfigureSpares(s, owner, r, p);
  }

  lemma AnswerSpares(s: State, c: CoreId, owner: Pid, r: Request, p: Pid)
    requires p != owner && s.C(c).current == Some(owner)
    ensures Spared(Execute(s, c, owner, r).0, Step(s, CapabilityCall(c, r)), p)
  {
  }

  lemma RewriteLeavesWait(s: State, c: CoreId, p: Pid)
    ensures StillWaits(s, Step(s, CapabilityCall(c, ReqWriteRegisters(p))), p)
  {
    if s.C(c).current.Some? {
      var owner := s.C(c).current.value;
      var (t, res) := WriteRegisters(s, owner, p);
      assert ExecuteConfigure(s, owner, ReqWriteRegisters(p)) == (t, res);
      RewrittenStillWaits(s, owner, p, res);
    }
  }

  lemma RewrittenStillWaits(s: State, owner: Pid, p: Pid, res: Outcome)
    ensures StillWaits(s, Finish(WriteRegisters(s, owner, p).0, owner, res), p)
  {
  }

  /**
   One entry leaves a waiting caller waiting unless its server answers or somebody cancels it, and it
   changes its registers only if it is a WRITE_REGISTER on the caller.
   */
  lemma StepSpares(s: State, e: Entry, p: Pid)
    requires Good(s) && s.P(p).srcTarget.Some?
    requires !Answers(s, e, s.P(p).srcTarget.value) && !Cancels(e, p, s.P(p).srcTarget.value)
    ensures StillWaits(s, Step(s, e), p) && (!Rewrites(e, p) ==> Spared(s, Step(s, e), p))
  {
    AwaitingIsNowhere(s, p);
    if Rewrites(e, p) {
      RewriteLeavesWait(s, e.core, p);
      return;
    }
    match e
    case UserCode(c, regs) =>
    case CapabilityCall(c, r) =>
      if s.C(c).current.Some? {
        var owner := s.C(c).current.value;
        if IsMessage(r) { MessageSpares(s, c, owner, r, p); } else { ControlSpares(s, c, owner, r, p); }
        AnswerSpares(s, c, owner, r, p);
      }
    case YieldCall(c) => YieldSpares(s, c, p);
    case TimerTick(c) => TimerSpares(s, c, p);
    case Reschedule(c) => RescheduleSpares(s, c, p);
    case FaultEntry(c, fault) => FaultSpares(s, c, fault, p);
    case Irq(c, cap) => NotifySpares(s, c, cap, p);
  }

  lemma ThenSpares(s: State, t: State, e: Entry, p: Pid)
    requires Good(t) && s.P(p).srcTarget.Some? && StillWaits(s, t, p)
    requires !Answers(t, e, s.P(p).srcTarget.value) && !Cancels(e, p, s.P(p).srcTarget.value)
    ensures StillWaits(s, Step(t, e), p) && (Spared(s, t, p) && !Rewrites(e, p) ==> Spared(s, Step(t, e), p))
  {
    StepSpares(t, e, p);
  }

  /** Nobody answers or cancels `p` in the course of the run. */
  ghost predicate Unanswered(s: State, es: seq<Entry>, p: Pid, v: Pid) {
    forall i :: 0 <= i < |es| ==> !Answers(After(s, es[..i]), es[i], v) && !Cancels(es[i], p, v)
  }

  /**
   Over every run: while its server has neither answered nor gone and nobody cancels it, a caller goes
   on waiting for that server, and as long as nobody rewrites its registers they are exactly as they were.
   */
  lemma {:induction false} ReplyIntegrity(s: State, es: seq<Entry>, i: nat, p: Pid, v: Pid)
    requires Good(s) && Orderly(s, es) && s.P(p).srcTarget == Some(v) && Unanswered(s, es, p, v) && i <= |es|
    ensures StillWaits(s, After(s, es[..i]), p)
    ensures (forall j :: 0 <= j < i ==> !Rewrites(es[j], p)) ==> Spared(s, After(s, es[..i]), p)
  {
    if i == 0 {
      assert es[..0] == [];
    } else {
      ReplyIntegrity(s, es, i - 1, p, v);
      RunsStayGood(s, es, i - 1);
      AfterStep(s, es, i - 1);
      ThenSpares(s, After(s, es[..i - 1]), es[i - 1], p);
    }
  }
}
