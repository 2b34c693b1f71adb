/**
 Notified bits reach somebody: whenever a kernel entry records that a process took bits, that process
 is ready and holds exactly those bits in its registers.
 */
module BitDelivery {
  import opened Common
  import opened KernelState
  import opened ReadyQueues
  import opened KernelPrimitives
  import opened ProcessManager
  import opened IpcPort
  import opened IpcInvariant
  import opened NotificationPort
  import opened ProcessControl
  import opened KernelRun

  /** `p` can run and finds `bits` as its flag word, or as the identifier of a notification message. */
  ghost predicate Holds(s: State, p: Pid, bits: Word) {
    && s.P(p).status == Ready
    && (s.P(p).regs[MR_FLAG_WORD] == bits || (s.P(p).regs[MR_MESSAGE_INFO] == {14} && s.P(p).regs[MR_IDENTIFIER] == bits))
  }

  /** The history of `n` only grew, and every consumption in the new part reached its taker. */
  ghost predicate LoggedAt(s: State, t: State, n: NtfId) {
    && s.N(n).history <= t.N(n).history
    && forall i :: |s.N(n).history| <= i < |t.N(n).history| && t.N(n).history[i].Consumed? ==>
         Holds(t, t.N(n).history[i].taker, t.N(n).history[i].bits)
  }

  ghost predicate Logged(s: State, t: State) {
    forall n: NtfId :: LoggedAt(s, t, n)
  }

  /** Nothing was notified or taken. */
  ghost predicate SameLog(s: State, t: State) {
    forall n: NtfId :: t.N(n).history == s.N(n).history
  }

  lemma QuietIsLogged(s: State, t: State)
    requires SameLog(s, t)
    ensures Logged(s, t)
  {
    forall n: NtfId ensures LoggedAt(s, t, n) { assert t.N(n).history == s.N(n).history; }
  }

  // ---------------------------------------------------------------- operations that take no bits

  lemma SendTakesNone(s: State, owner: Pid, cap: Cap, info: Word, x: Transfer)
    ensures SameLog(s, Send(s, owner, cap, info, x).0)
  {
    var q := cap.port;
    if cap.writable {
      if s.Q(q).state == ReadyToReceive {
        if s.Q(q).queue != [] {
          var target := s.Q(q).queue[0];
          var s1 := PopIpc(s, q);
          var s2 := s1.SetP(target, s1.P(target).(status := Ready));
          var s3 := s2.SetP(owner, s2.P(owner).(identifier := cap.identifier));
          var s4 := TransferMessage(s3, q, target, owner, info, x).0;
          assert s4.ntfs == s.ntfs;
          RouteFrame(s4, s4.P(owner).affinity, target);
        }
      } else if IsBlock(info) {
        BlockTakesNone(s.SetP(owner, s.P(owner).(status := BlockedSend, identifier := cap.identifier)), q, ReadyToSend, owner);
      }
    }
  }

  lemma BlockTakesNone(s: State, q: PortId, st: PortState, owner: Pid)
    ensures Block(s, q, st, owner).ntfs == s.ntfs
  {
    DispatchLeaves(PushIpc(s, q, st, owner), s.P(owner).affinity);
  }

  lemma AcceptTakesNone(s: State, q: PortId, receiver: Pid, sender: Pid, x: Transfer)
    ensures AcceptSender(s, q, receiver, sender, x).0.ntfs == s.ntfs
  {
    if s.P(sender).fault == NoFault {
      var s1 := TransferMessage(s, q, receiver, sender, s.P(sender).regs[MR_MESSAGE_INFO], x).0;
      var s2 := Forget(s1, receiver);
      var s3 := s2.SetP(sender, s2.P(sender).(status := Ready));
      RouteFrame(s3, s3.P(receiver).affinity, sender);
    }
  }

  lemma CallReceiverTakesNone(s: State, owner: Pid, q: PortId, target: Pid, info: Word, x: Transfer)
    ensures CallReceiver(s, owner, q, target, info, x).0.ntfs == s.ntfs
  {
    if !s.P(target).dstReady {
      var s1 := Link(s, owner, target);
      var s2 := s1.SetP(owner, s1.P(owner).(status := BlockedReply));
      var s3 := TransferMessage(s2, q, target, owner, info, x).0;
      var s4 := s3.SetP(target, s3.P(target).(status := Ready));
      DirectLeaves(s4, s4.P(owner).affinity, target);
    }
  }

  lemma RevokedTakesNone(s: State, p: Pid)
    ensures CompleteRevokedWait(s, p).ntfs == s.ntfs && CancelReply(s, p).ntfs == s.ntfs
    ensures CompleteRevokedWait(s, p).ports == s.ports && CancelReply(s, p).ports == s.ports
    ensures CancelReplyWithError(s, p).ntfs == s.ntfs && CancelReplyWithError(s, p).ports == s.ports
  {
  }

  lemma FaultReplyLeaves(s: State, owner: Pid, client: Pid)
    ensures CompleteFaultReply(s, owner, client).ntfs == s.ntfs && CompleteFaultReply(s, owner, client).ports == s.ports
  {
    var s1 := s.SetP(client, s.P(client).(status := Ready, srcWait := false, srcTarget := None, fault := NoFault));
    RouteFrame(Forget(s1, owner), s.P(owner).affinity, client);
  }

  lemma CompleteReplyTakesNone(s: State, owner: Pid, info: Word, x: Transfer, enqueue: bool)
    ensures CompleteReply(s, owner, info, x, enqueue).0.ntfs == s.ntfs
    ensures CompleteReply(s, owner, info, x, enqueue).0.ports == s.ports
  {
    if s.P(owner).dstReady && s.P(owner).dstTarget.Some? {
      var client := s.P(owner).dstTarget.value;
      if s.P(client).fault != NoFault {
        FaultReplyLeaves(SetRegs(s, client, ReplyRegisters(s, owner, client, info)), owner, client);
      } else {
        var s1 := TransferDirectMessage(s, client, owner, info, x).0;
        var s2 := s1.SetP(client, s1.P(client).(status := Ready, srcWait := false, srcTarget := None));
        RouteFrame(Forget(s2, owner), s2.P(owner).affinity, client);
      }
    }
  }

  lemma ReplyTakesNone(s: State, owner: Pid, info: Word, x: Transfer)
    ensures SameLog(s, Reply(s, owner, info, x).0)
  {
    CompleteReplyTakesNone(s, owner, info, x, true);
    var s1 := CompleteReply(s, owner, info, x, true).0;
    var s2 := s1.SetP(owner, s1.P(owner).(status := Ready));
    DirectLeaves(s2, s2.P(owner).affinity, owner);
  }

  lemma FastTakesNone(s: State, owner: Pid, q: PortId, info: Word, x: Transfer)
    requires s.P(owner).dstTarget.Some?
    ensures SameLog(s, ReplyReceiveFast(s, owner, q, info, x).0)
  {
    CompleteReplyTakesNone(s, owner, info, x, false);
    var s1 := CompleteReply(s, owner, info, x, false).0;
    var s3 := PushIpc(s1.SetP(owner, s1.P(owner).(status := BlockedReceive)), q, ReadyToReceive, owner);
    DirectScheduleTakesNone(s3, s3.P(owner).affinity, s.P(owner).dstTarget.value);
  }

  lemma DirectScheduleTakesNone(s: State, c: CoreId, p: Pid)
    ensures TryDirectSchedule(s, c, p).0.ntfs == s.ntfs
  {
    var k := s.P(p).priority;
    if k < s.C(c).highest {
      var s1 := SetHighest(s, c, Tighten(s.C(c).ready, s.C(c).highest, k));
      var s2 := AddProcess(s1, p).0;
      assert s2.ntfs == s.ntfs && Schedule(s2, c).0.ntfs == s2.ntfs;
    }
  }

  lemma FaultTakesNone(s: State, c: CoreId, fault: Fault)
    ensures SameLog(s, HandleFault(s, c, fault))
  {
    if s.C(c).current.Some? {
      var o := s.C(c).current.value;
      var s1 := s.SetP(o, s.P(o).(fault := fault));
      if s1.P(o).resolver.Some? {
        FaultCallTakesNone(s1, o, s1.P(o).resolver.value);
      }
      var s2 := if s1.P(o).resolver.None? then s1 else FaultCall(s1, o, s1.P(o).resolver.value).0;
      DispatchLeaves(s2.SetP(o, s2.P(o).(status := BlockedSuspend)), c);
    }
  }

  lemma FaultCallTakesNone(s: State, owner: Pid, cap: Resolver)
    ensures FaultCall(s, owner, cap).0.ntfs == s.ntfs
  {
    var q := cap.port;
    if cap.writable && cap.readable {
      if s.Q(q).state == ReadyToReceive {
        if s.Q(q).queue != [] {
          var s1 := PopIpc(s, q);
          var r := s1.P(owner).(identifier := cap.identifier, status := BlockedFault);
          FaultReceiverTakesNone(s1.SetP(owner, r), owner, q, s.Q(q).queue[0]);
        }
      } else {
        var r := s.P(owner).(status := BlockedFault, srcWait := true, identifier := cap.identifier);
        BlockTakesNone(s.SetP(owner, r), q, ReadyToSend, owner);
      }
    }
  }

  lemma FaultReceiverTakesNone(s: State, owner: Pid, q: PortId, target: Pid)
    ensures FaultReceiver(s, owner, q, target).0.ntfs == s.ntfs
  {
    if s.P(target).dstReady {
      var s1 := s.SetP(owner, s.P(owner).(srcWait := true));
      BlockTakesNone(s1, q, s1.Q(q).state, owner);
    } else {
      var s2 := TransferFaultMessage(Link(s, owner, target), target, owner).0;
      var s3 := s2.SetP(target, s2.P(target).(status := Ready));
      DirectLeaves(s3, s3.P(owner).affinity, target);
    }
  }

  lemma StopTakesNone(s: State, p: Pid)
    ensures StopProcess(s, p).ntfs == s.ntfs
  {
  }

  lemma DetachTakesNone(s: State, p: Pid)
    ensures SameLog(s, Detach(s, p))
  {
    var s1 := if s.P(p).ipcPort.Some? then RemoveIpc(s, p) else s;
    assert s1.ntfs == s.ntfs;
  }

  lemma ResumeTakesNone(s: State, c: CoreId, p: Pid)
    ensures SameLog(s, Resume(s, c, p).0)
  {
    DetachTakesNone(s, p);
    var s0 := Detach(s, p);
    RevokedTakesNone(s0, p);
    var s1 := ClearFault(CancelReply(s0, p), p);
    var s2 := s1.SetP(p, s1.P(p).(status := Ready));
    RouteFrame(s2, c, p);
  }

  lemma SuspendTakesNone(s: State, p: Pid)
    ensures SameLog(s, Suspend(s, p))
  {
    StopTakesNone(s, p);
    var s1 := StopProcess(s, p);
    var s2 := if NativeWait(s.P(p)) then SetRegs(s1, p, s1.P(p).regs[MR_IS_SUCCESS := {}][MR_ERROR_CODE := {}]) else s1;
    assert SameLog(s, s2);
    OwnWaitTakesNone(s2, p);
    assert SameLog(s2, ClearFault(CancelOwnWait(s2, p), p));
  }

  lemma OwnWaitTakesNone(s: State, p: Pid)
    ensures SameLog(s, ClearFault(CancelOwnWait(s, p), p))
  {
    DetachTakesNone(s, p);
    var s1 := Detach(s, p);
    RevokedTakesNone(s1, p);
    assert ClearFault(CancelReply(s1, p), p).ntfs == s1.ntfs;
  }

  lemma RevokeProcessTakesNone(s: State, p: Pid)
    ensures SameLog(s, RevokeProcess(s, p))
  {
    StopTakesNone(s, p);
    DetachTakesNone(StopProcess(s, p), p);
    var s1 := Detach(StopProcess(s, p), p);
    if s1.P(p).dstTarget.Some? { RevokedTakesNone(s1, s1.P(p).dstTarget.value); }
    var s2 := if s1.P(p).dstTarget.Some? then CancelReplyWithError(s1, s1.P(p).dstTarget.value) else s1;
    assert SameLog(s, s2);
    GiveUpTakesNone(s2, p);
    assert SameLog(s2, RevokeProcess(s, p));
  }

  lemma GiveUpTakesNone(s: State, p: Pid)
    ensures SameLog(s, GiveUp(s, p))
  {
    RevokedTakesNone(s, p);
  }

  lemma {:induction false} DrainPortTakesNone(s: State, q: PortId)
    ensures DrainPort(s, q).ntfs == s.ntfs
    decreases |s.Q(q).queue|
  {
    if s.Q(q).queue != [] {
      var p := s.Q(q).queue[0];
      var s1 := PopIpc(s, q);
      var s2 := s1.SetP(p, s1.P(p).(srcWait := false, srcTarget := None));
      RevokedTakesNone(s2, p);
      DrainPortTakesNone(CompleteRevokedWait(s2, p), q);
    }
  }

  lemma {:induction false} DrainNtfTakesNone(s: State, n: NtfId)
    ensures SameLog(s, DrainNtf(s, n))
    decreases |s.N(n).queue|
  {
    if s.N(n).queue != [] {
      var s1 := PopNtf(s, n);
      assert SameLog(s, s1);
      RevokedTakesNone(s1, s.N(n).queue[0]);
      DrainNtfTakesNone(CompleteRevokedWait(s1, s.N(n).queue[0]), n);
    }
  }

  lemma YieldTakesNone(s: State, c: CoreId)
    ensures Yield(s, c).ntfs == s.ntfs
  {
  }

  lemma TimerTakesNone(s: State, c: CoreId)
    ensures Timer(s, c).ntfs == s.ntfs
  {
  }

  lemma RescheduleTakesNone(s: State, c: CoreId)
    ensures RescheduleIpi(s, c).ntfs == s.ntfs
  {
    var s1 := SetPending(s, c, None);
    var s2 :=
      match s1.C(c).current
      case None => s1.SetC(c, s1.C(c).(idleQuantum := QUANTUM_MAX))
      case Some(p) => if s1.P(p).status == Ready then MarkScheduled(s1, p) else s1;
    assert s2.ntfs == s.ntfs;
  }

  // ---------------------------------------------------------------- operations that take bits

  lemma TakeIsLogged(s: State, t: State, n: NtfId, p: Pid)
    requires t.ntfs == ConsumeBits(s, n, p).ntfs && Holds(t, p, s.N(n).flag)
    ensures Logged(s, t)
  {
    forall m: NtfId ensures LoggedAt(s, t, m) {}
  }

  lemma NotifyTakeIsLogged(s: State, u: State, t: State, n: NtfId, bits: Word, p: Pid)
    requires u.N(n).history == s.N(n).history + [Notified(bits)] && forall m: NtfId :: m != n ==> u.N(m).history == s.N(m).history
    requires t.ntfs == ConsumeBits(u, n, p).ntfs && Holds(t, p, u.N(n).flag)
    ensures Logged(s, t)
  {
    forall m: NtfId ensures LoggedAt(s, t, m) {
      assert m != n ==> u.N(m).history == s.N(m).history;
    }
  }

  lemma DeliverIsLogged(s: State, owner: Pid)
    requires s.P(owner).status == Ready
    ensures var (t, delivered) := TryDeliverPending(s, owner);
      && Logged(s, t) && (!delivered ==> t == s)
  {
    var (t, delivered) := TryDeliverPending(s, owner);
    if delivered {
      TakeIsLogged(s, t, s.P(owner).boundPort.value, owner);
    } else {
      QuietIsLogged(s, t);
    }
  }

  lemma ReceivePartIsLogged(s: State, owner: Pid, q: PortId, info: Word, x: Transfer)
    requires s.P(owner).status == Ready
    ensures Logged(s, ReceivePart(s, owner, q, info, x).0)
  {
    var t := ReceivePart(s, owner, q, info, x).0;
    if s.Q(q).state == ReadyToSend {
      if s.Q(q).queue != [] {
        AcceptTakesNone(PopIpc(s, q), q, owner, s.Q(q).queue[0], x);
      }
      QuietIsLogged(s, t);
    } else {
      DeliverIsLogged(s, owner);
      var (s1, delivered) := TryDeliverPending(s, owner);
      if !delivered && IsBlock(info) {
        BlockTakesNone(s1.SetP(owner, s1.P(owner).(status := BlockedReceive)), q, ReadyToReceive, owner);
        QuietIsLogged(s, t);
      }
    }
  }

  /** What came before took nothing. */
  lemma QuietThenLogged(s: State, t: State, u: State)
    requires SameLog(s, t) && Logged(t, u)
    ensures Logged(s, u)
  {
    forall n: NtfId ensures LoggedAt(s, u, n) { assert LoggedAt(t, u, n) && t.N(n).history == s.N(n).history; }
  }

  lemma ReceiveIsLogged(s: State, owner: Pid, cap: Cap, info: Word, x: Transfer)
    requires s.P(owner).status == Ready && s.P(owner).dstTarget != Some(owner)
    ensures Logged(s, Receive(s, owner, cap, info, x).0)
  {
    var s1 := DiscardCaller(s, owner);
    if s.P(owner).dstReady && s.P(owner).dstTarget.Some? {
      RevokedTakesNone(s, s.P(owner).dstTarget.value);
    }
    assert SameLog(s, s1) && s1.P(owner).status == Ready;
    ReceivePartIsLogged(s1, owner, cap.port, info, x);
    QuietIsLogged(s, s);
    QuietThenLogged(s, s1, ReceivePart(s1, owner, cap.port, info, x).0);
  }

  lemma CallIsLogged(s: State, owner: Pid, cap: Cap, info: Word, x: Transfer)
    requires s.P(owner).status == Ready
    ensures Logged(s, Call(s, owner, cap, info, x).0)
  {
    var q := cap.port;
    var t := Call(s, owner, cap, info, x).0;
    DeliverIsLogged(s, owner);
    if !cap.writable || s.Q(q).state == ReadyToReceive || !IsBlock(info) {
      if cap.writable && s.Q(q).state == ReadyToReceive && s.Q(q).queue != [] {
        var s1 := PopIpc(s, q);
        CallReceiverTakesNone(s1.SetP(owner, s1.P(owner).(identifier := cap.identifier)), owner, q, s.Q(q).queue[0], info, x);
      }
      QuietIsLogged(s, t);
    } else {
      var (s1, delivered) := TryDeliverPending(s, owner);
      if !delivered {
        var r := s1.P(owner).(status := BlockedSend, srcWait := true, identifier := cap.identifier);
        BlockTakesNone(s1.SetP(owner, r), q, ReadyToSend, owner);
        QuietIsLogged(s, t);
      }
    }
  }

  lemma ReplyReceiveIsLogged(s: State, owner: Pid, cap: Cap, info: Word, x: Transfer, y: Transfer)
    requires s.P(owner).status == Ready && s.P(owner).dstTarget != Some(owner) && (s.P(owner).dstReady <==> s.P(owner).dstTarget.Some?)
    ensures Logged(s, ReplyReceive(s, owner, cap, info, x, y).0)
  {
    var q := cap.port;
    QuietIsLogged(s, s);
    if cap.readable {
      if FastReply(s, owner, q, info) {
        FastTakesNone(s, owner, q, info, x);
        QuietIsLogged(s, ReplyReceiveFast(s, owner, q, info, x).0);
      } else {
        CompleteReplyTakesNone(s, owner, info, x, true);
        var (s1, res) := CompleteReply(s, owner, info, x, true);
        ReplyFrame(s, owner, info, x, true);
        QuietIsLogged(s, s1);
        ReceivePartIsLogged(s1, owner, q, info, y);
        QuietThenLogged(s, s1, ReceivePart(s1, owner, q, info, y).0);
      }
    }
  }

  lemma TakeFlagIsLogged(s: State, n: NtfId, owner: Pid)
    requires s.P(owner).status == Ready
    ensures Logged(s, TakeFlag(s, n, owner))
  {
    TakeIsLogged(s, TakeFlag(s, n, owner), n, owner);
  }

  lemma WaitIsLogged(s: State, owner: Pid, cap: Cap)
    requires s.P(owner).status == Ready
    ensures Logged(s, WaitFlag(s, owner, cap).0) && Logged(s, Poll(s, owner, cap).0)
  {
    TakeFlagIsLogged(s, cap.port, owner);
    QuietIsLogged(s, s);
    QuietIsLogged(s, SetRegs(s, owner, s.P(owner).regs[MR_FLAG_WORD := {}]));
    var s1 := PushNtf(s.SetP(owner, s.P(owner).(status := BlockedWait)), cap.port, owner);
    DispatchLeaves(s1, s.P(owner).affinity);
    QuietIsLogged(s, TryScheduleAndSwitch(s1, s.P(owner).affinity));
  }

  lemma WakeHolds(s: State, c: CoreId, p: Pid, bits: Word)
    requires s.P(p).regs[MR_FLAG_WORD] == bits || (s.P(p).regs[MR_MESSAGE_INFO] == {14} && s.P(p).regs[MR_IDENTIFIER] == bits)
    ensures var t := RouteMarkScheduledPreempting(s, c, p);
      t.ntfs == s.ntfs && Holds(t, p, bits)
  {
    PreemptingLeaves(s, c, p);
    var t := RouteMarkScheduledPreempting(s, c, p);
    assert SameUpToTurn(t.P(p), MadeReady(s, p).P(p));
  }

  lemma NotifyIsLogged(s: State, c: CoreId, cap: Cap)
    ensures Logged(s, Notify(s, c, cap).0)
  {
    var n := cap.port;
    QuietIsLogged(s, s);
    if cap.writable {
      var s1 := NotifyBits(s, n, cap.identifier);
      if s1.N(n).bound.Some? && s1.P(s1.N(n).bound.value).status == BlockedReceive {
        WakeBoundIsLogged(s, c, n, s1.N(n).bound.value, cap.identifier);
      } else if s1.N(n).readyToWake && s1.N(n).queue != [] {
        var p := s1.N(n).queue[0];
        var s2 := PopNtf(s1, n);
        var s3 := ConsumeBits(s2, n, p);
        var s4 := SetRegs(s3, p, s3.P(p).regs[MR_FLAG_WORD := s2.N(n).flag]);
        WakeHolds(s4, c, p, s2.N(n).flag);
        NotifyTakeIsLogged(s, s2, RouteMarkScheduledPreempting(s4, c, p), n, cap.identifier, p);
      } else {
        forall m: NtfId ensures LoggedAt(s, s1, m) {}
      }
    }
  }

  lemma WakeBoundIsLogged(s: State, c: CoreId, n: NtfId, p: Pid, bits: Word)
    ensures Logged(s, WakeBound(NotifyBits(s, n, bits), c, n, p).0)
  {
    var s1 := NotifyBits(s, n, bits);
    forall m: NtfId ensures LoggedAt(s, s1, m) {}
    if s1.P(p).ipcPort.Some? {
      var s2 := RemoveIpc(s1, p);
      var s3 := ConsumeBits(s2, n, p);
      var s4 := SetRegs(s3, p, s3.P(p).regs[MR_MESSAGE_INFO := {14}][MR_IDENTIFIER := s2.N(n).flag]);
      var s5 := s4.SetP(p, s4.P(p).(status := Ready, ipcPort := None, ntfPort := None));
      WakeHolds(s5, c, p, s2.N(n).flag);
      NotifyTakeIsLogged(s, s2, RouteMarkScheduledPreempting(s5, c, p), n, bits, p);
    }
  }

  lemma RevokeNtfIsLogged(s: State, n: NtfId)
    ensures Logged(s, RevokeNtf(s, n))
  {
    DrainNtfTakesNone(s, n);
    var s1 := DrainNtf(s, n);
    var t := RevokeNtf(s, n);
    forall m: NtfId ensures LoggedAt(s, t, m) { assert s1.N(m).history == s.N(m).history; }
  }

  // ---------------------------------------------------------------- the theorem

  lemma MessageIsLogged(s: State, c: CoreId, owner: Pid, r: Request)
    requires Good(s) && s.C(c).current == Some(owner) && IsMessage(r)
    ensures Logged(s, ExecuteMessage(s, owner, r).0)
  {
    QuietIsLogged(s, s);
    if !Normal(Info(s, owner)) { return; }
    Running(s, c, owner);
    assert ReplyOk(s, owner);
    var info := Info(s, owner);
    match r
    case ReqSend(cap, x) =>
      SendTakesNone(s, owner, cap, info, x);
      QuietIsLogged(s, Send(s, owner, cap, info, x).0);
    case ReqReceive(cap, x) => ReceiveIsLogged(s, owner, cap, info, x);
    case ReqCall(cap, x) => CallIsLogged(s, owner, cap, info, x);
    case ReqReply(x) =>
      ReplyTakesNone(s, owner, info, x);
      QuietIsLogged(s, Reply(s, owner, info, x).0);
    case ReqReplyReceive(cap, x, y) => ReplyReceiveIsLogged(s, owner, cap, info, x, y);
  }

  lemma ControlTakesNone(s: State, c: CoreId, owner: Pid, r: Request)
    requires !IsMessage(r) && !r.ReqNotify? && !r.ReqWait? && !r.ReqPoll? && !r.ReqRevokeNtf?
    ensures SameLog(s, Execute(s, c, owner, r).0)
  {
    match r
    case ReqResume(p) => ResumeTakesNone(s, c, p);
    case ReqSuspend(p) => SuspendTakesNone(s, p);
    case ReqRevokePort(q) => DrainPortTakesNone(s, q);
    case ReqRevokeProcess(p) => RevokeProcessTakesNone(s, p);
    case ReqBind(p, n) => BindTakesNone(s, p, n);
    case _ =>
  }

  lemma BindTakesNone(s: State, p: Pid, n: NtfId)
    ensures SameLog(s, ConfigureBinding(s, p, n).0)
  {
    var s1 := if s.P(p).boundPort.Some? then Unbind(s, p) else s;
    assert SameLog(s, s1) && SameLog(s1, Bind(s1, n, p));
  }

  lemma ExecuteIsLogged(s: State, c: CoreId, owner: Pid, r: Request)
    requires Good(s) && s.C(c).current == Some(owner)
    ensures Logged(s, Execute(s, c, owner, r).0)
  {
    Running(s, c, owner);
    if IsMessage(r) {
      MessageIsLogged(s, c, owner, r);
    } else {
      match r
      case ReqNotify(cap) => NotifyIsLogged(s, c, cap);
      case ReqWait(cap) => WaitIsLogged(s, owner, cap);
      case ReqPoll(cap) => WaitIsLogged(s, owner, cap);
      case ReqRevokeNtf(n) => RevokeNtfIsLogged(s, n);
      case _ =>
        ControlTakesNone(s, c, owner, r);
        QuietIsLogged(s, Execute(s, c, owner, r).0);
    }
  }

  /** The result registers of a call overwrite neither the flag word nor the identifier. */
  lemma FinishHolds(s: State, t: State, owner: Pid, res: Outcome)
    requires Logged(s, t)
    ensures Logged(s, Finish(t, owner, res))
  {
    var u := Finish(t, owner, res);
    forall n: NtfId ensures LoggedAt(s, u, n) { assert LoggedAt(s, t, n); }
  }

  lemma StepIsLogged(s: State, e: Entry)
    requires Good(s)
    ensures Logged(s, Step(s, e))
  {
    match e
    case CapabilityCall(c, r) =>
      QuietIsLogged(s, s);
      if s.C(c).current.Some? {
        var owner := s.C(c).current.value;
        ExecuteIsLogged(s, c, owner, r);
        FinishHolds(s, Execute(s, c, owner, r).0, owner, Execute(s, c, owner, r).1);
      }
    case Irq(c, cap) => NotifyIsLogged(s, c, cap);
    case UserCode(c, regs) => QuietIsLogged(s, Step(s, e));
    case YieldCall(c) =>
      YieldTakesNone(s, c);
      QuietIsLogged(s, Yield(s, c));
    case TimerTick(c) =>
      TimerTakesNone(s, c);
      QuietIsLogged(s, Timer(s, c));
    case Reschedule(c) =>
      RescheduleTakesNone(s, c);
      QuietIsLogged(s, RescheduleIpi(s, c));
    case FaultEntry(c, fault) =>
      FaultTakesNone(s, c, fault);
      QuietIsLogged(s, HandleFault(s, c, fault));
  }

  /**
   After every entry of every run: whoever the entry records as the taker of some bits is ready and
   holds exactly them, so no bit is taken and lost.
   */
  lemma TakenBitsArrive(s: State, es: seq<Entry>, i: nat, n: NtfId, k: nat)
    requires Good(s) && Orderly(s, es) && i < |es|
    requires |After(s, es[..i]).N(n).history| <= k < |After(s, es[..i + 1]).N(n).history|
    requires After(s, es[..i + 1]).N(n).history[k].Consumed?
    ensures var t := After(s, es[..i + 1]);
      Holds(t, t.N(n).history[k].taker, t.N(n).history[k].bits)
  {
    RunsStayGood(s, es, i);
    AfterStep(s, es, i);
    StepIsLogged(After(s, es[..i]), es[i]);
    assert LoggedAt(After(s, es[..i]), After(s, es[..i + 1]), n);
  }
}
