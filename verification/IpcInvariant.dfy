/** Every IPC operation keeps the invariant, unless a message transfer fails half way. */
module IpcInvariant {
  import opened Common
  import opened KernelState
  import opened KernelPrimitives
  import opened ProcessManager
  import opened IpcPort

  lemma RegsKeep(s: State, f: set<Pid>, away: Option<CoreId>, p: Pid, regs: Registers)
    requires Inv(s, f, away)
    ensures Inv(SetRegs(s, p, regs), f, away)
  {
    OwnFieldsKeep(s, f, away, p, s.P(p).(regs := regs));
  }

  /** A process waiting for a reply is blocked, in no queue and on no core. */
  lemma Awaiting(s: State, f: set<Pid>, away: Option<CoreId>, p: Pid)
    requires Inv(s, f, away) && p !in f && s.P(p).srcTarget.Some?
    ensures s.P(p).status == BlockedReply || (s.P(p).status == BlockedFault && s.P(p).fault != NoFault)
    ensures Nowhere(PlaceOf(s, away, p))
  {
    assert PlaceOk(s, f, away, p) && ReplyOk(s, p);
  }

  lemma CompleteRevokedKeeps(s: State, f: set<Pid>, away: Option<CoreId>, p: Pid)
    requires Inv(s, f, away) && p in f && !s.P(p).srcWait
    requires s.P(p).fault != NoFault || s.P(p).status in {BlockedSend, BlockedReceive, BlockedReply, BlockedWait}
    ensures Inv(CompleteRevokedWait(s, p), f - {p}, away)
  {
    var s1 := SetRegs(s, p, s.P(p).regs[MR_IS_SUCCESS := {}][MR_ERROR_CODE := {}]);
    RegsKeep(s, f, away, p, s1.P(p).regs);
    if s1.P(p).fault != NoFault {
      var s2 := s1.SetP(p, s1.P(p).(status := BlockedSuspend));
      assert PlaceOk(s, f, away, p) && ReplyOk(s, p);
      Touch(s1, f, away, p, s2.P(p));
      assert PlaceOk(s2, f, away, p);
      Settle(s2, f, away, p);
    } else {
      MarkScheduledKeeps(s1, f, away, p);
    }
  }

  lemma CancelWithErrorKeeps(s: State, f: set<Pid>, away: Option<CoreId>, client: Pid)
    requires Inv(s, f, away) && client !in f && s.P(client).srcTarget.Some?
    ensures Inv(CancelReplyWithError(s, client), f, away)
    ensures var t := CancelReplyWithError(s, client);
      && t.P(client).srcTarget.None? && t.P(s.P(client).srcTarget.value).dstTarget.None?
      && t.P(client).status == (if s.P(client).fault != NoFault then BlockedSuspend else Ready)
  {
    Awaiting(s, f, away, client);
    Lift(s, f, away, client);
    CancelKeeps(s, f + {client}, away, client);
    CancelKeepsFault(s, client);
    CompleteRevokedKeeps(CancelReply(s, client), f + {client}, away, client);
    assert f + {client} - {client} == f;
    CompleteRevokedFrame(CancelReply(s, client), client);
  }

  lemma CancelKeepsFault(s: State, client: Pid)
    ensures CancelReply(s, client).P(client).fault == s.P(client).fault
    ensures CancelReply(s, client).P(client).status == s.P(client).status
  {
  }

  lemma CompleteRevokedFrame(s: State, client: Pid)
    requires s.P(client).fault == NoFault ==> s.P(client).status == BlockedReply
    ensures var t := CompleteRevokedWait(s, client);
      && (forall p: Pid :: t.P(p).srcTarget == s.P(p).srcTarget && t.P(p).dstTarget == s.P(p).dstTarget)
      && t.P(client).status == (if s.P(client).fault != NoFault then BlockedSuspend else Ready)
  {
  }

  lemma SelfLinkImpossible(s: State, p: Pid)
    requires Replies(s)
    ensures s.P(p).srcTarget != Some(p)
  {
    if s.P(p).srcTarget == Some(p) {
      assert Ends(Links(s), p);
      var n: nat :| Follow(Links(s), p, n).None?;
      LoopsForever(Links(s), p, n);
    }
  }

  lemma {:induction false} LoopsForever(g: imap<Pid, Pid>, p: Pid, n: nat)
    requires p in g && g[p] == p
    ensures Follow(g, p, n) == Some(p)
    decreases n
  {
    if n > 0 { LoopsForever(g, p, n - 1); }
  }

  /** What releasing the caller leaves of its server; there is nothing left to forget. */
  lemma ServerForgets(s: State, owner: Pid, client: Pid)
    requires client != owner && s.P(owner).dstTarget == Some(client) && s.P(client).srcTarget == Some(owner)
    ensures var t := CancelReplyWithError(s, client);
      && Forget(t, owner) == t && t.P(owner) == s.P(owner).(dstReady := false, dstTarget := None)
      && forall c: CoreId :: t.C(c).current == s.C(c).current && t.C(c).pending == s.C(c).pending
  {
    var t := CancelReplyWithError(s, client);
    assert t.P(owner) == s.P(owner).(dstReady := false, dstTarget := None);
    assert Forget(t, owner).procs == t.procs;
  }

  lemma DiscardKeeps(s: State, f: set<Pid>, away: Option<CoreId>, owner: Pid)
    requires Inv(s, f, away) && owner in f && s.P(owner).srcTarget.None?
    requires forall p :: p in f ==> p == owner
    ensures Inv(DiscardCaller(s, owner), f, away)
    ensures DiscardCaller(s, owner).P(owner) == s.P(owner).(dstReady := false, dstTarget := None)
    ensures forall c: CoreId :: DiscardCaller(s, owner).C(c).current == s.C(c).current
  {
    assert ReplyOk(s, owner);
    if s.P(owner).dstReady {
      var client := s.P(owner).dstTarget.value;
      SelfLinkImpossible(s, owner);
      assert ReplyOk(s, client);
      CancelWithErrorKeeps(s, f, away, client);
      ServerForgets(s, owner, client);
    } else {
      assert s.P(owner) == s.P(owner).(dstReady := false, dstTarget := None);
    }
  }

  // ---------------------------------------------------------------- blocking and staying

  lemma BlockKeeps(s: State, c: CoreId, q: PortId, st: PortState, owner: Pid)
    requires Inv(s, {owner}, Some(c)) && st != Wait && s.P(owner).affinity == c
    requires s.Q(q).state == Wait || s.Q(q).state == st
    requires Fits(s.P(owner).status, PlaceOf(s, Some(c), owner).(port := Some(st)))
    ensures Good(Block(s, q, st, owner))
  {
    PushIpcKeeps(s, {owner}, Some(c), q, st, owner);
    assert {owner} - {owner} == {};
    SwitchAwayKeeps(PushIpc(s, q, st, owner), {}, c);
  }

  lemma LeaveOne(s: State, c: CoreId, owner: Pid)
    requires Good(s) && s.C(c).current == Some(owner)
    ensures Inv(s, {owner}, Some(c))
    ensures Runnable(s.P(owner)) && s.P(owner).affinity == c && s.P(owner).srcTarget.None?
    ensures Nowhere(PlaceOf(s, Some(c), owner))
  {
    Running(s, c, owner);
    Leave(s, {}, c, owner);
    assert {} + {owner} == {owner};
    assert PlaceOk(s, {owner}, Some(c), owner);
  }

  lemma StayOne(s: State, c: CoreId, owner: Pid)
    requires Inv(s, {owner}, Some(c)) && s.C(c).current == Some(owner)
    requires Runnable(s.P(owner)) && s.P(owner).affinity == c
    ensures Good(s)
  {
    StayKeeps(s, {owner}, c, owner);
    assert {owner} - {owner} == {};
  }

  /** The first receiver waiting at a port owes nothing, awaits nothing and can be taken out. */
  lemma HeadReceiver(s: State, f: set<Pid>, away: Option<CoreId>, q: PortId)
    requires Inv(s, f, away) && s.Q(q).state == ReadyToReceive
    ensures s.Q(q).queue != []
    ensures var target := s.Q(q).queue[0]; var r := s.P(target);
      && target !in f && Inv(PopIpc(s, q), f + {target}, away)
      && r.status == BlockedReceive && r.fault == NoFault && !r.srcWait
      && r.srcTarget.None? && r.dstTarget.None? && !r.dstReady
  {
    assert PortOk(s, q);
    var target := s.Q(q).queue[0];
    assert target in s.Q(q).queue;
    assert PlaceOk(s, f, away, target) && ReplyOk(s, target);
    PopIpcKeeps(s, f, away, q);
  }

  // ---------------------------------------------------------------- send

  /** SEND or CALL finds a receiver and the transfer to it stops half way. */
  predicate DeliveryFails(s: State, owner: Pid, cap: Cap, info: Word, x: Transfer) {
    && cap.writable && s.Q(cap.port).state == ReadyToReceive && s.Q(cap.port).queue != []
    && TransferFails(info, Buffered(s, s.Q(cap.port).queue[0], owner), x)
  }

  lemma SendKeeps(s: State, c: CoreId, owner: Pid, cap: Cap, info: Word, x: Transfer)
    requires Good(s) && s.C(c).current == Some(owner)
    requires !DeliveryFails(s, owner, cap, info, x)
    ensures Good(Send(s, owner, cap, info, x).0)
  {
    var q := cap.port;
    assert PortOk(s, q);
    if cap.writable {
      if s.Q(q).state == ReadyToReceive {
        SendDelivers(s, c, owner, cap, info, x);
      } else if IsBlock(info) {
        var s1 := s.SetP(owner, s.P(owner).(status := BlockedSend, identifier := cap.identifier));
        LeaveOne(s, c, owner);
        Touch(s, {owner}, Some(c), owner, s1.P(owner));
        assert PlaceOf(s1, Some(c), owner) == PlaceOf(s, Some(c), owner);
        BlockKeeps(s1, c, q, ReadyToSend, owner);
      }
    }
  }

  lemma SendDelivers(s: State, c: CoreId, owner: Pid, cap: Cap, info: Word, x: Transfer)
    requires Good(s) && s.C(c).current == Some(owner)
    requires cap.writable && s.Q(cap.port).state == ReadyToReceive && !DeliveryFails(s, owner, cap, info, x)
    ensures Good(Send(s, owner, cap, info, x).0)
  {
    var q := cap.port;
    HeadReceiver(s, {}, None, q);
    Running(s, c, owner);
    var target := s.Q(q).queue[0];
    var f := {target};
    assert {} + {target} == f;
    var s1 := PopIpc(s, q);
    var s2 := s1.SetP(target, s1.P(target).(status := Ready));
    Touch(s1, f, None, target, s2.P(target));
    var s3 := s2.SetP(owner, s2.P(owner).(identifier := cap.identifier));
    OwnFieldsKeep(s2, f, None, owner, s3.P(owner));
    SendAccepted(s3, owner, q, target, info, x);
  }

  lemma SendAccepted(s: State, owner: Pid, q: PortId, target: Pid, info: Word, x: Transfer)
    requires Inv(s, {target}, None) && !TransferFails(info, Buffered(s, target, owner), x) && !s.P(target).srcWait && s.P(target).fault == NoFault
    ensures Good(SendReceiver(s, owner, q, target, info, x).0)
  {
    var regs := Received(s, target, owner, info);
    RegsKeep(s, {target}, None, target, regs);
    RouteKeeps(SetRegs(s, target, regs), {target}, None, s.P(owner).affinity, target);
    assert {target} - {target} == {};
  }

  // ---------------------------------------------------------------- receive

  lemma DeliverPendingKeeps(s: State, f: set<Pid>, away: Option<CoreId>, owner: Pid)
    requires Inv(s, f, away)
    ensures var (t, delivered) := TryDeliverPending(s, owner);
      && Inv(t, f, away)
      && (!delivered ==> t == s && (s.P(owner).boundPort.Some? ==> s.N(s.P(owner).boundPort.value).flag == {}))
      && t.P(owner) == s.P(owner).(regs := t.P(owner).regs)
      && t.cores == s.cores && t.ports == s.ports
  {
    if s.P(owner).boundPort.Some? {
      var n := s.P(owner).boundPort.value;
      assert FlagOk(s, n);
      if Pending(s, n) {
        var s1 := ConsumeBits(s, n, owner);
        TakeBitsKeeps(s, f, away, n, Consumed(s.N(n).flag, owner));
        RegsKeep(s1, f, away, owner, s1.P(owner).regs[MR_MESSAGE_INFO := {14}][MR_IDENTIFIER := s.N(n).flag]);
      }
    }
  }

  /** The accepted caller waits for the reply of the process that runs on `c`. */
  lemma AcceptKeeps(s: State, c: CoreId, sender: Pid, receiver: Pid)
    requires Inv(s, {receiver, sender}, Some(c)) && sender != receiver
    requires s.C(c).current == Some(receiver) && Runnable(s.P(receiver)) && s.P(receiver).affinity == c
    requires s.P(receiver).srcTarget.None? && s.P(receiver).dstTarget.None? && s.P(sender).srcTarget.None?
    ensures var t := Link(s, sender, receiver);
      Good(t.SetP(sender, t.P(sender).(status := BlockedReply)))
  {
    var f := {receiver, sender};
    var t := Link(s, sender, receiver);
    var u := t.SetP(sender, t.P(sender).(status := BlockedReply));
    LinkKeeps(s, f, Some(c), sender, receiver);
    Touch(t, f, Some(c), sender, u.P(sender));
    assert PlaceOk(u, f, Some(c), sender);
    Settle(u, f, Some(c), sender);
    assert f - {sender} == {receiver};
    StayOne(u, c, receiver);
  }

  lemma TakeFaultKeeps(s: State, c: CoreId, sender: Pid, owner: Pid)
    requires Inv(s, {owner, sender}, Some(c)) && sender != owner
    requires s.C(c).current == Some(owner) && Runnable(s.P(owner)) && s.P(owner).affinity == c
    requires s.P(owner).srcTarget.None? && s.P(owner).dstTarget.None? && s.P(sender).srcTarget.None?
    ensures var t := Link(TransferFaultMessage(s, owner, sender).0, sender, owner);
      Good(t.SetP(sender, t.P(sender).(status := BlockedReply)))
  {
    var s1 := TransferFaultMessage(s, owner, sender).0;
    RegsKeep(s, {owner, sender}, Some(c), owner, s1.P(owner).regs);
    assert s1.procs == SetRegs(s, owner, s1.P(owner).regs).procs;
    assert s1 == SetRegs(s, owner, s1.P(owner).regs);
    AcceptKeeps(s1, c, sender, owner);
  }

  lemma TakeSenderKeeps(s: State, c: CoreId, q: PortId, owner: Pid, x: Transfer)
    requires Inv(s, {owner}, Some(c)) && s.C(c).current == Some(owner)
    requires Runnable(s.P(owner)) && s.P(owner).affinity == c
    requires s.P(owner).srcTarget.None? && s.P(owner).dstTarget.None?
    requires s.Q(q).state == ReadyToSend && !ReceiveFails(s, q, owner, x)
    ensures Good(TryReceiveFromReadySender(s, q, owner, x).0)
  {
    assert PortOk(s, q);
    var sender := s.Q(q).queue[0];
    PopIpcKeeps(s, {owner}, Some(c), q);
    assert PlaceOk(s, {owner}, Some(c), sender) && ReplyOk(s, owner) && ReplyOk(s, sender);
    assert {owner} + {sender} == {owner, sender};
    AcceptSenderKeeps(PopIpc(s, q), c, q, owner, sender, x);
  }

  lemma AcceptSenderKeeps(s: State, c: CoreId, q: PortId, owner: Pid, sender: Pid, x: Transfer)
    requires Inv(s, {owner, sender}, Some(c)) && sender != owner && s.C(c).current == Some(owner)
    requires Runnable(s.P(owner)) && s.P(owner).affinity == c
    requires s.P(owner).srcTarget.None? && s.P(owner).dstTarget.None? && !s.P(owner).dstReady && s.P(sender).srcTarget.None?
    requires !AcceptFails(s, owner, sender, x)
    ensures Good(AcceptSender(s, q, owner, sender, x).0)
  {
    if s.P(sender).fault != NoFault {
      TakeFaultKeeps(s, c, sender, owner);
    } else {
      var s1 := TransferMessage(s, q, owner, sender, s.P(sender).regs[MR_MESSAGE_INFO], x).0;
      RegsKeep(s, {owner, sender}, Some(c), owner, s1.P(owner).regs);
      if s1.P(sender).srcWait {
        AcceptKeeps(s1, c, sender, owner);
      } else {
        ReleaseSenderKeeps(s1, c, sender, owner);
      }
    }
  }

  lemma ReleaseSenderKeeps(s: State, c: CoreId, sender: Pid, receiver: Pid)
    requires Inv(s, {receiver, sender}, Some(c)) && sender != receiver
    requires s.C(c).current == Some(receiver) && Runnable(s.P(receiver)) && s.P(receiver).affinity == c
    requires s.P(receiver).dstTarget.None? && !s.P(sender).srcWait && s.P(sender).fault == NoFault
    ensures var t := Forget(s, receiver);
      var u := t.SetP(sender, t.P(sender).(status := Ready));
      Good(RouteMarkScheduled(u, u.P(receiver).affinity, sender))
  {
    var f := {receiver, sender};
    var t := Forget(s, receiver);
    var u := t.SetP(sender, t.P(sender).(status := Ready));
    assert ReplyOk(s, receiver) && ReplyOk(s, sender);
    assert t == s;
    Touch(s, f, Some(c), sender, u.P(sender));
    RouteKeeps(u, f, Some(c), c, sender);
    assert f - {sender} == {receiver};
    StayOne(RouteMarkScheduled(u, c, sender), c, receiver);
  }

  lemma ReceivePartKeeps(s: State, c: CoreId, owner: Pid, q: PortId, info: Word, x: Transfer)
    requires Inv(s, {owner}, Some(c)) && s.C(c).current == Some(owner)
    requires Runnable(s.P(owner)) && s.P(owner).affinity == c
    requires s.P(owner).srcTarget.None? && s.P(owner).dstTarget.None?
    requires !ReceiveFails(s, q, owner, x)
    ensures Good(ReceivePart(s, owner, q, info, x).0)
  {
    assert PortOk(s, q);
    if s.Q(q).state == ReadyToSend {
      TakeSenderKeeps(s, c, q, owner, x);
    } else {
      var (s1, delivered) := TryDeliverPending(s, owner);
      DeliverPendingKeeps(s, {owner}, Some(c), owner);
      if delivered || !IsBlock(info) {
        StayOne(s1, c, owner);
      } else {
        var s2 := s1.SetP(owner, s1.P(owner).(status := BlockedReceive));
        assert PlaceOk(s, {owner}, Some(c), owner);
        Touch(s, {owner}, Some(c), owner, s2.P(owner));
        assert PlaceOf(s2, Some(c), owner) == PlaceOf(s, Some(c), owner);
        BlockKeeps(s2, c, q, ReadyToReceive, owner);
      }
    }
  }

  lemma ReceiveKeeps(s: State, c: CoreId, owner: Pid, cap: Cap, info: Word, x: Transfer)
    requires Good(s) && s.C(c).current == Some(owner)
    requires cap.readable ==> !ReceiveFails(DiscardCaller(s, owner), cap.port, owner, x)
    ensures Good(Receive(s, owner, cap, info, x).0)
  {
    if cap.readable {
      LeaveOne(s, c, owner);
      DiscardKeeps(s, {owner}, Some(c), owner);
      ReceivePartKeeps(DiscardCaller(s, owner), c, owner, cap.port, info, x);
    }
  }

  // ---------------------------------------------------------------- call

  lemma CallKeeps(s: State, c: CoreId, owner: Pid, cap: Cap, info: Word, x: Transfer)
    requires Good(s) && s.C(c).current == Some(owner)
    requires !DeliveryFails(s, owner, cap, info, x)
    ensures Good(Call(s, owner, cap, info, x).0)
    ensures cap.writable && s.Q(cap.port).state == ReadyToReceive ==>
      s.Q(cap.port).queue != [] && Call(s, owner, cap, info, x).0.P(owner).srcTarget == Some(s.Q(cap.port).queue[0])
  {
    var q := cap.port;
    assert PortOk(s, q);
    if cap.writable {
      if s.Q(q).state == ReadyToReceive {
        CallDelivers(s, c, owner, cap, info, x);
      } else if IsBlock(info) {
        LeaveOne(s, c, owner);
        var (s1, delivered) := TryDeliverPending(s, owner);
        DeliverPendingKeeps(s, {owner}, Some(c), owner);
        if delivered {
          StayOne(s1, c, owner);
        } else {
          var s2 := s1.SetP(owner, s1.P(owner).(status := BlockedSend, srcWait := true, identifier := cap.identifier));
          Touch(s, {owner}, Some(c), owner, s2.P(owner));
          assert PlaceOf(s2, Some(c), owner) == PlaceOf(s, Some(c), owner).(srcWait := true);
          BlockKeeps(s2, c, q, ReadyToSend, owner);
        }
      }
    }
  }

  lemma CallDelivers(s: State, c: CoreId, owner: Pid, cap: Cap, info: Word, x: Transfer)
    requires Good(s) && s.C(c).current == Some(owner)
    requires cap.writable && s.Q(cap.port).state == ReadyToReceive && !DeliveryFails(s, owner, cap, info, x)
    ensures Good(Call(s, owner, cap, info, x).0)
    ensures s.Q(cap.port).queue != [] && Call(s, owner, cap, info, x).0.P(owner).srcTarget == Some(s.Q(cap.port).queue[0])
  {
    var q := cap.port;
    LeaveOne(s, c, owner);
    HeadReceiver(s, {owner}, Some(c), q);
    var target := s.Q(q).queue[0];
    var f := {owner} + {target};
    var s1 := PopIpc(s, q);
    var s2 := s1.SetP(owner, s1.P(owner).(identifier := cap.identifier));
    OwnFieldsKeep(s1, f, Some(c), owner, s2.P(owner));
    CallAccepted(s2, c, q, owner, target, info, x);
  }

  /** The caller waits for the receiver's reply and the receiver runs. */
  lemma CallAccepted(s: State, c: CoreId, q: PortId, owner: Pid, target: Pid, info: Word, x: Transfer)
    requires owner != target && Inv(s, {owner} + {target}, Some(c)) && !TransferFails(info, Buffered(s, target, owner), x)
    requires s.P(owner).srcTarget.None? && s.P(target).srcTarget.None? && s.P(target).dstTarget.None?
    requires s.P(owner).affinity == c && !s.P(target).srcWait && s.P(target).fault == NoFault
    requires !s.P(target).dstReady
    ensures Good(CallReceiver(s, owner, q, target, info, x).0)
    ensures CallReceiver(s, owner, q, target, info, x).0.P(owner).srcTarget == Some(target)
  {
    var f := {owner} + {target};
    var s3 := Link(s, owner, target);
    LinkKeeps(s, f, Some(c), owner, target);
    var s4 := s3.SetP(owner, s3.P(owner).(status := BlockedReply));
    Touch(s3, f, Some(c), owner, s4.P(owner));
    assert PlaceOk(s4, f, Some(c), owner);
    Settle(s4, f, Some(c), owner);
    assert f - {owner} == {target};
    var s5 := TransferMessage(s4, q, target, owner, info, x).0;
    RegsKeep(s4, {target}, Some(c), target, s5.P(target).regs);
    var s6 := s5.SetP(target, s5.P(target).(status := Ready));
    Touch(s5, {target}, Some(c), target, s6.P(target));
    CallHandsOverCore(s6, c, owner, target);
  }

  lemma CallHandsOverCore(s: State, c: CoreId, owner: Pid, target: Pid)
    requires Inv(s, {target}, Some(c)) && Runnable(s.P(target))
    ensures var t := TryDirectScheduleAndSwitch(s, c, target);
      Good(t) && t.P(owner).srcTarget == s.P(owner).srcTarget
  {
    DirectKeeps(s, {target}, c, target);
    assert {target} - {target} == {};
    assert SameUpToTurn(TryDirectScheduleAndSwitch(s, c, target).P(owner), s.P(owner));
  }

  // ---------------------------------------------------------------- reply

  /** Both ends of the reply link go and the client is in transit, ready to run. */
  lemma SettleDebt(s: State, f: set<Pid>, away: Option<CoreId>, owner: Pid, client: Pid)
    requires Inv(s, f, away) && owner in f && client !in f && s.P(owner).dstTarget == Some(client)
    ensures
      var r := s.P(client).(status := Ready, srcWait := false, srcTarget := None, fault := NoFault);
      Inv(Forget(s.SetP(client, r), owner), f + {client}, away)
  {
    assert ReplyOk(s, owner);
    Awaiting(s, f, away, client);
    Lift(s, f, away, client);
    CancelKeeps(s, f + {client}, away, client);
    var t := CancelReply(s, client);
    var r := s.P(client).(status := Ready, srcWait := false, srcTarget := None, fault := NoFault);
    Touch(t, f + {client}, away, client, r);
    assert Forget(s.SetP(client, r), owner).procs == t.SetP(client, r).procs;
  }

  /** A reply concerns only the two processes and the scheduling state of one core. */
  lemma FaultReplyFrame(s: State, owner: Pid, client: Pid)
    requires owner != client
    ensures var t := CompleteFaultReply(s, owner, client);
      && t.ports == s.ports && t.ntfs == s.ntfs
      && (forall c: CoreId :: t.C(c).current == s.C(c).current)
      && (forall p: Pid :: p != owner && p != client ==> t.P(p) == s.P(p))
      && t.P(owner) == s.P(owner).(dstReady := false, dstTarget := None)
      && t.P(client).regs == s.P(client).regs
  {
    var r := s.P(client).(status := Ready, srcWait := false, srcTarget := None, fault := NoFault);
    RouteFrame(Forget(s.SetP(client, r), owner), s.P(owner).affinity, client);
  }

  lemma ReplyFrame(s: State, owner: Pid, info: Word, x: Transfer, enqueue: bool)
    requires s.P(owner).dstTarget != Some(owner) && (s.P(owner).dstReady <==> s.P(owner).dstTarget.Some?)
    ensures var (t, res) := CompleteReply(s, owner, info, x, enqueue);
      && t.ports == s.ports && t.ntfs == s.ntfs
      && (forall c: CoreId :: t.C(c).current == s.C(c).current)
      && (forall p: Pid :: p != owner && s.P(owner).dstTarget != Some(p) ==> t.P(p) == s.P(p))
      && t.P(owner) == if res.Ok? then s.P(owner).(dstReady := false, dstTarget := None) else s.P(owner)
  {
    if s.P(owner).dstReady {
      var client := s.P(owner).dstTarget.value;
      if s.P(client).fault != NoFault {
        FaultReplyFrame(SetRegs(s, client, ReplyRegisters(s, owner, client, info)), owner, client);
      } else {
        var s1 := TransferDirectMessage(s, client, owner, info, x).0;
        var r := s1.P(client).(status := Ready, srcWait := false, srcTarget := None);
        RouteFrame(Forget(s1.SetP(client, r), owner), s.P(owner).affinity, client);
      }
    } else {
      assert s.P(owner) == s.P(owner).(dstReady := false, dstTarget := None);
    }
  }

  lemma CompleteReplyKeeps(s: State, f: set<Pid>, away: Option<CoreId>, owner: Pid, info: Word, x: Transfer)
    requires Inv(s, f, away) && f == {owner} && s.P(owner).srcTarget.None?
    ensures Inv(CompleteReply(s, owner, info, x, true).0, f, away)
    ensures s.P(owner).dstTarget != Some(owner) && (s.P(owner).dstReady <==> s.P(owner).dstTarget.Some?)
  {
    assert ReplyOk(s, owner);
    if s.P(owner).dstReady {
      var client := s.P(owner).dstTarget.value;
      Awaiting(s, f, away, client);
      if s.P(client).fault != NoFault {
        var s1 := SetRegs(s, client, ReplyRegisters(s, owner, client, info));
        RegsKeep(s, f, away, client, s1.P(client).regs);
        if ReplyContext(s.P(client).fault, info, s.P(owner).hasBuffer).Ok? {
          ReplyFaultKeeps(s1, f, away, owner, client);
        }
      } else {
        ReplyEnqueuesKeeps(s, f, away, owner, client, info, x);
      }
    }
  }

  lemma ReplyEnqueuesKeeps(s: State, f: set<Pid>, away: Option<CoreId>, owner: Pid, client: Pid, info: Word, x: Transfer)
    requires Inv(s, f, away) && f == {owner} && s.P(owner).srcTarget.None?
    requires s.P(owner).dstTarget == Some(client) && s.P(owner).dstReady && s.P(client).fault == NoFault
    ensures Inv(CompleteReply(s, owner, info, x, true).0, f, away)
  {
    ReplyMessageKeeps(s, f, away, owner, client, info, x);
    if !TransferFails(info, Buffered(s, client, owner), x) {
      var s3 := CompleteReply(s, owner, info, x, false).0;
      RouteKeeps(s3, f + {client}, away, s3.P(owner).affinity, client);
      assert f + {client} - {client} == f;
    }
  }

  /** A faulted client goes on where it was stopped. */
  lemma ReplyFaultKeeps(s: State, f: set<Pid>, away: Option<CoreId>, owner: Pid, client: Pid)
    requires Inv(s, f, away) && f == {owner} && s.P(owner).srcTarget.None?
    requires s.P(owner).dstTarget == Some(client) && s.P(client).fault != NoFault
    ensures Inv(CompleteFaultReply(s, owner, client), f, away)
  {
    assert ReplyOk(s, owner);
    Awaiting(s, f, away, client);
    SettleDebt(s, f, away, owner, client);
    var r := s.P(client).(status := Ready, srcWait := false, srcTarget := None, fault := NoFault);
    RouteKeeps(Forget(s.SetP(client, r), owner), f + {client}, away, s.P(owner).affinity, client);
    assert f + {client} - {client} == f;
  }

  /** A reply with a message leaves the client in transit when it is not enqueued. */
  lemma ReplyMessageKeeps(s: State, f: set<Pid>, away: Option<CoreId>, owner: Pid, client: Pid, info: Word, x: Transfer)
    requires Inv(s, f, away) && f == {owner} && s.P(owner).srcTarget.None?
    requires s.P(owner).dstTarget == Some(client) && s.P(client).fault == NoFault
    ensures var (t, res) := CompleteReply(s, owner, info, x, false);
      && Inv(t, if TransferFails(info, Buffered(s, client, owner), x) then f else f + {client}, away)
      && res == TransferOutcome(info, Buffered(s, client, owner), x) && client != owner
      && (res.Ok? ==> Runnable(t.P(client)) && t.P(client).affinity == s.P(client).affinity)
  {
    assert ReplyOk(s, owner);
    Awaiting(s, f, away, client);
    var s1 := TransferDirectMessage(s, client, owner, info, x).0;
    RegsKeep(s, f, away, client, s1.P(client).regs);
    if !TransferFails(info, Buffered(s, client, owner), x) {
      SettleDebt(s1, f, away, owner, client);
      var r := s1.P(client).(status := Ready, srcWait := false, srcTarget := None);
      assert r == r.(fault := NoFault);
    }
  }

  lemma ReplyKeeps(s: State, c: CoreId, owner: Pid, info: Word, x: Transfer)
    requires Good(s) && s.C(c).current == Some(owner)
    ensures Good(Reply(s, owner, info, x).0)
  {
    LeaveOne(s, c, owner);
    CompleteReplyKeeps(s, {owner}, Some(c), owner, info, x);
    ReplyFrame(s, owner, info, x, true);
    var (s1, res) := CompleteReply(s, owner, info, x, true);
    if s.P(owner).dstReady {
      if res.Err? {
        StayOne(s1, c, owner);
      } else {
        var s2 := s1.SetP(owner, s1.P(owner).(status := Ready));
        Touch(s1, {owner}, Some(c), owner, s2.P(owner));
        DirectKeeps(s2, {owner}, c, owner);
        assert {owner} - {owner} == {};
      }
    }
  }

  // ---------------------------------------------------------------- reply and receive

  lemma ReplyReceiveFastKeeps(s: State, c: CoreId, owner: Pid, q: PortId, info: Word, x: Transfer)
    requires Good(s) && s.C(c).current == Some(owner) && FastReply(s, owner, q, info)
    ensures Good(ReplyReceiveFast(s, owner, q, info, x).0)
  {
    assert ReplyOk(s, owner) && PortOk(s, q);
    LeaveOne(s, c, owner);
    var client := s.P(owner).dstTarget.value;
    ReplyMessageKeeps(s, {owner}, Some(c), owner, client, info, x);
    ReplyFrame(s, owner, info, x, false);
    var (s1, res) := CompleteReply(s, owner, info, x, false);
    if res.Err? {
      StayOne(s1, c, owner);
    } else {
      HandOver(s1, c, owner, q, client);
    }
  }

  /** The server blocks in RECEIVE and the core goes to the client or someone more urgent. */
  lemma HandOver(s: State, c: CoreId, owner: Pid, q: PortId, client: Pid)
    requires Inv(s, {owner} + {client}, Some(c)) && owner != client && s.Q(q).state != ReadyToSend
    requires Runnable(s.P(owner)) && s.P(owner).affinity == c && s.P(owner).dstTarget.None?
    requires !(s.P(owner).boundPort.Some? && Pending(s, s.P(owner).boundPort.value))
    requires Runnable(s.P(client)) && s.P(client).affinity == c
    ensures var s2 := s.SetP(owner, s.P(owner).(status := BlockedReceive));
      var s3 := PushIpc(s2, q, ReadyToReceive, owner);
      && Good(TryDirectScheduleAndSwitch(s3, c, client))
      && s3.P(owner).affinity == c
  {
    var f := {owner} + {client};
    var s2 := s.SetP(owner, s.P(owner).(status := BlockedReceive));
    assert PlaceOk(s, f, Some(c), owner) && PlaceOk(s, f, Some(c), client);
    assert s.P(owner).boundPort.Some? ==> FlagOk(s, s.P(owner).boundPort.value);
    Touch(s, f, Some(c), owner, s2.P(owner));
    assert PlaceOf(s2, Some(c), owner) == PlaceOf(s, Some(c), owner);
    PushIpcKeeps(s2, f, Some(c), q, ReadyToReceive, owner);
    assert f - {owner} == {client};
    DirectKeeps(PushIpc(s2, q, ReadyToReceive, owner), {client}, c, client);
    assert {client} - {client} == {};
  }

  lemma ReplyReceiveKeeps(s: State, c: CoreId, owner: Pid, cap: Cap, info: Word, x: Transfer, y: Transfer)
    requires Good(s) && s.C(c).current == Some(owner)
    requires cap.readable && CompleteReply(s, owner, info, x, true).1.Ok? ==> !ReceiveFails(s, cap.port, owner, y)
    ensures Good(ReplyReceive(s, owner, cap, info, x, y).0)
  {
    if cap.readable {
      if FastReply(s, owner, cap.port, info) {
        ReplyReceiveFastKeeps(s, c, owner, cap.port, info, x);
      } else {
        ReplyReceiveSlowKeeps(s, c, owner, cap.port, info, x, y);
      }
    }
  }

  lemma ReplyReceiveSlowKeeps(s: State, c: CoreId, owner: Pid, q: PortId, info: Word, x: Transfer, y: Transfer)
    requires Good(s) && s.C(c).current == Some(owner)
    requires CompleteReply(s, owner, info, x, true).1.Ok? ==> !ReceiveFails(s, q, owner, y)
    ensures Good(ReplyReceiveSlow(s, owner, q, info, x, y).0)
  {
    LeaveOne(s, c, owner);
    CompleteReplyKeeps(s, {owner}, Some(c), owner, info, x);
    ReplyFrame(s, owner, info, x, true);
    var (s1, res) := CompleteReply(s, owner, info, x, true);
    if res.Err? {
      StayOne(s1, c, owner);
    } else {
      SendersUntouched(s, c, owner, q, info, x, y);
      ReceivePartKeeps(s1, c, owner, q, info, y);
    }
  }

  /** A reply changes nothing about the process at the head of a port queue. */
  lemma SendersUntouched(s: State, c: CoreId, owner: Pid, q: PortId, info: Word, x: Transfer, y: Transfer)
    requires Good(s) && s.C(c).current == Some(owner)
    ensures ReceiveFails(CompleteReply(s, owner, info, x, true).0, q, owner, y) == ReceiveFails(s, q, owner, y)
  {
    Running(s, c, owner);
    assert ReplyOk(s, owner) && PortOk(s, q);
    if s.P(owner).dstReady {
      Awaiting(s, {}, None, s.P(owner).dstTarget.value);
    }
    ReplyFrame(s, owner, info, x, true);
    if s.Q(q).queue != [] {
      assert s.Q(q).queue[0] in s.Q(q).queue;
    }
  }

  // ---------------------------------------------------------------- faults

  /** The resolver port is there and its rights suffice, but the message cannot be delivered. */
  predicate FaultLost(s: State, p: Pid, fault: Fault) {
    && s.P(p).resolver.Some? && s.P(p).resolver.value.readable && s.P(p).resolver.value.writable
    && var port := s.Q(s.P(p).resolver.value.port);
      port.state == ReadyToReceive && port.queue != [] && FaultTransferFails(fault, s.P(port.queue[0]).hasBuffer)
  }

  lemma HandleFaultKeeps(s: State, c: CoreId, fault: Fault)
    requires Good(s) && fault != NoFault
    requires s.C(c).current.Some? ==> !FaultLost(s, s.C(c).current.value, fault)
    ensures Good(HandleFault(s, c, fault))
    ensures s.C(c).current.Some? ==>
      HandleFault(s, c, fault).P(s.C(c).current.value).status in {BlockedFault, BlockedSuspend}
  {
    if s.C(c).current.Some? {
      var p := s.C(c).current.value;
      LeaveOne(s, c, p);
      var s1 := s.SetP(p, s.P(p).(fault := fault));
      Touch(s, {p}, Some(c), p, s1.P(p));
      assert PlaceOf(s1, Some(c), p) == PlaceOf(s, Some(c), p).(faulted := true);
      if s1.P(p).resolver.None? {
        ParkKeeps(s1, c, p);
      } else {
        var cap := s1.P(p).resolver.value;
        if !cap.writable || !cap.readable {
          UnusableResolver(s1, c, p);
        } else if s.Q(cap.port).state == ReadyToReceive {
          FaultDelivers(s1, c, p, cap);
        } else {
          FaultWaits(s1, c, p, cap);
        }
      }
    }
  }

  /** Without the rights to its resolver port the faulted process is suspended. */
  lemma UnusableResolver(s: State, c: CoreId, p: Pid)
    requires Inv(s, {p}, Some(c)) && s.P(p).affinity == c && s.P(p).srcTarget.None? && !s.P(p).srcWait && s.P(p).fault != NoFault
    ensures var t := s.SetP(p, s.P(p).(status := BlockedFault));
      var u := TryScheduleAndSwitch(t.SetP(p, t.P(p).(status := BlockedSuspend)), c);
      Good(u) && u.P(p).status == BlockedSuspend
  {
    var t := s.SetP(p, s.P(p).(status := BlockedFault));
    Touch(s, {p}, Some(c), p, t.P(p));
    ParkKeeps(t, c, p);
  }

  /** Without a receiver the faulted process waits at the resolver port. */
  lemma FaultWaits(s: State, c: CoreId, p: Pid, cap: Resolver)
    requires Inv(s, {p}, Some(c)) && s.P(p).affinity == c && s.P(p).srcTarget.None? && s.P(p).fault != NoFault
    requires cap.writable && cap.readable && s.Q(cap.port).state != ReadyToReceive
    ensures FaultCall(s, p, cap).1.Ok? && Good(FaultCall(s, p, cap).0) && FaultCall(s, p, cap).0.P(p).status == BlockedFault
  {
    assert PortOk(s, cap.port) && PlaceOk(s, {p}, Some(c), p);
    var s1 := s.SetP(p, s.P(p).(status := BlockedFault, srcWait := true, identifier := cap.identifier));
    Touch(s, {p}, Some(c), p, s1.P(p));
    assert PlaceOf(s1, Some(c), p) == PlaceOf(s, Some(c), p).(srcWait := true);
    BlockKeeps(s1, c, cap.port, ReadyToSend, p);
    StatusAfter(PushIpc(s1, cap.port, ReadyToSend, p), c, p);
  }

  lemma StatusAfter(s: State, c: CoreId, p: Pid)
    ensures TryScheduleAndSwitch(s, c).P(p).status == s.P(p).status
  {
    DispatchLeaves(s, c);
    assert SameUpToTurn(TryScheduleAndSwitch(s, c).P(p), s.P(p));
  }

  lemma ParkKeeps(s: State, c: CoreId, p: Pid)
    requires Inv(s, {p}, Some(c)) && !s.P(p).srcWait
    ensures var t := TryScheduleAndSwitch(s.SetP(p, s.P(p).(status := BlockedSuspend)), c);
      Good(t) && t.P(p).status == BlockedSuspend
  {
    var t := s.SetP(p, s.P(p).(status := BlockedSuspend));
    StatusAfter(t, c, p);
    assert PlaceOk(s, {p}, Some(c), p) && ReplyOk(s, p);
    Touch(s, {p}, Some(c), p, t.P(p));
    assert PlaceOk(t, {p}, Some(c), p);
    Settle(t, {p}, Some(c), p);
    assert {p} - {p} == {};
    SwitchAwayKeeps(t, {}, c);
  }

  lemma FaultDelivers(s: State, c: CoreId, p: Pid, cap: Resolver)
    requires Inv(s, {p}, Some(c)) && s.P(p).affinity == c && s.P(p).srcTarget.None?
    requires cap.writable && cap.readable && s.Q(cap.port).state == ReadyToReceive
    requires s.Q(cap.port).queue != [] ==> !FaultTransferFails(s.P(p).fault, s.P(s.Q(cap.port).queue[0]).hasBuffer)
    ensures FaultCall(s, p, cap).1.Ok? && Good(FaultCall(s, p, cap).0) && FaultCall(s, p, cap).0.P(p).status == BlockedFault
  {
    var q := cap.port;
    HeadReceiver(s, {p}, Some(c), q);
    var target := s.Q(q).queue[0];
    var f := {p} + {target};
    var s1 := PopIpc(s, q);
    var s2 := s1.SetP(p, s1.P(p).(identifier := cap.identifier, status := BlockedFault));
    Touch(s1, f, Some(c), p, s2.P(p));
    FaultAccepted(s2, c, p, q, target);
  }

  lemma FaultAccepted(s: State, c: CoreId, p: Pid, q: PortId, target: Pid)
    requires p != target && Inv(s, {p} + {target}, Some(c)) && s.P(p).status == BlockedFault
    requires s.P(p).srcTarget.None? && s.P(target).srcTarget.None? && s.P(target).dstTarget.None?
    requires s.P(p).affinity == c && !s.P(target).srcWait && s.P(target).fault == NoFault
    requires !FaultTransferFails(s.P(p).fault, s.P(target).hasBuffer)
    requires !s.P(target).dstReady
    ensures FaultReceiver(s, p, q, target).1.Ok? && Good(FaultReceiver(s, p, q, target).0)
    ensures FaultReceiver(s, p, q, target).0.P(p).status == BlockedFault
  {
    var f := {p} + {target};
    var s3 := Link(s, p, target);
    LinkKeeps(s, f, Some(c), p, target);
    assert PlaceOk(s3, f, Some(c), p);
    Settle(s3, f, Some(c), p);
    assert f - {p} == {target};
    var s4 := TransferFaultMessage(s3, target, p).0;
    RegsKeep(s3, {target}, Some(c), target, s4.P(target).regs);
    var s5 := s4.SetP(target, s4.P(target).(status := Ready));
    Touch(s4, {target}, Some(c), target, s5.P(target));
    DirectKeeps(s5, {target}, c, target);
    assert SameUpToTurn(TryDirectScheduleAndSwitch(s5, c, target).P(p), s5.P(p));
    assert {target} - {target} == {};
  }

  // ---------------------------------------------------------------- revoke

  lemma {:induction false} DrainKeeps(s: State, q: PortId)
    requires Good(s)
    ensures Good(DrainPort(s, q)) && DrainPort(s, q).Q(q).queue == []
    decreases |s.Q(q).queue|
  {
    if s.Q(q).queue != [] {
      var p := s.Q(q).queue[0];
      assert p in s.Q(q).queue && PortOk(s, q) && PlaceOk(s, {}, None, p) && ReplyOk(s, p);
      PopIpcKeeps(s, {}, None, q);
      var f := {} + {p};
      var s1 := PopIpc(s, q);
      var s2 := s1.SetP(p, s1.P(p).(srcWait := false, srcTarget := None));
      Touch(s1, f, None, p, s2.P(p));
      CompleteRevokedKeeps(s2, f, None, p);
      assert f - {p} == {};
      DrainKeeps(CompleteRevokedWait(s2, p), q);
    }
  }

  lemma RevokePortKeeps(s: State, q: PortId)
    requires Good(s)
    ensures Good(RevokePort(s, q)) && RevokePort(s, q).Q(q) == Port(Wait, [])
  {
    DrainKeeps(s, q);
    var t := DrainPort(s, q);
    assert PortOk(t, q);
    assert RevokePort(s, q) == t;
  }
}
