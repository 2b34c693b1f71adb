/**
 Who speaks as the kernel. The source field of a message says whether it comes from a process, a fault
 or a notification port, and the receiver relies on it. Whatever entries happen, a word with a kernel
 source reaches a process only because a process faulted to it or because it took notified bits,
 unless somebody rewrote the registers of a sender that was already queued.
 */
module MessageSources {
  import opened Common
  import opened KernelState
  import opened KernelPrimitives
  import opened ProcessManager
  import opened IpcPort
  import opened IpcInvariant
  import opened NotificationPort
  import opened ProcessControl
  import opened KernelRun
  import B = BitDelivery
  import R = ReplyIntegrity

  // ---------------------------------------------------------------- where a word may come from

  /** `o` has faulted, awaits the answer of `p`, and `p` has been told so. */
  ghost predicate FaultsTo(t: State, o: Pid, p: Pid) {
    t.P(o).fault != NoFault && t.P(o).srcTarget == Some(p) && Info(t, p) == FaultInfo(t.P(o).fault)
  }

  /** Event `i` of port `n` is new, and it gave `p` the bits that it now has as a message or as a flag word. */
  ghost predicate Took(s: State, t: State, n: NtfId, i: nat, p: Pid) {
    && |s.N(n).history| <= i < |t.N(n).history| && t.N(n).history[i].Consumed? && t.N(n).history[i].taker == p
    && (Info(t, p) == t.N(n).history[i].bits
        || (Info(t, p) == {14} && t.P(p).regs[MR_IDENTIFIER] == t.N(n).history[i].bits))
  }

  ghost predicate FromKernel(s: State, t: State, p: Pid) {
    (exists o: Pid :: FaultsTo(t, o, p)) || (exists n: NtfId, i: nat :: Took(s, t, n, i, p))
  }

  /** The word is as before or that of a process, and so is that of everybody who waits to send it. */
  ghost predicate Plainly(s: State, t: State, p: Pid) {
    if t.P(p).status == BlockedSend then Normal(Info(t, p)) || (s.P(p).status == BlockedSend && Info(t, p) == Info(s, p))
    else Info(t, p) == Info(s, p) || Normal(Info(t, p))
  }

  ghost predicate Genuine(s: State, t: State, p: Pid) {
    Plainly(s, t, p) || (t.P(p).status != BlockedSend && FromKernel(s, t, p))
  }

  lemma TurnsPlain(s: State, t: State, p: Pid)
    requires OnlyTurns(s, t)
    ensures Plainly(s, t, p)
  {
    assert SameUpToTurn(t.P(p), s.P(p));
  }

  lemma PlainTwice(s: State, t: State, u: State, p: Pid)
    requires Plainly(s, t, p) && Plainly(t, u, p)
    ensures Plainly(s, u, p)
  {
  }

  lemma PlainThen(s: State, t: State, u: State, p: Pid)
    requires Plainly(s, t, p) && B.SameLog(s, t) && Genuine(t, u, p)
    ensures Genuine(s, u, p)
  {
    if !Plainly(t, u, p) {
      if !exists o: Pid :: FaultsTo(u, o, p) {
        var n: NtfId, i: nat :| Took(t, u, n, i, p);
        assert t.N(n).history == s.N(n).history;
        assert Took(s, u, n, i, p);
      }
    }
  }

  lemma ThenTurns(s: State, t: State, u: State, p: Pid)
    requires Genuine(s, t, p) && OnlyTurns(t, u)
    ensures Genuine(s, u, p)
  {
    assert SameUpToTurn(u.P(p), t.P(p));
    if !Plainly(s, t, p) {
      if o: Pid :| FaultsTo(t, o, p) {
        assert SameUpToTurn(u.P(o), t.P(o));
        assert FaultsTo(u, o, p);
      } else {
        var n: NtfId, i: nat :| Took(s, t, n, i, p);
        assert Took(s, u, n, i, p);
      }
    }
  }

  /** The result registers of a call are others. */
  lemma ThenFinish(s: State, t: State, owner: Pid, res: Outcome, p: Pid)
    requires Genuine(s, t, p)
    ensures Genuine(s, Finish(t, owner, res), p)
  {
    var u := Finish(t, owner, res);
    if !Plainly(s, t, p) {
      if o: Pid :| FaultsTo(t, o, p) {
        assert FaultsTo(u, o, p);
      } else {
        var n: NtfId, i: nat :| Took(s, t, n, i, p);
        assert Took(s, u, n, i, p);
      }
    }
  }

  // ---------------------------------------------------------------- messages of processes

  lemma BlockPlain(s: State, q: PortId, st: PortState, owner: Pid, p: Pid)
    ensures Plainly(s, Block(s, q, st, owner), p)
  {
    var s1 := PushIpc(s, q, st, owner);
    DispatchLeaves(s1, s.P(owner).affinity);
    TurnsPlain(s1, Block(s, q, st, owner), p);
  }

  lemma SendPlain(s: State, owner: Pid, cap: Cap, info: Word, x: Transfer, p: Pid)
    requires Normal(info) && Info(s, owner) == info
    ensures Plainly(s, Send(s, owner, cap, info, x).0, p)
  {
    var q := cap.port;
    if cap.writable {
      if s.Q(q).state == ReadyToReceive {
        if s.Q(q).queue != [] {
          var target := s.Q(q).queue[0];
          var s1 := PopIpc(s, q);
          var s2 := s1.SetP(target, s1.P(target).(status := Ready));
          var s3 := s2.SetP(owner, s2.P(owner).(identifier := cap.identifier));
          assert Plainly(s, s3, p);
          SendReceiverPlain(s3, owner, q, target, info, x, p);
        }
      } else if IsBlock(info) {
        var s1 := s.SetP(owner, s.P(owner).(status := BlockedSend, identifier := cap.identifier));
        assert Plainly(s, s1, p);
        BlockPlain(s1, q, ReadyToSend, owner, p);
      }
    }
  }

  lemma TransferPlain(s: State, q: PortId, receiver: Pid, sender: Pid, info: Word, x: Transfer, p: Pid)
    requires Normal(info)
    ensures Plainly(s, TransferMessage(s, q, receiver, sender, info, x).0, p)
    ensures Plainly(s, TransferDirectMessage(s, receiver, sender, info, x).0, p)
  {
  }

  lemma SendReceiverPlain(s: State, owner: Pid, q: PortId, target: Pid, info: Word, x: Transfer, p: Pid)
    requires Normal(info)
    ensures Plainly(s, SendReceiver(s, owner, q, target, info, x).0, p)
  {
    var s1 := TransferMessage(s, q, target, owner, info, x).0;
    TransferPlain(s, q, target, owner, info, x, p);
    RouteLeaves(s1, s1.P(owner).affinity, target);
    TurnsPlain(MadeReady(s1, target), RouteMarkScheduled(s1, s1.P(owner).affinity, target), p);
  }

  lemma CallReceiverPlain(s: State, owner: Pid, q: PortId, target: Pid, info: Word, x: Transfer, p: Pid)
    requires Normal(info)
    ensures Plainly(s, CallReceiver(s, owner, q, target, info, x).0, p)
  {
    if !s.P(target).dstReady {
      var s1 := Link(s, owner, target);
      var s2 := s1.SetP(owner, s1.P(owner).(status := BlockedReply));
      assert Plainly(s, s2, p);
      TransferPlain(s2, q, target, owner, info, x, p);
      var s3 := TransferMessage(s2, q, target, owner, info, x).0;
      var s4 := s3.SetP(target, s3.P(target).(status := Ready));
      DirectLeaves(s4, s4.P(owner).affinity, target);
      TurnsPlain(s4, TryDirectScheduleAndSwitch(s4, s4.P(owner).affinity, target), p);
    }
  }

  /** Pending bits of the bound port arrive as a message of that port. */
  lemma DeliverGenuine(s: State, owner: Pid, p: Pid)
    requires s.P(owner).status == Ready
    ensures var (t, delivered) := TryDeliverPending(s, owner);
      Genuine(s, t, p) && (!delivered ==> t == s)
  {
    var (t, delivered) := TryDeliverPending(s, owner);
    if delivered && p == owner {
      assert Took(s, t, s.P(owner).boundPort.value, |s.N(s.P(owner).boundPort.value).history|, p);
    }
  }

  lemma CallGenuine(s: State, owner: Pid, cap: Cap, info: Word, x: Transfer, p: Pid)
    requires Normal(info) && Info(s, owner) == info && s.P(owner).status == Ready
    ensures Genuine(s, Call(s, owner, cap, info, x).0, p)
  {
    var q := cap.port;
    DeliverGenuine(s, owner, p);
    if cap.writable {
      if s.Q(q).state == ReadyToReceive {
        if s.Q(q).queue != [] {
          var s1 := PopIpc(s, q);
          var s2 := s1.SetP(owner, s1.P(owner).(identifier := cap.identifier));
          assert Plainly(s, s2, p);
          CallReceiverPlain(s2, owner, q, s.Q(q).queue[0], info, x, p);
        }
      } else if IsBlock(info) && !TryDeliverPending(s, owner).1 {
        var s1 := s.SetP(owner, s.P(owner).(status := BlockedSend, srcWait := true, identifier := cap.identifier));
        assert Plainly(s, s1, p);
        BlockPlain(s1, q, ReadyToSend, owner, p);
      }
    }
  }

  // ---------------------------------------------------------------- taking a queued sender

  /** The first waiting sender is not the receiver, and sends the word of a process unless it has faulted. */
  ghost predicate HeadIsPlain(s: State, q: PortId, receiver: Pid) {
    s.Q(q).state == ReadyToSend && s.Q(q).queue != [] ==>
      var sender := s.Q(q).queue[0]; sender != receiver && (s.P(sender).fault == NoFault ==> Normal(Info(s, sender)))
  }

  lemma AcceptGenuine(s: State, q: PortId, receiver: Pid, sender: Pid, x: Transfer, p: Pid)
    requires receiver != sender && s.P(receiver).status == Ready && !AcceptFails(s, receiver, sender, x)
    requires s.P(sender).fault == NoFault ==> Normal(Info(s, sender))
    ensures Genuine(s, AcceptSender(s, q, receiver, sender, x).0, p)
  {
    var t := AcceptSender(s, q, receiver, sender, x).0;
    if !s.P(receiver).dstReady {
      if s.P(sender).fault != NoFault {
        if p == receiver { assert FaultsTo(t, sender, p); }
      } else {
        AcceptMessagePlain(s, q, receiver, sender, x, p);
      }
    }
  }

  lemma AcceptMessagePlain(s: State, q: PortId, receiver: Pid, sender: Pid, x: Transfer, p: Pid)
    requires receiver != sender && !s.P(receiver).dstReady && s.P(sender).fault == NoFault && Normal(Info(s, sender))
    ensures Plainly(s, AcceptSender(s, q, receiver, sender, x).0, p)
  {
    var s1 := TransferMessage(s, q, receiver, sender, Info(s, sender), x).0;
    TransferPlain(s, q, receiver, sender, Info(s, sender), x, p);
    SenderPlain(s1, receiver, sender, p);
    assert Plainly(s1, AcceptSender(s, q, receiver, sender, x).0, p);
  }

  /** The sender goes on waiting for the answer, or goes on. */
  lemma SenderPlain(s: State, receiver: Pid, sender: Pid, p: Pid)
    ensures var t := Link(s, sender, receiver); Plainly(s, t.SetP(sender, t.P(sender).(status := BlockedReply)), p)
    ensures var t := Forget(s, receiver);
      var u := t.SetP(sender, t.P(sender).(status := Ready));
      Plainly(s, RouteMarkScheduled(u, u.P(receiver).affinity, sender), p)
  {
    var t := Forget(s, receiver);
    var u := t.SetP(sender, t.P(sender).(status := Ready));
    assert Plainly(s, u, p);
    RouteLeaves(u, u.P(receiver).affinity, sender);
    TurnsPlain(MadeReady(u, sender), RouteMarkScheduled(u, u.P(receiver).affinity, sender), p);
  }

  lemma ReceivePartGenuine(s: State, owner: Pid, q: PortId, info: Word, x: Transfer, p: Pid)
    requires s.P(owner).status == Ready && HeadIsPlain(s, q, owner) && !ReceiveFails(s, q, owner, x)
    ensures Genuine(s, ReceivePart(s, owner, q, info, x).0, p)
  {
    if s.Q(q).state == ReadyToSend {
      if s.Q(q).queue != [] {
        var s1 := PopIpc(s, q);
        assert Plainly(s, s1, p) && B.SameLog(s, s1);
        AcceptGenuine(s1, q, owner, s.Q(q).queue[0], x, p);
        PlainThen(s, s1, AcceptSender(s1, q, owner, s.Q(q).queue[0], x).0, p);
      }
    } else {
      DeliverGenuine(s, owner, p);
      if !TryDeliverPending(s, owner).1 && IsBlock(info) {
        var s2 := s.SetP(owner, s.P(owner).(status := BlockedReceive));
        assert Plainly(s, s2, p);
        BlockPlain(s2, q, ReadyToReceive, owner, p);
      }
    }
  }

  lemma CancelErrorPlain(s: State, client: Pid, p: Pid)
    ensures Plainly(s, CancelReplyWithError(s, client), p)
  {
    var s1 := CancelReply(s, client);
    assert Plainly(s, s1, p);
    RevokedPlain(s1, client, p);
  }

  lemma RevokedPlain(s: State, o: Pid, p: Pid)
    ensures Plainly(s, CompleteRevokedWait(s, o), p)
  {
  }

  lemma DiscardPlain(s: State, owner: Pid, p: Pid)
    ensures Plainly(s, DiscardCaller(s, owner), p)
  {
    if s.P(owner).dstReady && s.P(owner).dstTarget.Some? {
      CancelErrorPlain(s, s.P(owner).dstTarget.value, p);
      assert DiscardCaller(s, owner) == Forget(CancelReplyWithError(s, s.P(owner).dstTarget.value), owner);
    }
  }

  /** Nobody in a sender's place has anything but the word of a process to say. */
  ghost predicate Clean(s: State) {
    forall p: Pid :: s.P(p).status == BlockedSend ==> Normal(Info(s, p))
  }

  lemma CleanHead(s: State, q: PortId, owner: Pid, c: CoreId)
    requires Good(s) && Clean(s) && s.C(c).current == Some(owner)
    ensures HeadIsPlain(s, q, owner)
  {
    if s.Q(q).state == ReadyToSend && s.Q(q).queue != [] {
      var sender := s.Q(q).queue[0];
      assert PortOk(s, q) && sender in s.Q(q).queue && PlaceOk(s, {}, None, sender);
      Running(s, c, owner);
    }
  }

  lemma ReceiveGenuine(s: State, c: CoreId, owner: Pid, cap: Cap, info: Word, x: Transfer, p: Pid)
    requires Good(s) && Clean(s) && s.C(c).current == Some(owner) && (cap.readable ==> !ReceiveFails(s, cap.port, owner, x))
    ensures Genuine(s, Receive(s, owner, cap, info, x).0, p)
  {
    if cap.readable {
      var q := cap.port;
      Running(s, c, owner);
      assert ReplyOk(s, owner) && PortOk(s, q);
      var s1 := DiscardCaller(s, owner);
      DiscardPlain(s, owner, p);
      DiscardSparesSenders(s, c, owner, q, x);
      DiscardedHead(s, c, owner, q);
      ReceivePartGenuine(s1, owner, q, info, x, p);
      PlainThen(s, s1, ReceivePart(s1, owner, q, info, x).0, p);
    }
  }

  lemma DiscardedHead(s: State, c: CoreId, owner: Pid, q: PortId)
    requires Good(s) && Clean(s) && s.C(c).current == Some(owner)
    ensures var t := DiscardCaller(s, owner);
      HeadIsPlain(t, q, owner) && t.P(owner).status == Ready && B.SameLog(s, t)
  {
    CleanHead(s, q, owner, c);
    Running(s, c, owner);
    assert ReplyOk(s, owner) && PortOk(s, q);
    if s.P(owner).dstReady {
      var client := s.P(owner).dstTarget.value;
      Awaiting(s, {}, None, client);
      B.RevokedTakesNone(s, client);
      if s.Q(q).queue != [] {
        assert s.Q(q).queue[0] in s.Q(q).queue;
        DiscardSpares(s, owner, s.Q(q).queue[0]);
      }
      LeaveOne(s, c, owner);
      DiscardKeeps(s, {owner}, Some(c), owner);
    }
    DiscardSpares(s, owner, owner);
  }

  // ---------------------------------------------------------------- replies

  /** A faulted client gets its registers from the answer. */
  predicate Emulated(s: State, owner: Pid, p: Pid) {
    s.P(owner).dstReady && s.P(owner).dstTarget == Some(p) && s.P(p).fault == InvalidKernelCall
  }

  lemma FaultReplyPlain(s: State, owner: Pid, client: Pid, p: Pid)
    ensures Plainly(s, CompleteFaultReply(s, owner, client), p)
  {
    var s1 := Forget(s.SetP(client, s.P(client).(status := Ready, srcWait := false, srcTarget := None, fault := NoFault)), owner);
    assert Plainly(s, s1, p);
    RouteLeaves(s1, s.P(owner).affinity, client);
    TurnsPlain(MadeReady(s1, client), CompleteFaultReply(s, owner, client), p);
  }

  lemma CompleteReplyPlain(s: State, owner: Pid, info: Word, x: Transfer, enqueue: bool, p: Pid)
    requires Normal(info) && !Emulated(s, owner, p)
    ensures Plainly(s, CompleteReply(s, owner, info, x, enqueue).0, p)
  {
    if s.P(owner).dstReady && s.P(owner).dstTarget.Some? {
      var client := s.P(owner).dstTarget.value;
      if s.P(client).fault != NoFault {
        var s1 := SetRegs(s, client, ReplyRegisters(s, owner, client, info));
        assert Plainly(s, s1, p);
        FaultReplyPlain(s1, owner, client, p);
      } else {
        TransferPlain(s, 0, client, owner, info, x, p);
        ReplyMessagePlain(TransferDirectMessage(s, client, owner, info, x).0, owner, client, p);
      }
    }
  }

  lemma ReplyMessagePlain(s: State, owner: Pid, client: Pid, p: Pid)
    ensures var t := Forget(s.SetP(client, s.P(client).(status := Ready, srcWait := false, srcTarget := None)), owner);
      Plainly(s, t, p) && Plainly(s, RouteMarkScheduled(t, t.P(owner).affinity, client), p)
  {
    var t := Forget(s.SetP(client, s.P(client).(status := Ready, srcWait := false, srcTarget := None)), owner);
    RouteLeaves(t, t.P(owner).affinity, client);
    TurnsPlain(MadeReady(t, client), RouteMarkScheduled(t, t.P(owner).affinity, client), p);
  }

  lemma ReplyPlain(s: State, owner: Pid, info: Word, x: Transfer, p: Pid)
    requires Normal(info) && !Emulated(s, owner, p)
    ensures Plainly(s, Reply(s, owner, info, x).0, p)
  {
    CompleteReplyPlain(s, owner, info, x, true, p);
    var s1 := CompleteReply(s, owner, info, x, true).0;
    var s2 := s1.SetP(owner, s1.P(owner).(status := Ready));
    assert Plainly(s1, s2, p);
    DirectLeaves(s2, s2.P(owner).affinity, owner);
    TurnsPlain(s2, TryDirectScheduleAndSwitch(s2, s2.P(owner).affinity, owner), p);
  }

  lemma FastPlain(s: State, owner: Pid, q: PortId, info: Word, x: Transfer, p: Pid)
    requires s.P(owner).dstTarget.Some? && Normal(info) && !Emulated(s, owner, p)
    ensures Plainly(s, ReplyReceiveFast(s, owner, q, info, x).0, p)
  {
    CompleteReplyPlain(s, owner, info, x, false, p);
    var s1 := CompleteReply(s, owner, info, x, false).0;
    var s3 := PushIpc(s1.SetP(owner, s1.P(owner).(status := BlockedReceive)), q, ReadyToReceive, owner);
    assert Plainly(s1, s3, p);
    R.DirectScheduleSpares(s3, s3.P(owner).affinity, s.P(owner).dstTarget.value, p);
  }

  lemma ReplyReceiveGenuine(s: State, c: CoreId, owner: Pid, cap: Cap, info: Word, x: Transfer, y: Transfer, p: Pid)
    requires Good(s) && Clean(s) && s.C(c).current == Some(owner) && Normal(info) && !Emulated(s, owner, p)
    requires cap.readable && ReplyGoesThrough(s, owner, info, x) ==> !ReceiveFails(s, cap.port, owner, y)
    ensures Genuine(s, ReplyReceive(s, owner, cap, info, x, y).0, p)
  {
    if cap.readable {
      var q := cap.port;
      assert ReplyOk(s, owner);
      if FastReply(s, owner, q, info) {
        FastPlain(s, owner, q, info, x, p);
      } else {
        CompleteReplyPlain(s, owner, info, x, true, p);
        ReplyOutcome(s, owner, info, x);
        var s1 := CompleteReply(s, owner, info, x, true).0;
        if ReplyGoesThrough(s, owner, info, x) {
          RepliedHead(s, c, owner, q, info, x);
          SendersUntouched(s, c, owner, q, info, x, y);
          ReceivePartGenuine(s1, owner, q, info, y, p);
          PlainThen(s, s1, ReceivePart(s1, owner, q, info, y).0, p);
        }
      }
    }
  }

  lemma RepliedHead(s: State, c: CoreId, owner: Pid, q: PortId, info: Word, x: Transfer)
    requires Good(s) && Clean(s) && s.C(c).current == Some(owner)
    ensures var t := CompleteReply(s, owner, info, x, true).0;
      HeadIsPlain(t, q, owner) && t.P(owner).status == Ready && B.SameLog(s, t)
  {
    CleanHead(s, q, owner, c);
    Running(s, c, owner);
    assert ReplyOk(s, owner) && PortOk(s, q);
    if s.P(owner).dstReady { Awaiting(s, {}, None, s.P(owner).dstTarget.value); }
    ReplyFrame(s, owner, info, x, true);
    if s.Q(q).queue != [] { assert s.Q(q).queue[0] in s.Q(q).queue; }
  }

  // ---------------------------------------------------------------- faults

  lemma FaultGenuine(s: State, c: CoreId, fault: RealFault, p: Pid)
    requires Good(s) && (s.C(c).current.Some? ==> !FaultLost(s, s.C(c).current.value, fault))
    ensures Genuine(s, HandleFault(s, c, fault), p)
  {
    if s.C(c).current.Some? {
      var o := s.C(c).current.value;
      Running(s, c, o);
      var s1 := s.SetP(o, s.P(o).(fault := fault));
      assert Plainly(s, s1, p) && B.SameLog(s, s1);
      if s1.P(o).resolver.None? {
        ParkPlain(s1, c, o, p);
      } else {
        var cap := s1.P(o).resolver.value;
        assert PortOk(s, cap.port);
        if s.Q(cap.port).queue != [] { assert s.Q(cap.port).queue[0] in s.Q(cap.port).queue; }
        FaultCallGenuine(s1, o, cap, p);
        var (s2, res) := FaultCall(s1, o, cap);
        if res.Err? {
          FaultRefused(s1, o, cap, p);
          ParkPlain(s2, c, o, p);
          PlainTwice(s, s1, s2, p);
        } else {
          PlainThen(s, s1, s2, p);
        }
      }
    }
  }

  lemma ParkPlain(s: State, c: CoreId, o: Pid, p: Pid)
    ensures Plainly(s, TryScheduleAndSwitch(s.SetP(o, s.P(o).(status := BlockedSuspend)), c), p)
  {
    var t := s.SetP(o, s.P(o).(status := BlockedSuspend));
    assert Plainly(s, t, p);
    DispatchLeaves(t, c);
    TurnsPlain(t, TryScheduleAndSwitch(t, c), p);
  }

  /** A delivery that fails without having begun changes no message. */
  lemma FaultRefused(s: State, owner: Pid, cap: Resolver, p: Pid)
    requires FaultCall(s, owner, cap).1.Err? && Deliverable(s, owner, cap)
    ensures Plainly(s, FaultCall(s, owner, cap).0, p)
  {
  }

  ghost predicate Deliverable(s: State, owner: Pid, cap: Resolver) {
    cap.readable && cap.writable && s.Q(cap.port).state == ReadyToReceive && s.Q(cap.port).queue != [] ==>
      s.Q(cap.port).queue[0] != owner && !FaultTransferFails(s.P(owner).fault, s.P(s.Q(cap.port).queue[0]).hasBuffer)
  }

  lemma FaultCallGenuine(s: State, owner: Pid, cap: Resolver, p: Pid)
    requires s.P(owner).fault != NoFault && Deliverable(s, owner, cap)
    ensures Genuine(s, FaultCall(s, owner, cap).0, p)
  {
    var q := cap.port;
    if cap.writable && cap.readable {
      if s.Q(q).state == ReadyToReceive {
        if s.Q(q).queue != [] {
          var s1 := PopIpc(s, q);
          var s2 := s1.SetP(owner, s1.P(owner).(identifier := cap.identifier, status := BlockedFault));
          assert Plainly(s, s2, p) && B.SameLog(s, s2);
          FaultReceiverGenuine(s2, owner, q, s.Q(q).queue[0], p);
          PlainThen(s, s2, FaultReceiver(s2, owner, q, s.Q(q).queue[0]).0, p);
        }
      } else {
        var s1 := s.SetP(owner, s.P(owner).(status := BlockedFault, srcWait := true, identifier := cap.identifier));
        assert Plainly(s, s1, p);
        BlockPlain(s1, q, ReadyToSend, owner, p);
      }
    }
  }

  lemma FaultReceiverGenuine(s: State, owner: Pid, q: PortId, target: Pid, p: Pid)
    requires owner != target && s.P(owner).fault != NoFault && !FaultTransferFails(s.P(owner).fault, s.P(target).hasBuffer)
    ensures Genuine(s, FaultReceiver(s, owner, q, target).0, p)
  {
    if s.P(target).dstReady {
      var s1 := s.SetP(owner, s.P(owner).(srcWait := true));
      BlockPlain(s1, q, s1.Q(q).state, owner, p);
    } else {
      var s2 := TransferFaultMessage(Link(s, owner, target), target, owner).0;
      var s3 := s2.SetP(target, s2.P(target).(status := Ready));
      if p == target { assert FaultsTo(s3, owner, p); }
      assert Genuine(s, s3, p);
      DirectLeaves(s3, s3.P(owner).affinity, target);
      ThenTurns(s, s3, TryDirectScheduleAndSwitch(s3, s3.P(owner).affinity, target), p);
    }
  }

  // ---------------------------------------------------------------- notified bits

  lemma WakeGenuine(s: State, t: State, c: CoreId, n: NtfId, o: Pid, bits: Word, p: Pid)
    requires forall z: Pid :: z != o ==> Plainly(s, t, z)
    requires |s.N(n).history| < |t.N(n).history| && t.N(n).history[|t.N(n).history| - 1] == Consumed(bits, o)
    requires Info(t, o) == bits || (Info(t, o) == {14} && t.P(o).regs[MR_IDENTIFIER] == bits)
    ensures Genuine(s, RouteMarkScheduledPreempting(t, c, o), p)
  {
    var u := MadeReady(t, o);
    if p == o {
      assert Took(s, u, n, |t.N(n).history| - 1, p);
    } else {
      assert Plainly(s, t, p) && Plainly(s, u, p);
    }
    PreemptingLeaves(t, c, o);
    ThenTurns(s, u, RouteMarkScheduledPreempting(t, c, o), p);
  }

  lemma NotifyGenuine(s: State, c: CoreId, cap: Cap, p: Pid)
    ensures Genuine(s, Notify(s, c, cap).0, p)
  {
    var n := cap.port;
    if cap.writable {
      var s1 := NotifyBits(s, n, cap.identifier);
      assert Plainly(s, s1, p);
      if s1.N(n).bound.Some? && s1.P(s1.N(n).bound.value).status == BlockedReceive {
        WakeBoundGenuine(s, c, n, s1.N(n).bound.value, cap.identifier, p);
      } else if s1.N(n).readyToWake && s1.N(n).queue != [] {
        WakeWaiterGenuine(s, c, n, cap.identifier, p);
      }
    }
  }

  lemma WakeBoundGenuine(s: State, c: CoreId, n: NtfId, o: Pid, bits: Word, p: Pid)
    ensures Genuine(s, WakeBound(NotifyBits(s, n, bits), c, n, o).0, p)
  {
    var s1 := NotifyBits(s, n, bits);
    if s1.P(o).ipcPort.Some? {
      var s2 := RemoveIpc(s1, o);
      var s3 := ConsumeBits(s2, n, o);
      var s4 := SetRegs(s3, o, s3.P(o).regs[MR_MESSAGE_INFO := {14}][MR_IDENTIFIER := s2.N(n).flag]);
      var s5 := s4.SetP(o, s4.P(o).(status := Ready, ipcPort := None, ntfPort := None));
      WakeGenuine(s, s5, c, n, o, s2.N(n).flag, p);
    }
  }

  lemma WakeWaiterGenuine(s: State, c: CoreId, n: NtfId, bits: Word, p: Pid)
    requires s.N(n).queue != []
    ensures var s2 := PopNtf(NotifyBits(s, n, bits), n);
      var o := s.N(n).queue[0];
      var s3 := ConsumeBits(s2, n, o);
      Genuine(s, RouteMarkScheduledPreempting(SetRegs(s3, o, s3.P(o).regs[MR_FLAG_WORD := s2.N(n).flag]), c, o), p)
  {
    var s2 := PopNtf(NotifyBits(s, n, bits), n);
    var o := s.N(n).queue[0];
    var s3 := ConsumeBits(s2, n, o);
    WakeGenuine(s, SetRegs(s3, o, s3.P(o).regs[MR_FLAG_WORD := s2.N(n).flag]), c, n, o, s2.N(n).flag, p);
  }

  lemma TakeFlagGenuine(s: State, n: NtfId, owner: Pid, p: Pid)
    requires s.P(owner).status == Ready
    ensures Genuine(s, TakeFlag(s, n, owner), p)
  {
    if p == owner { assert Took(s, TakeFlag(s, n, owner), n, |s.N(n).history|, p); }
  }

  lemma WaitGenuine(s: State, owner: Pid, cap: Cap, p: Pid)
    requires s.P(owner).status == Ready
    ensures Genuine(s, WaitFlag(s, owner, cap).0, p) && Genuine(s, Poll(s, owner, cap).0, p)
  {
    TakeFlagGenuine(s, cap.port, owner, p);
    var s1 := PushNtf(s.SetP(owner, s.P(owner).(status := BlockedWait)), cap.port, owner);
    assert Plainly(s, s1, p);
    DispatchLeaves(s1, s.P(owner).affinity);
    TurnsPlain(s1, TryScheduleAndSwitch(s1, s.P(owner).affinity), p);
  }

  // ---------------------------------------------------------------- control

  lemma CancelOwnPlain(s: State, o: Pid, p: Pid)
    ensures Plainly(s, ClearFault(CancelOwnWait(s, o), o), p)
  {
    var s1 := Detach(s, o);
    assert Plainly(s, s1, p);
    assert Plainly(s1, ClearFault(CancelReply(s1, o), o), p);
  }

  lemma ResumePlain(s: State, c: CoreId, o: Pid, p: Pid)
    ensures Plainly(s, Resume(s, c, o).0, p)
  {
    CancelOwnPlain(s, o, p);
    var s1 := ClearFault(CancelOwnWait(s, o), o);
    var s2 := s1.SetP(o, s1.P(o).(status := Ready));
    RouteLeaves(s2, c, o);
    TurnsPlain(MadeReady(s2, o), RouteMarkScheduled(s2, c, o), p);
  }

  lemma StopPlain(s: State, o: Pid, p: Pid)
    ensures Plainly(s, StopProcess(s, o), p)
  {
  }

  lemma SuspendPlain(s: State, o: Pid, p: Pid)
    ensures Plainly(s, Suspend(s, o), p)
  {
    StopPlain(s, o, p);
    var s1 := StopProcess(s, o);
    var s2 := if NativeWait(s.P(o)) then SetRegs(s1, o, s1.P(o).regs[MR_IS_SUCCESS := {}][MR_ERROR_CODE := {}]) else s1;
    assert Plainly(s1, s2, p);
    CancelOwnPlain(s2, o, p);
  }

  lemma RevokeProcessPlain(s: State, o: Pid, p: Pid)
    ensures Plainly(s, RevokeProcess(s, o), p)
  {
    StopPlain(s, o, p);
    var s0 := StopProcess(s, o);
    var s1 := Detach(s0, o);
    assert Plainly(s0, s1, p);
    if s1.P(o).dstTarget.Some? { CancelErrorPlain(s1, s1.P(o).dstTarget.value, p); }
    var s2 := if s1.P(o).dstTarget.Some? then CancelReplyWithError(s1, s1.P(o).dstTarget.value) else s1;
    assert Plainly(s, s2, p);
    GiveUpPlain(s2, o, p);
    assert Plainly(s2, RevokeProcess(s, o), p);
  }

  lemma GiveUpPlain(s: State, o: Pid, p: Pid)
    ensures Plainly(s, GiveUp(s, o), p)
  {
  }

  lemma {:induction false} DrainPortPlain(s: State, q: PortId, p: Pid)
    ensures Plainly(s, DrainPort(s, q), p)
    decreases |s.Q(q).queue|
  {
    if s.Q(q).queue != [] {
      var o := s.Q(q).queue[0];
      var s1 := PopIpc(s, q);
      var s2 := s1.SetP(o, s1.P(o).(srcWait := false, srcTarget := None));
      assert Plainly(s, s2, p);
      RevokedPlain(s2, o, p);
      B.RevokedTakesNone(s2, o);
      DrainPortPlain(CompleteRevokedWait(s2, o), q, p);
    }
  }

  lemma {:induction false} DrainNtfPlain(s: State, n: NtfId, p: Pid)
    ensures Plainly(s, DrainNtf(s, n), p)
    decreases |s.N(n).queue|
  {
    if s.N(n).queue != [] {
      var s1 := PopNtf(s, n);
      assert Plainly(s, s1, p);
      RevokedPlain(s1, s.N(n).queue[0], p);
      B.RevokedTakesNone(s1, s.N(n).queue[0]);
      DrainNtfPlain(CompleteRevokedWait(s1, s.N(n).queue[0]), n, p);
    }
  }

  lemma RevokeNtfPlain(s: State, n: NtfId, p: Pid)
    ensures Plainly(s, RevokeNtf(s, n), p)
  {
    DrainNtfPlain(s, n, p);
    assert Plainly(DrainNtf(s, n), RevokeNtf(s, n), p);
  }

  lemma ConfigurePlain(s: State, owner: Pid, r: Request, p: Pid)
    requires IsConfigure(r) && r != ReqWriteRegisters(p)
    ensures Plainly(s, ExecuteConfigure(s, owner, r).0, p)
  {
    match r
    case ReqBind(o, n) =>
      var s1 := if s.P(o).boundPort.Some? then Unbind(s, o) else s;
      assert Plainly(s, s1, p) && Plainly(s1, Bind(s1, n, o), p);
    case ReqWriteRegisters(o) => assert Plainly(s, WriteRegisters(s, owner, o).0, p);
    case _ =>
  }

  // ---------------------------------------------------------------- scheduling

  lemma YieldPlain(s: State, c: CoreId, p: Pid)
    ensures Plainly(s, Yield(s, c), p)
  {
    match s.C(c).current
    case None => IdlePlain(s, c, p);
    case Some(o) => RequeuePlain(s, c, o, p);
  }

  lemma IdlePlain(s: State, c: CoreId, p: Pid)
    ensures Plainly(s, TryScheduleAndSwitch(s.SetC(c, s.C(c).(idleQuantum := QUANTUM_MAX)), c), p)
  {
    var s1 := s.SetC(c, s.C(c).(idleQuantum := QUANTUM_MAX));
    DispatchLeaves(s1, c);
    TurnsPlain(s1, TryScheduleAndSwitch(s1, c), p);
  }

  lemma RequeuePlain(s: State, c: CoreId, o: Pid, p: Pid)
    ensures Plainly(s, TryScheduleAndSwitch(MarkScheduled(s, o), c), p)
  {
    var s1 := MarkScheduled(s, o);
    assert Plainly(s, s1, p);
    DispatchLeaves(s1, c);
    TurnsPlain(s1, TryScheduleAndSwitch(s1, c), p);
  }

  lemma TimerPlain(s: State, c: CoreId, p: Pid)
    ensures Plainly(s, Timer(s, c), p)
  {
    match s.C(c).current
    case None =>
      var s1 := s.SetC(c, s.C(c).(idleQuantum := s.C(c).idleQuantum - 1));
      IdlePlain(s1, c, p);
      assert Plainly(s1, Timer(s, c), p);
    case Some(o) =>
      if s.P(o).status != Ready {
        DispatchLeaves(s, c);
        TurnsPlain(s, Timer(s, c), p);
      } else {
        var s1 := s.SetP(o, s.P(o).(quantum := s.P(o).quantum - 1));
        RequeuePlain(s1, c, o, p);
        assert Plainly(s1, Timer(s, c), p);
      }
  }

  lemma ReschedulePlain(s: State, c: CoreId, p: Pid)
    ensures Plainly(s, RescheduleIpi(s, c), p)
  {
    var s1 := SetPending(s, c, None);
    var s2 :=
      match s1.C(c).current
      case None => s1.SetC(c, s1.C(c).(idleQuantum := QUANTUM_MAX))
      case Some(o) => if s1.P(o).status == Ready then MarkScheduled(s1, o) else s1;
    assert Plainly(s, s2, p);
    R.PickSpares(s2, c, s.C(c).pending, p);
  }

  // ---------------------------------------------------------------- the theorems

  /** The registers of `p` are written by its own code, by WRITE_REGISTER, or by the answer to its invalid call. */
  ghost predicate Written(s: State, e: Entry, p: Pid) {
    match e
    case UserCode(c, _) => s.C(c).current == Some(p)
    case CapabilityCall(c, r) =>
      || r == ReqWriteRegisters(p)
      || ((r.ReqReply? || r.ReqReplyReceive?) && s.C(c).current.Some? && Emulated(s, s.C(c).current.value, p))
    case _ => false
  }

  lemma MessageGenuine(s: State, c: CoreId, owner: Pid, r: Request, p: Pid)
    requires Good(s) && Clean(s) && s.C(c).current == Some(owner) && IsMessage(r) && !CallBreaks(s, owner, r)
    requires r.ReqReply? || r.ReqReplyReceive? ==> !Emulated(s, owner, p)
    ensures Genuine(s, ExecuteMessage(s, owner, r).0, p)
  {
    var info := Info(s, owner);
    if !Normal(info) { return; }
    Running(s, c, owner);
    match r
    case ReqSend(cap, x) => SendPlain(s, owner, cap, info, x, p);
    case ReqReceive(cap, x) => ReceiveGenuine(s, c, owner, cap, info, x, p);
    case ReqCall(cap, x) => CallGenuine(s, owner, cap, info, x, p);
    case ReqReply(x) => ReplyPlain(s, owner, info, x, p);
    case ReqReplyReceive(cap, x, y) => ReplyReceiveGenuine(s, c, owner, cap, info, x, y, p);
  }

  lemma ControlGenuine(s: State, c: CoreId, owner: Pid, r: Request, p: Pid)
    requires Good(s) && s.C(c).current == Some(owner) && !IsMessage(r) && r != ReqWriteRegisters(p)
    ensures Genuine(s, Execute(s, c, owner, r).0, p)
  {
    Running(s, c, owner);
    match r
    case ReqNotify(cap) => NotifyGenuine(s, c, cap, p);
    case ReqWait(cap) => WaitGenuine(s, owner, cap, p);
    case ReqPoll(cap) => WaitGenuine(s, owner, cap, p);
    case ReqResume(o) => ResumePlain(s, c, o, p);
    case ReqSuspend(o) => SuspendPlain(s, o, p);
    case ReqRevokePort(q) => DrainPortPlain(s, q, p);
    case ReqRevokeNtf(n) => RevokeNtfPlain(s, n, p);
    case ReqRevokeProcess(o) => RevokeProcessPlain(s, o, p);
    case _ => ConfigurePlain(s, owner, r, p);
  }

  /**
   In a clean state, whatever entry gives a process a word with a kernel source that it did not have,
   the process that it names has faulted to it, or it has taken the bits that it reports.
   */
  lemma StepIsGenuine(s: State, e: Entry, p: Pid)
    requires Good(s) && Clean(s) && !Breaks(s, e) && !Written(s, e, p)
    ensures Genuine(s, Step(s, e), p)
  {
    match e
    case UserCode(c, regs) =>
    case CapabilityCall(c, r) =>
      if s.C(c).current.Some? {
        var owner := s.C(c).current.value;
        if IsMessage(r) { MessageGenuine(s, c, owner, r, p); } else { ControlGenuine(s, c, owner, r, p); }
        var (t, res) := Execute(s, c, owner, r);
        ThenFinish(s, t, owner, res, p);
      }
    case YieldCall(c) => YieldPlain(s, c, p);
    case TimerTick(c) => TimerPlain(s, c, p);
    case Reschedule(c) => ReschedulePlain(s, c, p);
    case FaultEntry(c, fault) => FaultGenuine(s, c, fault, p);
    case Irq(c, cap) => NotifyGenuine(s, c, cap, p);
  }

  /** WRITE_REGISTER gives a sender that is already queued a word with a kernel source. */
  ghost predicate Mislabels(s: State, e: Entry) {
    && e.CapabilityCall? && e.request.ReqWriteRegisters? && s.C(e.core).current.Some?
    && var p := e.request.p;
      s.P(p).status == BlockedSend && !Normal(WriteRegisters(s, s.C(e.core).current.value, p).0.P(p).regs[MR_MESSAGE_INFO])
  }

  lemma WrittenClean(s: State, e: Entry, p: Pid)
    requires Good(s) && Clean(s) && !Breaks(s, e) && Written(s, e, p)
    ensures Step(s, e).P(p).status == BlockedSend && !Normal(Info(Step(s, e), p)) ==> Mislabels(s, e) && e.request.p == p
  {
    match e
    case UserCode(c, regs) => Running(s, c, p);
    case CapabilityCall(c, r) =>
      if s.C(c).current.Some? {
        var owner := s.C(c).current.value;
        if r == ReqWriteRegisters(p) {
          WriteLeavesStatus(s, c, owner, p);
        } else {
          EmulatedNotSending(s, c, owner, r, p);
        }
      }
    case _ =>
  }

  lemma WriteLeavesStatus(s: State, c: CoreId, owner: Pid, p: Pid)
    requires s.C(c).current == Some(owner)
    ensures var t := Step(s, CapabilityCall(c, ReqWriteRegisters(p)));
      t.P(p).status == s.P(p).status && Info(t, p) == Info(WriteRegisters(s, owner, p).0, p)
  {
    var (t, res) := WriteRegisters(s, owner, p);
    assert ExecuteConfigure(s, owner, ReqWriteRegisters(p)) == (t, res);
    assert t.P(p).status == s.P(p).status && Info(Finish(t, owner, res), p) == Info(t, p);
  }

  /** A client that gets its registers from an answer is blocked or, in the end, ready. */
  lemma EmulatedNotSending(s: State, c: CoreId, owner: Pid, r: Request, p: Pid)
    requires Good(s) && s.C(c).current == Some(owner) && Emulated(s, owner, p) && (r.ReqReply? || r.ReqReplyReceive?)
    ensures Step(s, CapabilityCall(c, r)).P(p).status != BlockedSend
  {
    assert ReplyOk(s, owner);
    R.AwaitingIsNowhere(s, p);
    Running(s, c, owner);
    var info := Info(s, owner);
    if Normal(info) {
      match r
      case ReqReply(x) => ReplyNotSending(s, owner, info, x, p);
      case ReqReplyReceive(cap, x, y) => ReplyReceiveNotSending(s, owner, cap, info, x, y, p);
    }
    var (t, res) := ExecuteMessage(s, owner, r);
    assert t.P(p).status != BlockedSend && Finish(t, owner, res).P(p).status == t.P(p).status;
  }

  lemma CompleteReplyNotSending(s: State, owner: Pid, info: Word, x: Transfer, p: Pid)
    requires Emulated(s, owner, p) && p != owner && s.P(p).status != BlockedSend
    ensures var t := CompleteReply(s, owner, info, x, true).0;
      t.P(p).status != BlockedSend && t.ports == s.ports
  {
    var s1 := SetRegs(s, p, ReplyRegisters(s, owner, p, info));
    var s2 := s1.SetP(p, s1.P(p).(status := Ready, srcWait := false, srcTarget := None, fault := NoFault));
    RouteLeaves(Forget(s2, owner), s.P(owner).affinity, p);
    assert SameUpToTurn(CompleteFaultReply(s1, owner, p).P(p), MadeReady(Forget(s2, owner), p).P(p));
  }

  lemma ReplyNotSending(s: State, owner: Pid, info: Word, x: Transfer, p: Pid)
    requires Emulated(s, owner, p) && p != owner && s.P(p).status != BlockedSend
    ensures Reply(s, owner, info, x).0.P(p).status != BlockedSend
  {
    CompleteReplyNotSending(s, owner, info, x, p);
    var s1 := CompleteReply(s, owner, info, x, true).0;
    var s2 := s1.SetP(owner, s1.P(owner).(status := Ready));
    DirectLeaves(s2, s2.P(owner).affinity, owner);
    assert SameUpToTurn(TryDirectScheduleAndSwitch(s2, s2.P(owner).affinity, owner).P(p), s2.P(p));
  }

  lemma ReplyReceiveNotSending(s: State, owner: Pid, cap: Cap, info: Word, x: Transfer, y: Transfer, p: Pid)
    requires Emulated(s, owner, p) && p != owner && s.P(p).status != BlockedSend && p !in s.Q(cap.port).queue
    ensures ReplyReceive(s, owner, cap, info, x, y).0.P(p).status != BlockedSend
  {
    CompleteReplyNotSending(s, owner, info, x, p);
    R.ReceivePartSpares(CompleteReply(s, owner, info, x, true).0, owner, cap.port, info, y, p);
  }

  /** A clean state stays clean exactly if nothing is mislabelled. */
  lemma StaysCleanIff(s: State, e: Entry)
    requires Good(s) && Clean(s) && !Breaks(s, e)
    ensures Clean(Step(s, e)) <==> !Mislabels(s, e)
  {
    var t := Step(s, e);
    forall p: Pid ensures t.P(p).status == BlockedSend && !Normal(Info(t, p)) ==> Mislabels(s, e) && e.request.p == p {
      if Written(s, e, p) { WrittenClean(s, e, p); } else { StepIsGenuine(s, e, p); }
    }
    if Mislabels(s, e) { MislabelShows(s, e); }
  }

  lemma MislabelShows(s: State, e: Entry)
    requires Good(s) && Mislabels(s, e)
    ensures var t := Step(s, e); t.P(e.request.p).status == BlockedSend && !Normal(Info(t, e.request.p))
  {
    WriteLeavesStatus(s, e.core, s.C(e.core).current.value, e.request.p);
  }

  ghost predicate NothingMislabelled(s: State, es: seq<Entry>) {
    forall j :: 0 <= j < |es| ==> !Mislabels(After(s, es[..j]), es[j])
  }

  lemma {:induction false} RunsStayClean(s: State, es: seq<Entry>, i: nat)
    requires Good(s) && Clean(s) && Orderly(s, es) && NothingMislabelled(s, es) && i <= |es|
    ensures Clean(After(s, es[..i]))
    decreases i
  {
    if i > 0 {
      RunsStayClean(s, es, i - 1);
      RunsStayGood(s, es, i - 1);
      OneMoreClean(s, es, i - 1);
    }
  }

  lemma OneMoreClean(s: State, es: seq<Entry>, j: nat)
    requires j < |es| && Good(After(s, es[..j])) && Clean(After(s, es[..j]))
    requires !Breaks(After(s, es[..j]), es[j]) && !Mislabels(After(s, es[..j]), es[j])
    ensures Clean(After(s, es[..j + 1]))
  {
    AfterStep(s, es, j);
    StepStaysClean(After(s, es[..j]), es[j], After(s, es[..j + 1]));
  }

  lemma StepStaysClean(s: State, e: Entry, t: State)
    requires Good(s) && Clean(s) && !Breaks(s, e) && !Mislabels(s, e) && t == Step(s, e)
    ensures Clean(t)
  {
    StaysCleanIff(s, e);
  }

  /** Over every run without mislabelling from a clean start, every kernel word is genuine. */
  lemma KernelWordsAreGenuine(s: State, es: seq<Entry>, i: nat, p: Pid)
    requires Good(s) && Clean(s) && Orderly(s, es) && NothingMislabelled(s, es) && i < |es|
    requires !Written(After(s, es[..i]), es[i], p)
    ensures Genuine(After(s, es[..i]), After(s, es[..i + 1]), p)
  {
    RunsStayGood(s, es, i);
    RunsStayClean(s, es, i);
    AfterStep(s, es, i);
    StepIsGenuine(After(s, es[..i]), es[i], p);
  }

  lemma BootIsClean(cores: CoreCount, init: Pid)
    ensures Clean(Boot(cores, init))
  {
    BootGood(cores, init);
  }
}
