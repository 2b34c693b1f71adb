/** Who receives what: the message a rendezvous hands over, and what it leaves of everybody else. */
module Delivery {
  import opened Common
  import opened KernelState
  import opened KernelPrimitives
  import opened ProcessManager
  import opened IpcPort
  import opened IpcInvariant
  import opened NotificationPort

  /** Exactly the info, identifier and payload words changed, to those of the sender. */
  ghost predicate Handed(before: Registers, after: Registers, from: Registers, info: Word, identifier: Word) {
    && after[MR_MESSAGE_INFO] == info && after[MR_IDENTIFIER] == identifier
    && forall i :: 0 <= i < REGISTER_COUNT && i != MR_MESSAGE_INFO && i != MR_IDENTIFIER ==>
         after[i] == if PAYLOAD_START <= i < PAYLOAD_START + MessageLength(info) then from[i] else before[i]
  }

  /** Only `p` may have other registers. */
  ghost predicate OnlyRegsOf(s: State, t: State, p: Pid) {
    forall o: Pid :: o != p ==> t.P(o).regs == s.P(o).regs
  }

  ghost predicate ReadyOnItsCore(s: State, p: Pid) {
    s.P(p).status == Ready && s.P(p).inReady && p in s.C(s.P(p).affinity).ready[s.P(p).priority]
  }

  lemma Handover(s: State, q: PortId, receiver: Pid, sender: Pid, info: Word, x: Transfer)
    requires !TransferFails(info, Buffered(s, receiver, sender), x)
    ensures var (t, res) := TransferMessage(s, q, receiver, sender, info, x);
      && res.Ok? && t == SetRegs(s, receiver, t.P(receiver).regs)
      && Handed(s.P(receiver).regs, t.P(receiver).regs, s.P(sender).regs, info, s.P(sender).identifier)
  {
  }

  lemma RouteMakesReady(s: State, c: CoreId, p: Pid)
    requires !s.P(p).inReady
    ensures var t := RouteMarkScheduled(s, c, p);
      && ReadyOnItsCore(t, p) && t.P(p).regs == s.P(p).regs && t.ports == s.ports
      && forall o: Pid :: o != p ==> t.P(o) == s.P(o)
  {
    var k := s.P(p).priority;
    var ready := s.C(s.P(p).affinity).ready[k] + [p];
    assert ready[|ready| - 1] == p;
  }

  /** SEND to a waiting receiver: the oldest receiver gets the message and is ready. */
  lemma SendHandsOver(s: State, c: CoreId, owner: Pid, cap: Cap, info: Word, x: Transfer)
    requires Good(s) && s.C(c).current == Some(owner)
    requires cap.writable && s.Q(cap.port).state == ReadyToReceive && !DeliveryFails(s, owner, cap, info, x)
    ensures s.Q(cap.port).queue != []
    ensures var target := s.Q(cap.port).queue[0]; var (t, res) := Send(s, owner, cap, info, x);
      && res.Ok? && t.Q(cap.port).queue == s.Q(cap.port).queue[1..]
      && Handed(s.P(target).regs, t.P(target).regs, s.P(owner).regs, info, cap.identifier)
      && OnlyRegsOf(s, t, target) && ReadyOnItsCore(t, target)
  {
    var q := cap.port;
    HeadReceiver(s, {}, None, q);
    Running(s, c, owner);
    var target := s.Q(q).queue[0];
    var s1 := PopIpc(s, q);
    var s2 := s1.SetP(target, s1.P(target).(status := Ready));
    var s3 := s2.SetP(owner, s2.P(owner).(identifier := cap.identifier));
    Handover(s3, q, target, owner, info, x);
    var s4 := TransferMessage(s3, q, target, owner, info, x).0;
    assert PlaceOk(s, {}, None, target);
    RouteMakesReady(s4, s4.P(owner).affinity, target);
  }

  // ---------------------------------------------------------------- call and reply

  /** CALL to a waiting receiver: it gets the message and owes the caller, who waits, exactly one reply. */
  lemma CallHandsOver(s: State, c: CoreId, owner: Pid, cap: Cap, info: Word, x: Transfer)
    requires Good(s) && s.C(c).current == Some(owner)
    requires cap.writable && s.Q(cap.port).state == ReadyToReceive && !DeliveryFails(s, owner, cap, info, x)
    ensures s.Q(cap.port).queue != []
    ensures var target := s.Q(cap.port).queue[0]; var (t, res) := Call(s, owner, cap, info, x);
      && res.Ok? && t.Q(cap.port).queue == s.Q(cap.port).queue[1..]
      && Handed(s.P(target).regs, t.P(target).regs, s.P(owner).regs, info, cap.identifier) && OnlyRegsOf(s, t, target)
      && t.P(owner).status == BlockedReply && t.P(owner).srcTarget == Some(target)
      && t.P(target).status == Ready && t.P(target).dstTarget == Some(owner)
  {
    var q := cap.port;
    HeadReceiver(s, {}, None, q);
    Running(s, c, owner);
    var target := s.Q(q).queue[0];
    var s1 := PopIpc(s, q);
    var s2 := s1.SetP(owner, s1.P(owner).(identifier := cap.identifier));
    CallReceiverHandsOver(s2, owner, q, target, info, x);
  }

  lemma CallReceiverHandsOver(s: State, owner: Pid, q: PortId, target: Pid, info: Word, x: Transfer)
    requires owner != target && !s.P(target).dstReady && !TransferFails(info, Buffered(s, target, owner), x)
    ensures var (t, res) := CallReceiver(s, owner, q, target, info, x);
      && res.Ok? && t.ports == s.ports
      && Handed(s.P(target).regs, t.P(target).regs, s.P(owner).regs, info, s.P(owner).identifier) && OnlyRegsOf(s, t, target)
      && t.P(owner).status == BlockedReply && t.P(owner).srcTarget == Some(target)
      && t.P(target).status == Ready && t.P(target).dstTarget == Some(owner)
  {
    var s1 := Link(s, owner, target);
    var s2 := s1.SetP(owner, s1.P(owner).(status := BlockedReply));
    Handover(s2, q, target, owner, info, x);
    var s3 := TransferMessage(s2, q, target, owner, info, x).0;
    var s4 := s3.SetP(target, s3.P(target).(status := Ready));
    DirectLeaves(s4, s4.P(owner).affinity, target);
    var t := TryDirectScheduleAndSwitch(s4, s4.P(owner).affinity, target);
    assert SameUpToTurn(t.P(owner), s4.P(owner)) && SameUpToTurn(t.P(target), s4.P(target));
    forall o: Pid | o != target ensures t.P(o).regs == s.P(o).regs { assert SameUpToTurn(t.P(o), s4.P(o)); }
  }

  /** REPLY: the caller gets the answer, nobody owes it anything any more, and both can run. */
  lemma ReplyHandsOver(s: State, c: CoreId, owner: Pid, info: Word, x: Transfer)
    requires Good(s) && s.C(c).current == Some(owner) && s.P(owner).dstTarget.Some?
    requires s.P(s.P(owner).dstTarget.value).fault == NoFault
    requires !TransferFails(info, Buffered(s, s.P(owner).dstTarget.value, owner), x)
    ensures var client := s.P(owner).dstTarget.value; var (t, res) := Reply(s, owner, info, x);
      && res.Ok? && client != owner
      && Handed(s.P(client).regs, t.P(client).regs, s.P(owner).regs, info, s.P(owner).identifier) && OnlyRegsOf(s, t, client)
      && t.P(client).status == Ready && t.P(owner).status == Ready
      && t.P(client).srcTarget.None? && t.P(owner).dstTarget.None?
  {
    var client := s.P(owner).dstTarget.value;
    Running(s, c, owner);
    assert ReplyOk(s, owner) && ReplyOk(s, client);
    var s1 := CompleteReply(s, owner, info, x, true).0;
    CompleteReplyHandsOver(s, owner, client, info, x);
    var s2 := s1.SetP(owner, s1.P(owner).(status := Ready));
    DirectLeaves(s2, s2.P(owner).affinity, owner);
    var t := Reply(s, owner, info, x).0;
    assert SameUpToTurn(t.P(owner), s2.P(owner)) && SameUpToTurn(t.P(client), s2.P(client));
    forall o: Pid | o != client ensures t.P(o).regs == s.P(o).regs { assert SameUpToTurn(t.P(o), s2.P(o)); }
  }

  lemma CompleteReplyHandsOver(s: State, owner: Pid, client: Pid, info: Word, x: Transfer)
    requires s.P(owner).dstReady && s.P(owner).dstTarget == Some(client) && client != owner
    requires s.P(client).fault == NoFault && !TransferFails(info, Buffered(s, client, owner), x)
    ensures var (t, res) := CompleteReply(s, owner, info, x, true);
      && res.Ok? && t.ports == s.ports
      && Handed(s.P(client).regs, t.P(client).regs, s.P(owner).regs, info, s.P(owner).identifier) && OnlyRegsOf(s, t, client)
      && t.P(client).status == Ready && t.P(client).srcTarget.None? && t.P(owner).dstTarget.None?
  {
    var s1 := TransferDirectMessage(s, client, owner, info, x).0;
    var s2 := s1.SetP(client, s1.P(client).(status := Ready, srcWait := false, srcTarget := None));
    RouteFrame(Forget(s2, owner), s.P(owner).affinity, client);
  }

  // ---------------------------------------------------------------- receive

  /** Taking a waiting sender: the receiver gets the message; a caller goes on waiting, a sender goes on. */
  lemma ReceiveTakes(s: State, c: CoreId, owner: Pid, cap: Cap, info: Word, x: Transfer)
    requires Good(s) && s.C(c).current == Some(owner) && !s.P(owner).dstReady
    requires cap.readable && s.Q(cap.port).state == ReadyToSend && s.Q(cap.port).queue != []
    requires s.P(s.Q(cap.port).queue[0]).fault == NoFault && !ReceiveFails(s, cap.port, owner, x)
    ensures var sender := s.Q(cap.port).queue[0]; var (t, res) := Receive(s, owner, cap, info, x);
      && res.Ok? && t.Q(cap.port).queue == s.Q(cap.port).queue[1..]
      && Handed(s.P(owner).regs, t.P(owner).regs, s.P(sender).regs, s.P(sender).regs[MR_MESSAGE_INFO], s.P(sender).identifier)
      && OnlyRegsOf(s, t, owner)
      && if s.P(sender).srcWait then t.P(sender).status == BlockedReply && t.P(sender).srcTarget == Some(owner)
                                     && t.P(owner).dstTarget == Some(sender)
         else ReadyOnItsCore(t, sender)
  {
    var q := cap.port;
    assert PortOk(s, q);
    var sender := s.Q(q).queue[0];
    assert sender in s.Q(q).queue && PlaceOk(s, {}, None, sender);
    Running(s, c, owner);
    AcceptHandsOver(PopIpc(s, q), q, owner, sender, x);
  }

  lemma AcceptHandsOver(s: State, q: PortId, owner: Pid, sender: Pid, x: Transfer)
    requires owner != sender && !s.P(owner).dstReady && s.P(sender).fault == NoFault && !s.P(sender).inReady
    requires !AcceptFails(s, owner, sender, x)
    ensures var (t, res) := AcceptSender(s, q, owner, sender, x);
      && res.Ok? && t.ports == s.ports
      && Handed(s.P(owner).regs, t.P(owner).regs, s.P(sender).regs, s.P(sender).regs[MR_MESSAGE_INFO], s.P(sender).identifier)
      && OnlyRegsOf(s, t, owner)
      && if s.P(sender).srcWait then t.P(sender).status == BlockedReply && t.P(sender).srcTarget == Some(owner)
                                     && t.P(owner).dstTarget == Some(sender)
         else ReadyOnItsCore(t, sender)
  {
    var info := s.P(sender).regs[MR_MESSAGE_INFO];
    Handover(s, q, owner, sender, info, x);
    var s1 := TransferMessage(s, q, owner, sender, info, x).0;
    if !s.P(sender).srcWait {
      var s2 := Forget(s1, owner);
      var s3 := s2.SetP(sender, s2.P(sender).(status := Ready));
      RouteMakesReady(s3, s3.P(owner).affinity, sender);
    }
  }

  // ---------------------------------------------------------------- the order of a rendezvous

  /** A process waits at the end of the queue of `q`; its core moved on and nobody else noticed. */
  ghost predicate WaitsAt(s: State, t: State, c: CoreId, p: Pid, q: PortId, r: Proc, st: PortState) {
    && t.ports == s.ports[q := Port(st, s.Q(q).queue + [p])] && t.ntfs == s.ntfs
    && (forall d: CoreId :: d != c ==> t.C(d) == s.C(d))
    && SameUpToTurn(t.P(p), r.(ipcPort := Some(q)))
    && forall o: Pid :: o != p ==> SameUpToTurn(t.P(o), s.P(o))
  }

  lemma BlockWaits(s: State, q: PortId, st: PortState, p: Pid, r: Proc)
    requires r.affinity == s.P(p).affinity
    ensures WaitsAt(s, Block(s.SetP(p, r), q, st, p), r.affinity, p, q, r, st)
  {
    var s1 := s.SetP(p, r);
    DispatchLeaves(PushIpc(s1, q, st, p), r.affinity);
    var t := Block(s1, q, st, p);
    forall o: Pid | o != p ensures SameUpToTurn(t.P(o), s.P(o)) { assert SameUpToTurn(t.P(o), PushIpc(s1, q, st, p).P(o)); }
  }

  lemma SendWaits(s: State, c: CoreId, owner: Pid, cap: Cap, info: Word, x: Transfer)
    requires Good(s) && s.C(c).current == Some(owner) && cap.writable && IsBlock(info) && s.Q(cap.port).state != ReadyToReceive
    ensures WaitsAt(s, Send(s, owner, cap, info, x).0, c, owner, cap.port,
      s.P(owner).(status := BlockedSend, identifier := cap.identifier), ReadyToSend)
  {
    Running(s, c, owner);
    BlockWaits(s, cap.port, ReadyToSend, owner, s.P(owner).(status := BlockedSend, identifier := cap.identifier));
  }

  lemma ReceiveWaits(s: State, c: CoreId, owner: Pid, cap: Cap, info: Word, x: Transfer)
    requires Good(s) && s.C(c).current == Some(owner) && cap.readable && IsBlock(info) && s.Q(cap.port).state != ReadyToSend
    requires !s.P(owner).dstReady && (s.P(owner).boundPort.Some? ==> !Pending(s, s.P(owner).boundPort.value))
    ensures WaitsAt(s, Receive(s, owner, cap, info, x).0, c, owner, cap.port, s.P(owner).(status := BlockedReceive), ReadyToReceive)
  {
    Running(s, c, owner);
    BlockWaits(s, cap.port, ReadyToReceive, owner, s.P(owner).(status := BlockedReceive));
  }

  lemma HandedAlike(before: Registers, a: Registers, b: Registers, from: Registers, info: Word, identifier: Word)
    requires Handed(before, a, from, info, identifier) && Handed(before, b, from, info, identifier)
    ensures a == b
  {
  }

  /** A sender on core `c` and a receiver on core `d` are about to meet at an idle port. */
  ghost predicate AboutToMeet(s: State, c: CoreId, d: CoreId, a: Pid, b: Pid, send: Cap, receive: Cap, info: Word, wait: Word, x: Transfer) {
    && Good(s) && s.C(c).current == Some(a) && s.C(d).current == Some(b) && c != d
    && send.port == receive.port && send.writable && receive.readable && IsBlock(info) && IsBlock(wait)
    && s.Q(send.port).state == Wait && info == s.P(a).regs[MR_MESSAGE_INFO] && !TransferFails(info, Buffered(s, b, a), x)
    && !s.P(b).dstReady && (s.P(b).boundPort.Some? ==> !Pending(s, s.P(b).boundPort.value))
  }

  /** They have met: the receiver has the message, the sender's registers are its own, the port is idle. */
  ghost predicate Met(s: State, t: State, a: Pid, b: Pid, send: Cap, info: Word) {
    && Handed(s.P(b).regs, t.P(b).regs, s.P(a).regs, info, send.identifier)
    && t.P(a).regs == s.P(a).regs && t.Q(send.port).queue == []
  }

  lemma SenderFirst(s: State, c: CoreId, d: CoreId, a: Pid, b: Pid, send: Cap, receive: Cap, info: Word, wait: Word, x: Transfer)
    requires AboutToMeet(s, c, d, a, b, send, receive, info, wait, x)
    ensures Met(s, Receive(Send(s, a, send, info, x).0, b, receive, wait, x).0, a, b, send, info)
  {
    var q := send.port;
    Running(s, c, a);
    Running(s, d, b);
    assert PortOk(s, q);
    var s1 := Send(s, a, send, info, x).0;
    SendKeeps(s, c, a, send, info, x);
    SendWaits(s, c, a, send, info, x);
    assert SameUpToTurn(s1.P(b), s.P(b));
    assert s1.Q(q).queue == [a] && [a][1..] == [];
    ReceiveTakes(s1, d, b, receive, wait, x);
  }

  lemma ReceiverFirst(s: State, c: CoreId, d: CoreId, a: Pid, b: Pid, send: Cap, receive: Cap, info: Word, wait: Word, x: Transfer)
    requires AboutToMeet(s, c, d, a, b, send, receive, info, wait, x)
    ensures Met(s, Send(Receive(s, b, receive, wait, x).0, a, send, info, x).0, a, b, send, info)
  {
    var q := send.port;
    Running(s, c, a);
    Running(s, d, b);
    assert PortOk(s, q);
    var s1 := Receive(s, b, receive, wait, x).0;
    ReceiveKeepsWaiting(s, d, b, receive, wait, x);
    ReceiveWaits(s, d, b, receive, wait, x);
    assert SameUpToTurn(s1.P(a), s.P(a));
    assert s1.Q(q).queue == [b] && [b][1..] == [];
    SendHandsOver(s1, c, a, send, info, x);
  }

  /** Whether the sender or the receiver comes first, the same message arrives and the port is idle again. */
  lemma RendezvousOrder(s: State, c: CoreId, d: CoreId, a: Pid, b: Pid, send: Cap, receive: Cap, info: Word, wait: Word, x: Transfer)
    requires AboutToMeet(s, c, d, a, b, send, receive, info, wait, x)
    ensures var senderFirst := Receive(Send(s, a, send, info, x).0, b, receive, wait, x).0;
      var receiverFirst := Send(Receive(s, b, receive, wait, x).0, a, send, info, x).0;
      && Met(s, senderFirst, a, b, send, info) && Met(s, receiverFirst, a, b, send, info)
      && senderFirst.P(b).regs == receiverFirst.P(b).regs
  {
    SenderFirst(s, c, d, a, b, send, receive, info, wait, x);
    ReceiverFirst(s, c, d, a, b, send, receive, info, wait, x);
    HandedAlike(s.P(b).regs, Receive(Send(s, a, send, info, x).0, b, receive, wait, x).0.P(b).regs,
      Send(Receive(s, b, receive, wait, x).0, a, send, info, x).0.P(b).regs, s.P(a).regs, info, send.identifier);
  }

  lemma ReceiveKeepsWaiting(s: State, c: CoreId, owner: Pid, cap: Cap, info: Word, x: Transfer)
    requires Good(s) && s.C(c).current == Some(owner) && s.Q(cap.port).state == Wait && !s.P(owner).dstReady
    ensures Good(Receive(s, owner, cap, info, x).0)
  {
    ReceiveKeeps(s, c, owner, cap, info, x);
  }

  // ---------------------------------------------------------------- notification

  /** NOTIFY with a process waiting: the oldest waiter gets exactly the notified bits. */
  lemma NotifyReachesWaiter(s: State, c: CoreId, cap: Cap)
    requires Good(s) && cap.writable && s.N(cap.port).queue != []
    requires s.N(cap.port).bound.None? || s.P(s.N(cap.port).bound.value).status != BlockedReceive
    ensures var waiter := s.N(cap.port).queue[0]; var (t, res) := Notify(s, c, cap);
      && res.Ok? && t.N(cap.port).queue == s.N(cap.port).queue[1..] && t.N(cap.port).flag == {}
      && t.P(waiter).regs == s.P(waiter).regs[MR_FLAG_WORD := cap.identifier] && OnlyRegsOf(s, t, waiter)
      && t.P(waiter).status == Ready
  {
    var n := cap.port;
    assert NtfOk(s, n) && FlagOk(s, n);
    var waiter := s.N(n).queue[0];
    assert waiter in s.N(n).queue;
    var s1 := NotifyBits(s, n, cap.identifier);
    assert {} + cap.identifier == cap.identifier;
    var s2 := PopNtf(s1, n);
    var s3 := ConsumeBits(s2, n, waiter);
    var s4 := SetRegs(s3, waiter, s3.P(waiter).regs[MR_FLAG_WORD := cap.identifier]);
    PreemptingLeaves(s4, c, waiter);
    var t := Notify(s, c, cap).0;
    assert SameUpToTurn(t.P(waiter), MadeReady(s4, waiter).P(waiter));
    forall o: Pid | o != waiter ensures t.P(o).regs == s.P(o).regs {
      assert SameUpToTurn(t.P(o), MadeReady(s4, waiter).P(o));
    }
  }
}
