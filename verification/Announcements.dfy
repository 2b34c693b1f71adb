/** Wakeups across cores: an entry that makes a process of another core ready tells that core to look. */
module Announcements {
  import opened Common
  import opened KernelState
  import opened KernelPrimitives
  import opened ProcessManager
  import opened IpcPort
  import opened IpcInvariant
  import opened NotificationPort
  import opened ProcessControl
  import opened KernelRun
  import FP = FastPath
  import RW = ReleasedWaits
  import T = Turns
  import CE = CallEffects

  // ---------------------------------------------------------------- what it means to tell

  /** If `o` became ready and belongs to another core than `c`, that core has been told to look. */
  ghost predicate ToldOf(s: State, t: State, c: CoreId, o: Pid) {
    s.P(o).status != Ready && t.P(o).status == Ready && s.P(o).affinity != c ==> t.C(s.P(o).affinity).pending.Some?
  }

  ghost predicate Settled(s: State, t: State, c: CoreId, but: Option<Pid>, o: Pid) {
    t.P(o).affinity == s.P(o).affinity && (but == Some(o) || ToldOf(s, t, c, o))
  }

  /** No other core forgets that it was told. */
  ghost predicate Remembers(s: State, t: State, c: CoreId, d: CoreId) {
    d != c && s.C(d).pending.Some? ==> t.C(d).pending.Some?
  }

  /** Core `c` went from `s` to `t` and told the others of whom it woke, with the possible exception of one. */
  ghost predicate Tells(s: State, t: State, c: CoreId, but: Option<Pid>) {
    && (forall o: Pid :: Settled(s, t, c, but, o))
    && (forall d: CoreId :: Remembers(s, t, c, d))
  }

  lemma TellsTwice(s: State, t: State, u: State, c: CoreId, but: Option<Pid>)
    requires Tells(s, t, c, but) && Tells(t, u, c, but)
    ensures Tells(s, u, c, but)
  {
    forall d: CoreId ensures Remembers(s, u, c, d) { assert Remembers(s, t, c, d) && Remembers(t, u, c, d); }
    forall o: Pid ensures Settled(s, u, c, but, o) {
      assert Settled(s, t, c, but, o) && Settled(t, u, c, but, o) && Remembers(t, u, c, s.P(o).affinity);
    }
  }

  /** Nobody was woken but perhaps `but`, and no announcement was touched. */
  ghost predicate Quiet(s: State, t: State, but: Option<Pid>) {
    && (forall o: Pid :: t.P(o).affinity == s.P(o).affinity)
    && (forall o: Pid :: but != Some(o) && t.P(o).status == Ready ==> s.P(o).status == Ready)
    && (forall d: CoreId :: t.C(d).pending == s.C(d).pending)
  }

  lemma QuietTells(s: State, t: State, c: CoreId, but: Option<Pid>)
    requires Quiet(s, t, but)
    ensures Tells(s, t, c, but)
  {
    forall o: Pid ensures Settled(s, t, c, but, o) {}
    forall d: CoreId ensures Remembers(s, t, c, d) { assert t.C(d).pending == s.C(d).pending; }
  }

  // ---------------------------------------------------------------- scheduling

  lemma DispatchQuiet(s: State, c: CoreId)
    ensures Quiet(s, TryScheduleAndSwitch(s, c), None)
  {
    DispatchLeaves(s, c);
    var t := TryScheduleAndSwitch(s, c);
    forall o: Pid ensures t.P(o).affinity == s.P(o).affinity && t.P(o).status == s.P(o).status { assert SameUpToTurn(t.P(o), s.P(o)); }
  }

  /** Making `p` ready is told to its core, whatever happened to `p` before. */
  lemma RouteTells(s: State, s1: State, c: CoreId, p: Pid)
    requires Tells(s, s1, c, Some(p))
    ensures Tells(s, RouteMarkScheduled(s1, c, p), c, None)
  {
    var t := RouteMarkScheduled(s1, c, p);
    RouteFrame(s1, c, p);
    RoutePending(s1, c, p);
    forall d: CoreId ensures Remembers(s, t, c, d) { assert Remembers(s, s1, c, d); }
    forall o: Pid ensures Settled(s, t, c, None, o) { assert Settled(s, s1, c, Some(p), o); }
  }

  lemma RoutePending(s: State, c: CoreId, p: Pid)
    ensures var t := RouteMarkScheduled(s, c, p);
      && t.P(p).affinity == s.P(p).affinity && (s.P(p).affinity != c ==> t.C(s.P(p).affinity).pending.Some?)
      && forall d: CoreId :: s.C(d).pending.Some? ==> t.C(d).pending.Some?
  {
  }

  lemma PreemptingTells(s: State, s1: State, c: CoreId, p: Pid)
    requires Tells(s, s1, c, Some(p))
    ensures Tells(s, RouteMarkScheduledPreempting(s1, c, p), c, None)
  {
    RouteTells(s, s1, c, p);
    var s2 := MarkScheduled(s1, p);
    if s2.P(p).affinity == c {
      var t := ScheduleIfPreemptedBy(s2, c, p);
      PreemptQuiet(s2, c, p);
      QuietTells(s2, t, c, None);
      TellsTwice(s, s2, t, c, None);
    }
  }

  lemma PreemptQuiet(s: State, c: CoreId, p: Pid)
    ensures Quiet(s, ScheduleIfPreemptedBy(s, c, p), None)
  {
    PreemptLeaves(s, c, p);
    var t := ScheduleIfPreemptedBy(s, c, p);
    forall o: Pid ensures t.P(o).affinity == s.P(o).affinity && t.P(o).status == s.P(o).status { assert SameUpToTurn(t.P(o), s.P(o)); }
  }

  lemma DirectTells(s: State, s1: State, c: CoreId, p: Pid)
    requires Tells(s, s1, c, Some(p)) && s1.P(p).status == Ready
    ensures Tells(s, TryDirectScheduleAndSwitch(s1, c, p), c, None)
  {
    var t := TryDirectScheduleAndSwitch(s1, c, p);
    if s1.P(p).affinity == c {
      DirectLocal(s1, c, p);
      forall d: CoreId ensures Remembers(s, t, c, d) { assert Remembers(s, s1, c, d); }
      forall o: Pid ensures Settled(s, t, c, None, o) { assert Settled(s, s1, c, Some(p), o); }
    } else {
      RouteTells(s, s1, c, p);
      var s2 := RouteMarkScheduled(s1, c, p);
      DispatchQuiet(s2, c);
      QuietTells(s2, t, c, None);
      TellsTwice(s, s2, t, c, None);
    }
  }

  lemma DirectLocal(s: State, c: CoreId, p: Pid)
    requires s.P(p).affinity == c && s.P(p).status == Ready
    ensures var t := TryDirectScheduleAndSwitch(s, c, p);
      && (forall d: CoreId :: t.C(d).pending == s.C(d).pending)
      && (forall o: Pid :: t.P(o).status == s.P(o).status && t.P(o).affinity == s.P(o).affinity)
  {
    DirectLeaves(s, c, p);
    var t := TryDirectScheduleAndSwitch(s, c, p);
    forall o: Pid ensures t.P(o).status == s.P(o).status && t.P(o).affinity == s.P(o).affinity { assert SameUpToTurn(t.P(o), s.P(o)); }
  }

  lemma BlockTells(s: State, c: CoreId, q: PortId, st: PortState, owner: Pid)
    requires s.P(owner).affinity == c
    ensures Tells(s, Block(s, q, st, owner), c, None)
  {
    var s1 := PushIpc(s, q, st, owner);
    QuietTells(s, s1, c, None);
    DispatchQuiet(s1, c);
    QuietTells(s1, Block(s, q, st, owner), c, None);
    TellsTwice(s, s1, Block(s, q, st, owner), c, None);
  }

  // ---------------------------------------------------------------- messages

  /** `owner` blocks: first its own fields change, then it joins the queue. */
  lemma WaitTells(s: State, c: CoreId, owner: Pid, r: Proc, q: PortId, st: PortState)
    requires s.P(owner).affinity == c == r.affinity && r.status != Ready
    ensures Tells(s, Block(s.SetP(owner, r), q, st, owner), c, None)
  {
    var s1 := s.SetP(owner, r);
    QuietTells(s, s1, c, None);
    BlockTells(s1, c, q, st, owner);
    TellsTwice(s, s1, Block(s1, q, st, owner), c, None);
  }

  lemma SendTells(s: State, c: CoreId, owner: Pid, cap: Cap, info: Word, x: Transfer)
    requires Good(s) && s.C(c).current == Some(owner) && !DeliveryFails(s, owner, cap, info, x)
    ensures Tells(s, Send(s, owner, cap, info, x).0, c, None)
  {
    Running(s, c, owner);
    QuietTells(s, s, c, None);
    var q := cap.port;
    if cap.writable {
      if s.Q(q).state == ReadyToReceive {
        HeadReceiver(s, {}, None, q);
        SendMeetsTells(s, c, owner, cap, info, x);
      } else if IsBlock(info) {
        WaitTells(s, c, owner, s.P(owner).(status := BlockedSend, identifier := cap.identifier), q, ReadyToSend);
      }
    }
  }

  lemma SendMeetsTells(s: State, c: CoreId, owner: Pid, cap: Cap, info: Word, x: Transfer)
    requires s.P(owner).affinity == c && cap.writable && s.Q(cap.port).state == ReadyToReceive && s.Q(cap.port).queue != []
    requires !TransferFails(info, Buffered(s, s.Q(cap.port).queue[0], owner), x)
    ensures Tells(s, Send(s, owner, cap, info, x).0, c, None)
  {
    var q := cap.port;
    var target := s.Q(q).queue[0];
    var s1 := PopIpc(s, q);
    var s2 := s1.SetP(target, s1.P(target).(status := Ready));
    var s3 := s2.SetP(owner, s2.P(owner).(identifier := cap.identifier));
    assert Quiet(s, s3, Some(target));
    SendReceiverTells(s, s3, c, owner, q, target, info, x);
  }

  lemma SendReceiverTells(s: State, s1: State, c: CoreId, owner: Pid, q: PortId, target: Pid, info: Word, x: Transfer)
    requires Quiet(s, s1, Some(target)) && s1.P(owner).affinity == c && !TransferFails(info, Buffered(s1, target, owner), x)
    ensures Tells(s, SendReceiver(s1, owner, q, target, info, x).0, c, None)
  {
    var s2 := TransferMessage(s1, q, target, owner, info, x).0;
    assert Quiet(s, s2, Some(target));
    QuietTells(s, s2, c, Some(target));
    RouteTells(s, s2, c, target);
  }

  lemma CallTells(s: State, c: CoreId, owner: Pid, cap: Cap, info: Word, x: Transfer)
    requires Good(s) && s.C(c).current == Some(owner) && !DeliveryFails(s, owner, cap, info, x)
    ensures Tells(s, Call(s, owner, cap, info, x).0, c, None)
  {
    Running(s, c, owner);
    QuietTells(s, s, c, None);
    var q := cap.port;
    if cap.writable {
      if s.Q(q).state == ReadyToReceive {
        HeadReceiver(s, {}, None, q);
        assert ReplyOk(s, s.Q(q).queue[0]);
        CallMeetsTells(s, c, owner, cap, info, x);
      } else if IsBlock(info) {
        var s1 := TryDeliverPending(s, owner).0;
        QuietTells(s, s1, c, None);
        if !TryDeliverPending(s, owner).1 {
          WaitTells(s1, c, owner, s1.P(owner).(status := BlockedSend, srcWait := true, identifier := cap.identifier), q, ReadyToSend);
        }
      }
    }
  }

  lemma CallMeetsTells(s: State, c: CoreId, owner: Pid, cap: Cap, info: Word, x: Transfer)
    requires s.P(owner).affinity == c && cap.writable && s.Q(cap.port).state == ReadyToReceive && s.Q(cap.port).queue != []
    requires !TransferFails(info, Buffered(s, s.Q(cap.port).queue[0], owner), x)
    requires owner != s.Q(cap.port).queue[0] && !s.P(s.Q(cap.port).queue[0]).dstReady
    ensures Tells(s, Call(s, owner, cap, info, x).0, c, None)
  {
    var q := cap.port;
    var s1 := PopIpc(s, q);
    var s2 := s1.SetP(owner, s1.P(owner).(identifier := cap.identifier));
    assert Quiet(s, s2, None);
    CallReceiverTells(s, s2, c, owner, q, s.Q(q).queue[0], info, x);
  }

  lemma CallReceiverTells(s: State, s2: State, c: CoreId, owner: Pid, q: PortId, target: Pid, info: Word, x: Transfer)
    requires Quiet(s, s2, None) && s2.P(owner).affinity == c && owner != target && !s2.P(target).dstReady
    requires !TransferFails(info, Buffered(s2, target, owner), x)
    ensures Tells(s, CallReceiver(s2, owner, q, target, info, x).0, c, None)
  {
    var s3 := Link(s2, owner, target);
    var s4 := s3.SetP(owner, s3.P(owner).(status := BlockedReply));
    var s5 := TransferMessage(s4, q, target, owner, info, x).0;
    var s6 := s5.SetP(target, s5.P(target).(status := Ready));
    assert Quiet(s, s6, Some(target));
    QuietTells(s, s6, c, Some(target));
    DirectTells(s, s6, c, target);
  }

  lemma AcceptTells(s: State, c: CoreId, q: PortId, owner: Pid, sender: Pid, x: Transfer)
    requires s.P(owner).affinity == c && owner != sender && !AcceptFails(s, owner, sender, x)
    ensures Tells(s, AcceptSender(s, q, owner, sender, x).0, c, None)
  {
    QuietTells(s, s, c, None);
    if !s.P(owner).dstReady {
      if s.P(sender).fault != NoFault {
        LinkedTells(s, TransferFaultMessage(s, owner, sender).0, c, owner, sender);
      } else {
        var s1 := TransferMessage(s, q, owner, sender, s.P(sender).regs[MR_MESSAGE_INFO], x).0;
        assert Quiet(s, s1, None);
        if s.P(sender).srcWait { LinkedTells(s, s1, c, owner, sender); } else { GoesOnTells(s, s1, c, owner, sender); }
      }
    }
  }

  /** The sender goes on waiting, now for the receiver. */
  lemma LinkedTells(s: State, s1: State, c: CoreId, owner: Pid, sender: Pid)
    requires Quiet(s, s1, None)
    ensures var s2 := Link(s1, sender, owner); Tells(s, s2.SetP(sender, s2.P(sender).(status := BlockedReply)), c, None)
  {
    var s2 := Link(s1, sender, owner);
    QuietTells(s, s2.SetP(sender, s2.P(sender).(status := BlockedReply)), c, None);
  }

  lemma GoesOnTells(s: State, s1: State, c: CoreId, owner: Pid, sender: Pid)
    requires Quiet(s, s1, None) && s1.P(owner).affinity == c && owner != sender
    ensures var s2 := Forget(s1, owner); var s3 := s2.SetP(sender, s2.P(sender).(status := Ready));
      s3.P(owner).affinity == c && Tells(s, RouteMarkScheduled(s3, c, sender), c, None)
  {
    var s2 := Forget(s1, owner);
    var s3 := s2.SetP(sender, s2.P(sender).(status := Ready));
    QuietTells(s, s3, c, Some(sender));
    RouteTells(s, s3, c, sender);
  }

  lemma ReceivePartTells(s: State, c: CoreId, owner: Pid, q: PortId, info: Word, x: Transfer)
    requires s.P(owner).affinity == c && (s.Q(q).queue != [] ==> s.Q(q).queue[0] != owner) && !ReceiveFails(s, q, owner, x)
    ensures Tells(s, ReceivePart(s, owner, q, info, x).0, c, None)
  {
    QuietTells(s, s, c, None);
    if s.Q(q).state == ReadyToSend {
      if s.Q(q).queue != [] {
        var s1 := PopIpc(s, q);
        QuietTells(s, s1, c, None);
        AcceptTells(s1, c, q, owner, s.Q(q).queue[0], x);
        TellsTwice(s, s1, AcceptSender(s1, q, owner, s.Q(q).queue[0], x).0, c, None);
      }
    } else {
      var (s1, delivered) := TryDeliverPending(s, owner);
      QuietTells(s, s1, c, None);
      if !delivered && IsBlock(info) {
        WaitTells(s1, c, owner, s1.P(owner).(status := BlockedReceive), q, ReadyToReceive);
        TellsTwice(s, s1, ReceivePart(s, owner, q, info, x).0, c, None);
      }
    }
  }

  /** RECEIVE may wake the caller it does not answer without telling anybody; everybody else is told of. */
  lemma ReceiveTells(s: State, c: CoreId, owner: Pid, cap: Cap, info: Word, x: Transfer)
    requires Good(s) && s.C(c).current == Some(owner) && (cap.readable ==> !ReceiveFails(s, cap.port, owner, x))
    ensures Tells(s, Receive(s, owner, cap, info, x).0, c, if cap.readable then s.P(owner).dstTarget else None)
  {
    Running(s, c, owner);
    QuietTells(s, s, c, None);
    if cap.readable {
      var q := cap.port;
      var s1 := DiscardCaller(s, owner);
      var but := s.P(owner).dstTarget;
      assert ReplyOk(s, owner) && PortOk(s, q);
      DiscardQuiet(s, c, owner);
      QuietTells(s, s1, c, but);
      DiscardSparesSenders(s, c, owner, q, x);
      if s.Q(q).queue != [] { assert s.Q(q).queue[0] in s.Q(q).queue; }
      ReceivePartTells(s1, c, owner, q, info, x);
      Except(s1, ReceivePart(s1, owner, q, info, x).0, c, but);
      TellsTwice(s, s1, ReceivePart(s1, owner, q, info, x).0, c, but);
    }
  }

  lemma Except(s: State, t: State, c: CoreId, but: Option<Pid>)
    requires Tells(s, t, c, None)
    ensures Tells(s, t, c, but)
  {
    forall o: Pid ensures Settled(s, t, c, but, o) { assert Settled(s, t, c, None, o); }
  }

  lemma DiscardQuiet(s: State, c: CoreId, owner: Pid)
    requires Good(s) && s.C(c).current == Some(owner)
    ensures Quiet(s, DiscardCaller(s, owner), s.P(owner).dstTarget)
  {
    assert ReplyOk(s, owner);
    if s.P(owner).dstReady {
      RW.DiscardReleases(s, c, owner);
      var t := DiscardCaller(s, owner);
      var client := s.P(owner).dstTarget.value;
      forall o: Pid ensures t.P(o).affinity == s.P(o).affinity && (o != client ==> t.P(o).status == s.P(o).status) {
        assert t.P(o) == if o in [client] then RW.Ended(Forget(s, owner).P(o)) else Forget(s, owner).P(o);
      }
    }
  }

  lemma CompleteReplyTells(s: State, c: CoreId, owner: Pid, info: Word, x: Transfer)
    requires Good(s) && s.C(c).current == Some(owner)
    ensures Tells(s, CompleteReply(s, owner, info, x, true).0, c, None)
  {
    Running(s, c, owner);
    assert ReplyOk(s, owner);
    QuietTells(s, s, c, None);
    if s.P(owner).dstReady {
      var client := s.P(owner).dstTarget.value;
      assert ReplyOk(s, client);
      if s.P(client).fault != NoFault {
        FaultReplyTells(s, c, owner, client, info, x);
      } else {
        AnswerTells(s, c, owner, client, info, x);
      }
    }
  }

  lemma FaultReplyTells(s: State, c: CoreId, owner: Pid, client: Pid, info: Word, x: Transfer)
    requires s.P(owner).affinity == c && s.P(owner).dstReady && s.P(owner).dstTarget == Some(client) && s.P(client).fault != NoFault
    ensures Tells(s, CompleteReply(s, owner, info, x, true).0, c, None)
  {
    var s1 := SetRegs(s, client, ReplyRegisters(s, owner, client, info));
    QuietTells(s, s1, c, None);
    var s2 := Forget(s1.SetP(client, s1.P(client).(status := Ready, srcWait := false, srcTarget := None, fault := NoFault)), owner);
    assert Quiet(s, s2, Some(client));
    QuietTells(s, s2, c, Some(client));
    RouteTells(s, s2, c, client);
  }

  lemma AnswerTells(s: State, c: CoreId, owner: Pid, client: Pid, info: Word, x: Transfer)
    requires s.P(owner).affinity == c && s.P(owner).dstReady && s.P(owner).dstTarget == Some(client) && s.P(client).fault == NoFault
    ensures Tells(s, CompleteReply(s, owner, info, x, true).0, c, None)
  {
    var (s1, res) := TransferDirectMessage(s, client, owner, info, x);
    QuietTells(s, s1, c, None);
    if res.Ok? {
      var s2 := Forget(s1.SetP(client, s1.P(client).(status := Ready, srcWait := false, srcTarget := None)), owner);
      assert Quiet(s, s2, Some(client));
      QuietTells(s, s2, c, Some(client));
      RouteTells(s, s2, c, client);
    }
  }

  lemma ReplyTells(s: State, c: CoreId, owner: Pid, info: Word, x: Transfer)
    requires Good(s) && s.C(c).current == Some(owner)
    ensures Tells(s, Reply(s, owner, info, x).0, c, None)
  {
    Running(s, c, owner);
    QuietTells(s, s, c, None);
    if s.P(owner).dstReady {
      CompleteReplyTells(s, c, owner, info, x);
      var (s1, res) := CompleteReply(s, owner, info, x, true);
      if res.Ok? {
        assert Settled(s, s1, c, None, owner);
        var s2 := s1.SetP(owner, s1.P(owner).(status := Ready));
        QuietTells(s1, s2, c, Some(owner));
        DirectTells(s1, s2, c, owner);
        TellsTwice(s, s1, Reply(s, owner, info, x).0, c, None);
      }
    }
  }

  lemma ReplyReceiveTells(s: State, c: CoreId, owner: Pid, cap: Cap, info: Word, x: Transfer, y: Transfer)
    requires Good(s) && s.C(c).current == Some(owner)
    requires cap.readable && CompleteReply(s, owner, info, x, true).1.Ok? ==> !ReceiveFails(s, cap.port, owner, y)
    ensures Tells(s, ReplyReceive(s, owner, cap, info, x, y).0, c, None)
  {
    QuietTells(s, s, c, None);
    if cap.readable {
      if FastReply(s, owner, cap.port, info) {
        FastTells(s, c, owner, cap.port, info, x);
      } else {
        SlowTells(s, c, owner, cap.port, info, x, y);
      }
    }
  }

  lemma SlowTells(s: State, c: CoreId, owner: Pid, q: PortId, info: Word, x: Transfer, y: Transfer)
    requires Good(s) && s.C(c).current == Some(owner)
    requires CompleteReply(s, owner, info, x, true).1.Ok? ==> !ReceiveFails(s, q, owner, y)
    ensures Tells(s, ReplyReceiveSlow(s, owner, q, info, x, y).0, c, None)
  {
    Running(s, c, owner);
    CompleteReplyTells(s, c, owner, info, x);
    var (s1, res) := CompleteReply(s, owner, info, x, true);
    if res.Ok? {
      SendersUntouched(s, c, owner, q, info, x, y);
      assert ReplyOk(s, owner);
      ReplyFrame(s, owner, info, x, true);
      assert PortOk(s, q) && Settled(s, s1, c, None, owner);
      if s.Q(q).queue != [] { assert s.Q(q).queue[0] in s.Q(q).queue; }
      ReceivePartTells(s1, c, owner, q, info, y);
      TellsTwice(s, s1, ReceivePart(s1, owner, q, info, y).0, c, None);
    }
  }

  /** The fast path wakes a caller of its own core. */
  lemma FastTells(s: State, c: CoreId, owner: Pid, q: PortId, info: Word, x: Transfer)
    requires Good(s) && s.C(c).current == Some(owner) && FastReply(s, owner, q, info)
    ensures Tells(s, ReplyReceiveFast(s, owner, q, info, x).0, c, None)
  {
    var client := s.P(owner).dstTarget.value;
    var (s1, res) := CompleteReply(s, owner, info, x, false);
    CompletedQuiet(s, owner, client, info, x);
    if res.Err? {
      QuietTells(s, s1, c, None);
    } else {
      FP.FastIsDirect(s, c, owner, q, info, x);
      var m := FP.Replied(s, owner, q, info, x);
      BlockedQuiet(s, s1, owner, client, q);
      QuietTells(s, m, c, Some(client));
      DirectTells(s, m, c, client);
    }
  }

  lemma CompletedQuiet(s: State, owner: Pid, client: Pid, info: Word, x: Transfer)
    requires s.P(owner).dstReady && s.P(owner).dstTarget == Some(client) && s.P(client).fault == NoFault
    ensures var (t, res) := CompleteReply(s, owner, info, x, false); Quiet(s, t, if res.Ok? then Some(client) else None)
  {
  }

  lemma BlockedQuiet(s: State, s1: State, owner: Pid, client: Pid, q: PortId)
    requires Quiet(s, s1, Some(client))
    ensures Quiet(s, PushIpc(s1.SetP(owner, s1.P(owner).(status := BlockedReceive)), q, ReadyToReceive, owner), Some(client))
  {
  }

  // ---------------------------------------------------------------- notifications and faults

  lemma NotifyTells(s: State, c: CoreId, cap: Cap)
    requires Good(s)
    ensures Tells(s, Notify(s, c, cap).0, c, None)
  {
    QuietTells(s, s, c, None);
    if cap.writable {
      if Recipient(s, cap.port).Some? {
        var p := Recipient(s, cap.port).value;
        T.NotifyIs(s, c, cap, p);
        ToldQuiet(s, cap, p);
        QuietTells(s, T.Told(s, cap, p), c, Some(p));
        PreemptingTells(s, T.Told(s, cap, p), c, p);
      } else {
        NotifyKeeps(s, c, cap);
        QuietTells(s, NotifyBits(s, cap.port, cap.identifier), c, None);
      }
    }
  }

  lemma ToldQuiet(s: State, cap: Cap, p: Pid)
    ensures Quiet(s, T.Told(s, cap, p), Some(p))
  {
  }

  lemma WaitFlagTells(s: State, c: CoreId, owner: Pid, cap: Cap)
    requires Good(s) && s.C(c).current == Some(owner)
    ensures Tells(s, WaitFlag(s, owner, cap).0, c, None)
  {
    Running(s, c, owner);
    var n := cap.port;
    QuietTells(s, s, c, None);
    QuietTells(s, TakeFlag(s, n, owner), c, None);
    var s1 := PushNtf(s.SetP(owner, s.P(owner).(status := BlockedWait)), n, owner);
    QuietTells(s, s1, c, None);
    DispatchQuiet(s1, c);
    QuietTells(s1, TryScheduleAndSwitch(s1, c), c, None);
    TellsTwice(s, s1, TryScheduleAndSwitch(s1, c), c, None);
  }

  lemma FaultTells(s: State, c: CoreId, fault: Fault)
    requires Good(s) && fault != NoFault && (s.C(c).current.Some? ==> !FaultLost(s, s.C(c).current.value, fault))
    ensures Tells(s, HandleFault(s, c, fault), c, None)
  {
    QuietTells(s, s, c, None);
    if s.C(c).current.Some? {
      var p := s.C(c).current.value;
      Running(s, c, p);
      if !CE.Resolvable(s, p) {
        SuspendedTells(s, c, p, fault);
      } else if s.Q(s.P(p).resolver.value.port).state == ReadyToReceive {
        FaultMeetsTells(s, c, p, fault, s.P(p).resolver.value);
      } else {
        var cap := s.P(p).resolver.value;
        var r := s.P(p).(fault := fault, status := BlockedFault, srcWait := true, identifier := cap.identifier);
        WaitTells(s, c, p, r, cap.port, ReadyToSend);
        var s1 := s.SetP(p, s.P(p).(fault := fault));
        assert s1.procs[p := r] == s.procs[p := r];
        assert s1.SetP(p, r) == s.SetP(p, r);
      }
    }
  }

  lemma SuspendedTells(s: State, c: CoreId, p: Pid, fault: Fault)
    requires s.C(c).current == Some(p) && !CE.Resolvable(s, p) && Good(s)
    ensures Tells(s, HandleFault(s, c, fault), c, None)
  {
    var r := s.P(p).(fault := fault, status := BlockedSuspend);
    CE.FaultSuspendsIs(s, c, p, fault);
    QuietTells(s, s.SetP(p, r), c, None);
    DispatchQuiet(s.SetP(p, r), c);
    QuietTells(s.SetP(p, r), TryScheduleAndSwitch(s.SetP(p, r), c), c, None);
    TellsTwice(s, s.SetP(p, r), TryScheduleAndSwitch(s.SetP(p, r), c), c, None);
  }

  lemma FaultMeetsTells(s: State, c: CoreId, p: Pid, fault: Fault, cap: Resolver)
    requires Good(s) && s.C(c).current == Some(p) && fault != NoFault && !FaultLost(s, p, fault)
    requires s.P(p).resolver == Some(cap) && cap.readable && cap.writable && s.Q(cap.port).state == ReadyToReceive
    ensures Tells(s, HandleFault(s, c, fault), c, None)
  {
    Running(s, c, p);
    HeadReceiver(s, {}, None, cap.port);
    var target := s.Q(cap.port).queue[0];
    assert ReplyOk(s, target);
    var s1 := CE.Faulted(s, p, fault, cap);
    FaultedQuiet(s, p, fault, cap);
    FaultReceiverTells(s, s1, c, p, cap.port, target);
    CE.FaultReaches(s, c, p, fault, cap);
  }

  lemma FaultedQuiet(s: State, p: Pid, fault: Fault, cap: Resolver)
    requires s.Q(cap.port).queue != [] && s.Q(cap.port).queue[0] != p
    ensures var t := CE.Faulted(s, p, fault, cap); var target := s.Q(cap.port).queue[0];
      && Quiet(s, t, None) && t.P(p).fault == fault && t.P(target).hasBuffer == s.P(target).hasBuffer
      && t.P(target).dstReady == s.P(target).dstReady
  {
  }

  lemma FaultReceiverTells(s: State, s1: State, c: CoreId, p: Pid, q: PortId, target: Pid)
    requires Quiet(s, s1, None) && s1.P(p).affinity == c && p != target && !s1.P(target).dstReady
    requires !FaultTransferFails(s1.P(p).fault, s1.P(target).hasBuffer)
    ensures var (t, res) := FaultReceiver(s1, p, q, target); res.Ok? && Tells(s, t, c, None)
  {
    var s2 := TransferFaultMessage(Link(s1, p, target), target, p).0;
    var s3 := s2.SetP(target, s2.P(target).(status := Ready));
    assert Quiet(s, s3, Some(target));
    QuietTells(s, s3, c, Some(target));
    DirectTells(s, s3, c, target);
  }

  // ---------------------------------------------------------------- process control and turns

  lemma ResumeTells(s: State, c: CoreId, p: Pid)
    requires Good(s)
    ensures Tells(s, Resume(s, c, p).0, c, None)
  {
    QuietTells(s, s, c, None);
    if !RunsOnAssignedCore(s, p) {
      DetachQuiet(s, p);
      ReadiedQuiet(s, Detach(s, p), p);
      var s1 := ClearFault(CancelOwnWait(s, p), p);
      var s2 := s1.SetP(p, s1.P(p).(status := Ready));
      QuietTells(s, s2, c, Some(p));
      RouteTells(s, s2, c, p);
    }
  }

  lemma ReadiedQuiet(s: State, s1: State, p: Pid)
    requires Quiet(s, s1, None)
    ensures var s2 := ClearFault(CancelReply(s1, p), p); Quiet(s, s2.SetP(p, s2.P(p).(status := Ready)), Some(p))
  {
    var s2 := CancelReply(s1, p);
    forall o: Pid ensures s2.P(o).affinity == s1.P(o).affinity && s2.P(o).status == s1.P(o).status {}
  }

  lemma DetachQuiet(s: State, p: Pid)
    ensures Quiet(s, Detach(s, p), None)
  {
  }

  /** An entry that only gives turns wakes nobody. */
  lemma TurnsWakeNobody(s: State, e: Entry, o: Pid)
    requires Good(s) && (e.YieldCall? || e.TimerTick? || e.Reschedule?)
    ensures Step(s, e).P(o).status == s.P(o).status
  {
    match e
    case YieldCall(c) => YieldWakesNobody(s, c, o);
    case TimerTick(c) => TimerWakesNobody(s, c, o);
    case Reschedule(c) => RescheduleWakesNobody(s, c, o);
    case _ =>
  }

  lemma YieldWakesNobody(s: State, c: CoreId, o: Pid)
    requires Good(s)
    ensures Yield(s, c).P(o).status == s.P(o).status
  {
    T.YieldEffect(s, c);
  }

  lemma TimerWakesNobody(s: State, c: CoreId, o: Pid)
    requires Good(s)
    ensures Timer(s, c).P(o).status == s.P(o).status
  {
    T.TimerEffect(s, c);
  }

  lemma RescheduleWakesNobody(s: State, c: CoreId, o: Pid)
    requires Good(s)
    ensures RescheduleIpi(s, c).P(o).status == s.P(o).status
  {
    T.RescheduleEffect(s, c);
  }

  /** Whom the teardown of `p` may concern: `p` itself, the caller it was serving, and its own server, who stays as it is. */
  lemma RevokeProcessWakesNobody(s: State, p: Pid, o: Pid)
    requires Good(s) && s.P(p).dstTarget != Some(o)
    ensures RevokeProcess(s, p).P(o).status == Ready ==> s.P(o).status == Ready
  {
    StopDetachKeeps(s, p);
    var s1 := Detach(StopProcess(s, p), p);
    ReleaseCallerKeeps(s1, p);
    FinishTeardown(ReleaseCaller(s1, p), p);
    if o == p {
      CE.RevokeProcessEffect(s, p);
    } else {
      ReleaseLeaves(s1, p, o);
    }
  }

  lemma ReleaseLeaves(s: State, p: Pid, o: Pid)
    requires o != p && s.P(p).dstTarget != Some(o)
    ensures ReleaseCaller(s, p).P(o).status == s.P(o).status
  {
  }

  // ---------------------------------------------------------------- every entry

  /** The call ends the wait of `o` without a reply: the port or the server it waited for goes, or the server receives anew. */
  ghost predicate EndsWait(s: State, owner: Pid, r: Request, o: Pid) {
    match r
    case ReqReceive(cap, _) => cap.readable && s.P(owner).dstTarget == Some(o)
    case ReqRevokePort(q) => o in s.Q(q).queue
    case ReqRevokeNtf(n) => o in s.N(n).queue
    case ReqRevokeProcess(p) => s.P(p).dstTarget == Some(o)
    case _ => false
  }

  ghost predicate EndsWaitOf(s: State, e: Entry, o: Pid) {
    e.CapabilityCall? && s.C(e.core).current.Some? && EndsWait(s, s.C(e.core).current.value, e.request, o)
  }

  lemma MessageTells(s: State, c: CoreId, owner: Pid, r: Request, o: Pid)
    requires Good(s) && s.C(c).current == Some(owner) && IsMessage(r) && !CallBreaks(s, owner, r) && !EndsWait(s, owner, r, o)
    ensures ToldOf(s, ExecuteMessage(s, owner, r).0, c, o)
  {
    var info := Info(s, owner);
    if Normal(info) {
      assert ReplyOk(s, owner);
      match r
      case ReqSend(cap, x) =>
        SendTells(s, c, owner, cap, info, x);
        assert Settled(s, Send(s, owner, cap, info, x).0, c, None, o);
      case ReqReceive(cap, x) =>
        ReceiveTells(s, c, owner, cap, info, x);
        assert Settled(s, Receive(s, owner, cap, info, x).0, c, if cap.readable then s.P(owner).dstTarget else None, o);
      case ReqCall(cap, x) =>
        CallTells(s, c, owner, cap, info, x);
        assert Settled(s, Call(s, owner, cap, info, x).0, c, None, o);
      case ReqReply(x) =>
        ReplyTells(s, c, owner, info, x);
        assert Settled(s, Reply(s, owner, info, x).0, c, None, o);
      case ReqReplyReceive(cap, x, y) =>
        ReplyOutcome(s, owner, info, x);
        ReplyReceiveTells(s, c, owner, cap, info, x, y);
        assert Settled(s, ReplyReceive(s, owner, cap, info, x, y).0, c, None, o);
    }
  }

  lemma ConfigureWakesNobody(s: State, owner: Pid, r: Request, o: Pid)
    requires IsConfigure(r)
    ensures ExecuteConfigure(s, owner, r).0.P(o).status == s.P(o).status
  {
  }

  lemma RevokePortWakes(s: State, q: PortId, o: Pid)
    requires Good(s) && o !in s.Q(q).queue
    ensures RevokePort(s, q).P(o) == s.P(o)
  {
    RW.RevokePortReleases(s, q);
  }

  lemma RevokeNtfWakes(s: State, n: NtfId, o: Pid)
    requires Good(s) && o !in s.N(n).queue
    ensures RevokeNtf(s, n).P(o).status == s.P(o).status
  {
    RW.RevokeNtfReleases(s, n);
    assert RevokeNtf(s, n).P(o) == RW.Unbound(s, n).P(o);
  }

  lemma SuspendWakesNobody(s: State, p: Pid, o: Pid)
    requires Good(s)
    ensures Suspend(s, p).P(o).status == Ready ==> s.P(o).status == Ready
  {
    CE.SuspendEffect(s, p);
  }

  lemma ExecuteTells(s: State, c: CoreId, owner: Pid, r: Request, o: Pid)
    requires Good(s) && s.C(c).current == Some(owner) && !CallBreaks(s, owner, r) && !EndsWait(s, owner, r, o)
    ensures ToldOf(s, Execute(s, c, owner, r).0, c, o)
  {
    if IsMessage(r) {
      MessageTells(s, c, owner, r, o);
    } else if IsConfigure(r) {
      ConfigureWakesNobody(s, owner, r, o);
    } else {
      match r
      case ReqNotify(cap) =>
        NotifyTells(s, c, cap);
        assert Settled(s, Notify(s, c, cap).0, c, None, o);
      case ReqWait(cap) =>
        WaitFlagTells(s, c, owner, cap);
        assert Settled(s, WaitFlag(s, owner, cap).0, c, None, o);
      case ReqPoll(cap) => PollWakesNobody(s, owner, cap, o);
      case ReqResume(p) =>
        ResumeTells(s, c, p);
        assert Settled(s, Resume(s, c, p).0, c, None, o);
      case ReqSuspend(p) => SuspendWakesNobody(s, p, o);
      case ReqRevokePort(q) => RevokePortWakes(s, q, o);
      case ReqRevokeNtf(n) => RevokeNtfWakes(s, n, o);
      case ReqRevokeProcess(p) => RevokeProcessWakesNobody(s, p, o);
    }
  }

  lemma PollWakesNobody(s: State, owner: Pid, cap: Cap, o: Pid)
    ensures Poll(s, owner, cap).0.P(o).status == s.P(o).status
  {
  }

  /**
   Whatever the entry, a process of another core that it makes ready is announced to that core, or the core had an
   announcement to look at already. The exception are processes whose wait is ended without a reply.
   */
  lemma WakeupsAreAnnounced(s: State, e: Entry, o: Pid)
    requires Good(s) && !Breaks(s, e) && !EndsWaitOf(s, e, o)
    ensures ToldOf(s, Step(s, e), e.core, o)
  {
    match e
    case CapabilityCall(c, r) =>
      if s.C(c).current.Some? {
        var owner := s.C(c).current.value;
        ExecuteTells(s, c, owner, r, o);
        Reported(s, Execute(s, c, owner, r).0, c, owner, Execute(s, c, owner, r).1, o);
      }
    case FaultEntry(c, fault) =>
      FaultTells(s, c, fault);
      assert Settled(s, HandleFault(s, c, fault), c, None, o);
    case Irq(c, cap) =>
      NotifyTells(s, c, cap);
      assert Settled(s, Notify(s, c, cap).0, c, None, o);
    case UserCode(c, regs) =>
    case _ => TurnsWakeNobody(s, e, o);
  }

  lemma Reported(s: State, t: State, c: CoreId, owner: Pid, res: Outcome, o: Pid)
    requires ToldOf(s, t, c, o)
    ensures ToldOf(s, Finish(t, owner, res), c, o)
  {
  }

  /** A released waiter of another core is ready without anybody having told that core. */
  lemma ReleasesAreSilent(s: State, q: PortId, o: Pid)
    requires Good(s) && o in s.Q(q).queue && s.P(o).fault == NoFault
    ensures var t := RevokePort(s, q); var d := s.P(o).affinity;
      t.P(o).status == Ready && t.C(d).pending == s.C(d).pending && o in t.C(d).ready[s.P(o).priority]
  {
    RW.RevokePortReleases(s, q);
    RW.ReleasedMeans(s, RevokePort(s, q), s.Q(q).queue, o);
  }

  /** The same at every entry of every run. */
  lemma WakeupsAreAnnouncedInRuns(s: State, es: seq<Entry>, i: nat, o: Pid)
    requires Good(s) && Orderly(s, es) && i < |es| && !EndsWaitOf(After(s, es[..i]), es[i], o)
    ensures ToldOf(After(s, es[..i]), After(s, es[..i + 1]), es[i].core, o)
  {
    RunsStayGood(s, es, i);
    AfterStep(s, es, i);
    WakeupsAreAnnounced(After(s, es[..i]), es[i], o);
  }
}
