/** Who runs after a CALL and after a REPLY: the core goes with the message, unless something more urgent is ready. */
module HandOff {
  import opened Common
  import opened KernelState
  import opened KernelPrimitives
  import opened ProcessManager
  import opened IpcPort
  import opened IpcInvariant
  import opened Turns

  /** Nothing about the ready queues changed. */
  ghost predicate SameQueues(s: State, t: State) {
    && (forall c: CoreId :: t.C(c).ready == s.C(c).ready && t.C(c).highest == s.C(c).highest)
    && (forall p: Pid :: SameReady(s.P(p), t.P(p)))
  }

  /** CALL to a waiting receiver of the same core: the receiver runs next if and only if nothing more urgent is ready. */
  lemma CallGivesCore(s: State, c: CoreId, owner: Pid, cap: Cap, info: Word, x: Transfer)
    requires Good(s) && s.C(c).current == Some(owner)
    requires cap.writable && s.Q(cap.port).state == ReadyToReceive && !DeliveryFails(s, owner, cap, info, x)
    ensures s.Q(cap.port).queue != []
    ensures var target := s.Q(cap.port).queue[0]; var t := Call(s, owner, cap, info, x).0;
      s.P(target).affinity == c ==> (t.C(c).current == Some(target) <==> NothingAbove(s.C(c), s.P(target).priority))
  {
    var q := cap.port;
    HeadReceiver(s, {}, None, q);
    Running(s, c, owner);
    var target := s.Q(q).queue[0];
    assert PlaceOk(s, {}, None, target) && ReplyOk(s, target);
    if s.P(target).affinity == c {
      var s1 := PopIpc(s, q);
      var s2 := s1.SetP(owner, s1.P(owner).(identifier := cap.identifier));
      ReceiverRuns(s, s2, c, owner, q, target, info, x);
    }
  }

  lemma ReceiverRuns(s: State, s2: State, c: CoreId, owner: Pid, q: PortId, target: Pid, info: Word, x: Transfer)
    requires ReadySeats(s) && SameQueues(s, s2) && owner != target && !s2.P(target).dstReady
    requires s2.P(owner).affinity == c == s2.P(target).affinity && !s2.P(target).inReady && s2.P(target).priority == s.P(target).priority
    requires !TransferFails(info, Buffered(s2, target, owner), x)
    ensures CallReceiver(s2, owner, q, target, info, x).0.C(c).current == Some(target) <==> NothingAbove(s.C(c), s.P(target).priority)
  {
    var s3 := Link(s2, owner, target);
    var s4 := s3.SetP(owner, s3.P(owner).(status := BlockedReply));
    var s5 := TransferMessage(s4, q, target, owner, info, x).0;
    var s6 := s5.SetP(target, s5.P(target).(status := Ready));
    assert SameQueues(s, s6);
    KeepReady(s, s6);
    DirectEffect(s6, c, target);
  }

  /** The caller, made ready by the reply, is more urgent than the server on the same core. */
  ghost predicate Overtakes(s: State, c: CoreId, owner: Pid, client: Pid) {
    s.P(client).affinity == c && s.P(client).priority > s.P(owner).priority
  }

  /** REPLY: the server runs on if and only if nothing more urgent is ready, the caller it answered included. */
  lemma ReplyKeepsCore(s: State, c: CoreId, owner: Pid, client: Pid, info: Word, x: Transfer)
    requires Good(s) && s.C(c).current == Some(owner) && s.P(owner).dstTarget == Some(client)
    requires s.P(client).fault == NoFault && !TransferFails(info, Buffered(s, client, owner), x)
    ensures Reply(s, owner, info, x).0.C(c).current == Some(owner) <==>
      NothingAbove(s.C(c), s.P(owner).priority) && !Overtakes(s, c, owner, client)
  {
    Running(s, c, owner);
    assert ReplyOk(s, owner) && ReplyOk(s, client);
    Awaiting(s, {}, None, client);
    var s1 := Answered(s, owner, client, info, x);
    AnsweredIs(s, owner, client, info, x);
    KeepReady(s, s1);
    ReplyIs(s, owner, client, info, x);
    ServerRunsOn(s1, c, owner, client);
  }

  /** The answer is given; the caller is not yet queued. */
  ghost function Answered(s: State, owner: Pid, client: Pid, info: Word, x: Transfer): State {
    var s1 := TransferDirectMessage(s, client, owner, info, x).0;
    Forget(s1.SetP(client, s1.P(client).(status := Ready, srcWait := false, srcTarget := None)), owner)
  }

  lemma AnsweredIs(s: State, owner: Pid, client: Pid, info: Word, x: Transfer)
    requires owner != client
    ensures var t := Answered(s, owner, client, info, x);
      && SameQueues(s, t) && t.cores == s.cores && t.P(owner) == s.P(owner).(dstReady := false, dstTarget := None)
      && t.P(client).affinity == s.P(client).affinity && t.P(client).priority == s.P(client).priority
  {
  }

  lemma ReplyIs(s: State, owner: Pid, client: Pid, info: Word, x: Transfer)
    requires s.P(owner).dstReady && s.P(owner).dstTarget == Some(client) && owner != client
    requires s.P(client).fault == NoFault && !TransferFails(info, Buffered(s, client, owner), x)
    ensures var c := s.P(owner).affinity;
      var s1 := RouteMarkScheduled(Answered(s, owner, client, info, x), c, client);
      s1.P(owner).affinity == c
      && Reply(s, owner, info, x).0 == TryDirectScheduleAndSwitch(s1.SetP(owner, s1.P(owner).(status := Ready)), c, owner)
  {
    var c := s.P(owner).affinity;
    RouteFrame(Answered(s, owner, client, info, x), c, client);
    assert CompleteReply(s, owner, info, x, true) == (RouteMarkScheduled(Answered(s, owner, client, info, x), c, client), Ok);
  }

  lemma ServerRunsOn(s: State, c: CoreId, owner: Pid, client: Pid)
    requires ReadySeats(s) && owner != client && s.P(owner).affinity == c && !s.P(owner).inReady && !s.P(client).inReady
    requires s.P(owner).status == Ready
    ensures var s1 := RouteMarkScheduled(s, c, client);
      var s2 := s1.SetP(owner, s1.P(owner).(status := Ready));
      TryDirectScheduleAndSwitch(s2, c, owner).C(c).current == Some(owner) <==>
        NothingAbove(s.C(c), s.P(owner).priority) && !Overtakes(s, c, owner, client)
  {
    var s1 := RouteMarkScheduled(s, c, client);
    RouteEffect(s, c, client);
    RoutedSeats(s, c, client);
    assert s1.SetP(owner, s1.P(owner).(status := Ready)).procs == s1.procs;
    assert s1.SetP(owner, s1.P(owner).(status := Ready)) == s1;
    DirectEffect(s1, c, owner);
    OneMoreReady(s.C(c), s1.C(c), s.P(owner).priority, s.P(client).priority, client, s.P(client).affinity == c);
  }

  lemma OneMoreReady(a: Core, b: Core, k: Priority, i: Priority, p: Pid, here: bool)
    requires if here then b.ready == a.ready[i := a.ready[i] + [p]] else b.ready == a.ready
    ensures NothingAbove(b, k) <==> NothingAbove(a, k) && !(here && i > k)
  {
    if here && i > k { assert b.ready[i] != []; }
    if here && i <= k {
      forall j: Priority | j > k ensures b.ready[j] == a.ready[j] {}
    }
  }

  lemma RoutedSeats(s: State, c: CoreId, p: Pid)
    requires ReadySeats(s) && !s.P(p).inReady
    ensures ReadySeats(RouteMarkScheduled(s, c, p))
  {
    var s1 := s.SetP(p, s.P(p).(quantum := QUANTUM_MAX, status := Ready));
    KeepReady(s, s1);
    EnqueueSeats(s1, p);
    KeepReady(Enqueue(s1, p), RouteMarkScheduled(s, c, p));
  }
}
