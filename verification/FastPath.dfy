/** The fast path of REPLY_RECEIVE against its slow path. */
module FastPath {
  import opened Common
  import opened KernelState
  import opened ReadyQueues
  import opened KernelPrimitives
  import opened ProcessManager
  import opened IpcPort
  import opened IpcInvariant
  import opened KernelProperties

  ghost predicate RunsOrReady(s: State, c: CoreId, p: Pid) {
    s.C(c).current == Some(p) || exists k: Priority :: p in s.C(c).ready[k]
  }

  /** Same messages, links, ports and other cores; the same processes able to run on core `c`. */
  ghost predicate SameUpToTurns(a: State, b: State, c: CoreId) {
    && a.ports == b.ports && a.ntfs == b.ntfs
    && (forall p: Pid :: SameUpToTurn(a.P(p), b.P(p)))
    && (forall d: CoreId :: d != c ==> a.C(d) == b.C(d))
    && (forall p: Pid :: RunsOrReady(a, c, p) <==> RunsOrReady(b, c, p))
  }

  /** The process in transit becomes ready first, and then the core chooses. */
  function EnqueueThenDispatch(s: State, c: CoreId, p: Pid): State {
    TryScheduleAndSwitch(MarkScheduled(s, p), c)
  }

  ghost predicate SameChoice(a: State, b: State, c: CoreId) {
    a.C(c).current == b.C(c).current && a.C(c).ready == b.C(c).ready
  }

  /** Giving the core to `p` directly, or queueing `p` and choosing, come to the same up to round-robin order. */
  lemma DirectRefinesQueueing(s: State, c: CoreId, p: Pid)
    requires Inv(s, {p}, Some(c)) && Runnable(s.P(p)) && s.P(p).affinity == c
    ensures var f := TryDirectScheduleAndSwitch(s, c, p);
      var g := EnqueueThenDispatch(s, c, p);
      && SameUpToTurns(f, g, c)
      && f.C(c).current.Some? && g.C(c).current.Some?
      && f.P(f.C(c).current.value).priority == g.P(g.C(c).current.value).priority
      && (s.C(c).ready[s.P(p).priority] == [] ==> SameChoice(f, g, c))
  {
    assert PlaceOk(s, {p}, Some(c), p);
    var top := Top(s.C(c).ready, s.C(c).highest);
    if top > s.P(p).priority {
      assert QueueOk(s, c, s.P(p).priority);
      MoreUrgentWins(s, c, p, top);
    } else {
      NothingMoreUrgent(s, c, p);
    }
  }

  lemma MoreUrgentWins(s: State, c: CoreId, p: Pid, top: Priority)
    requires Inv(s, {p}, Some(c)) && Runnable(s.P(p)) && s.P(p).affinity == c
    requires top > s.P(p).priority && top == Top(s.C(c).ready, s.C(c).highest)
    ensures var f := TryDirectScheduleAndSwitch(s, c, p);
      var g := EnqueueThenDispatch(s, c, p);
      && SameUpToTurns(f, g, c)
      && f.C(c) == g.C(c) && f.C(c).current == Some(s.C(c).ready[top][0])
      && f.P(s.C(c).ready[top][0]).priority == g.P(s.C(c).ready[top][0]).priority
  {
    assert PlaceOk(s, {p}, Some(c), p);
    var k := s.P(p).priority;
    var f := TryDirectScheduleAndSwitch(s, c, p);
    var g := EnqueueThenDispatch(s, c, p);
    var h := Tighten(s.C(c).ready, s.C(c).highest, k);
    assert h == top;
    var head := s.C(c).ready[top][0];
    assert head in s.C(c).ready[top] && QueueOk(s, c, top);
    var a := Enqueue(SetHighest(s, c, h), p);
    var b := MarkScheduled(s, p);
    assert a.C(c).ready == b.C(c).ready;
    assert a.C(c).ready[top] == s.C(c).ready[top];
    assert Top(a.C(c).ready, a.C(c).highest) == top;
    assert Top(b.C(c).ready, b.C(c).highest) == top;
    assert f == SwitchTo(Dequeue(a, c, top), c, Some(head));
    assert g == SwitchTo(Dequeue(b, c, top), c, Some(head));
    SameHead(a, b, c, top, head);
  }

  lemma SameHead(a: State, b: State, c: CoreId, top: Priority, head: Pid)
    requires a.ports == b.ports && a.ntfs == b.ntfs && a.C(c).ready == b.C(c).ready && a.C(c).ready[top] != []
    requires a.C(c) == b.C(c).(highest := a.C(c).highest) && forall d: CoreId :: d != c ==> a.C(d) == b.C(d)
    requires Top(a.C(c).ready, a.C(c).highest) == top && Top(b.C(c).ready, b.C(c).highest) == top
    requires forall o: Pid :: SameUpToTurn(a.P(o), b.P(o))
    ensures var f := SwitchTo(Dequeue(a, c, top), c, Some(head));
      var g := SwitchTo(Dequeue(b, c, top), c, Some(head));
      f.C(c) == g.C(c) && SameUpToTurns(f, g, c)
  {
    var f := SwitchTo(Dequeue(a, c, top), c, Some(head));
    var g := SwitchTo(Dequeue(b, c, top), c, Some(head));
    forall o: Pid ensures SameUpToTurn(f.P(o), g.P(o)) { assert SameUpToTurn(a.P(o), b.P(o)); }
    forall d: CoreId | d != c ensures f.C(d) == g.C(d) { assert a.C(d) == b.C(d); }
    assert SameUpToTurn(a.P(a.C(c).ready[top][0]), b.P(a.C(c).ready[top][0]));
  }

  /** With nothing more urgent ready, the direct switch goes to `p` and leaves the queues alone. */
  lemma DirectTakes(s: State, c: CoreId, p: Pid)
    requires Inv(s, {p}, Some(c)) && s.P(p).affinity == c
    requires forall i: Priority :: i > s.P(p).priority ==> s.C(c).ready[i] == []
    ensures var f := TryDirectScheduleAndSwitch(s, c, p);
      && f.procs == s.procs && f.ports == s.ports && f.ntfs == s.ntfs
      && f.C(c).ready == s.C(c).ready && f.C(c).current == Some(p)
      && forall d: CoreId :: d != c ==> f.C(d) == s.C(d)
  {
    assert PlaceOk(s, {p}, Some(c), p);
  }

  /** Queueing takes the head of the line that `p` joined. */
  lemma QueueingTakes(s: State, c: CoreId, p: Pid)
    requires Inv(s, {p}, Some(c)) && s.P(p).affinity == c
    requires forall i: Priority :: i > s.P(p).priority ==> s.C(c).ready[i] == []
    ensures var g := EnqueueThenDispatch(s, c, p);
      var line := s.C(c).ready[s.P(p).priority] + [p];
      && g.ports == s.ports && g.ntfs == s.ntfs
      && g.C(c).ready == s.C(c).ready[s.P(p).priority := line[1..]] && g.C(c).current == Some(line[0])
      && g.P(line[0]).priority == s.P(p).priority
      && (forall d: CoreId :: d != c ==> g.C(d) == s.C(d))
      && (forall o: Pid :: o != p ==> g.P(o) == s.P(o).(inReady := g.P(o).inReady))
      && g.P(p) == s.P(p).(status := Ready, quantum := QUANTUM_MAX, inReady := g.P(p).inReady)
  {
    var k := s.P(p).priority;
    var line := s.C(c).ready[k] + [p];
    var b := Joins(s, c, p);
    assert line[0] != p ==> line[0] in s.C(c).ready[k];
    assert QueueOk(s, c, k);
    DispatchTakes(b, c, k);
  }

  /** `p` goes to the end of its line, which is the most urgent one. */
  lemma Joins(s: State, c: CoreId, p: Pid) returns (b: State)
    requires Inv(s, {p}, Some(c)) && s.P(p).affinity == c
    requires forall i: Priority :: i > s.P(p).priority ==> s.C(c).ready[i] == []
    ensures b == MarkScheduled(s, p) && b.ports == s.ports && b.ntfs == s.ntfs
    ensures b.P(p) == s.P(p).(status := Ready, quantum := QUANTUM_MAX, inReady := true)
    ensures forall o: Pid :: o != p ==> b.P(o) == s.P(o)
    ensures b.C(c).ready == s.C(c).ready[s.P(p).priority := s.C(c).ready[s.P(p).priority] + [p]]
    ensures forall d: CoreId :: d != c ==> b.C(d) == s.C(d)
    ensures Top(b.C(c).ready, b.C(c).highest) == s.P(p).priority
  {
    assert PlaceOk(s, {p}, Some(c), p) && QueueOk(s, c, s.P(p).priority);
    b := MarkScheduled(s, p);
    var k := s.P(p).priority;
    var ready := s.C(c).ready[k := s.C(c).ready[k] + [p]];
    assert b.C(c).ready == ready && ready[k] != [];
    forall i: Priority | i > k ensures ready[i] == [] { assert s.C(c).ready[i] == []; }
  }

  lemma DispatchTakes(s: State, c: CoreId, k: Priority)
    requires Top(s.C(c).ready, s.C(c).highest) == k && s.C(c).ready[k] != []
    ensures var g := TryScheduleAndSwitch(s, c);
      var head := s.C(c).ready[k][0];
      && g.ports == s.ports && g.ntfs == s.ntfs
      && g.C(c).ready == s.C(c).ready[k := s.C(c).ready[k][1..]] && g.C(c).current == Some(head)
      && (forall d: CoreId :: d != c ==> g.C(d) == s.C(d))
      && (forall o: Pid :: g.P(o) == s.P(o).(inReady := g.P(o).inReady))
  {
  }

  lemma NothingMoreUrgent(s: State, c: CoreId, p: Pid)
    requires Inv(s, {p}, Some(c)) && Runnable(s.P(p)) && s.P(p).affinity == c
    requires Top(s.C(c).ready, s.C(c).highest) <= s.P(p).priority
    ensures var f := TryDirectScheduleAndSwitch(s, c, p);
      var g := EnqueueThenDispatch(s, c, p);
      && SameUpToTurns(f, g, c)
      && f.C(c).current == Some(p) && g.C(c).current.Some?
      && g.P(g.C(c).current.value).priority == s.P(p).priority && f.P(p).priority == s.P(p).priority
      && (s.C(c).ready[s.P(p).priority] == [] ==> SameChoice(f, g, c))
  {
    var k := s.P(p).priority;
    forall i: Priority ensures i > k ==> s.C(c).ready[i] == [] { assert QueueOk(s, c, i); }
    var f := TryDirectScheduleAndSwitch(s, c, p);
    var g := EnqueueThenDispatch(s, c, p);
    var line := s.C(c).ready[k] + [p];
    DirectTakes(s, c, p);
    QueueingTakes(s, c, p);
    if s.C(c).ready[k] == [] {
      assert line[1..] == s.C(c).ready[k];
      assert s.C(c).ready[k := s.C(c).ready[k]] == s.C(c).ready;
    }
    forall o: Pid ensures RunsOrReady(f, c, o) <==> RunsOrReady(g, c, o) {
      SameLine(s, f, g, c, k, p, line, o);
    }
  }

  lemma SameLine(s: State, f: State, g: State, c: CoreId, k: Priority, p: Pid, line: seq<Pid>, o: Pid)
    requires line == s.C(c).ready[k] + [p]
    requires f.C(c).current == Some(p) && f.C(c).ready == s.C(c).ready
    requires g.C(c).current == Some(line[0]) && g.C(c).ready == s.C(c).ready[k := line[1..]]
    ensures RunsOrReady(f, c, o) <==> RunsOrReady(g, c, o)
  {
    assert line == [line[0]] + line[1..];
    if o != line[0] && o in line { assert o in g.C(c).ready[k]; }
    if o != p && o in line { assert o in f.C(c).ready[k]; }
    forall i: Priority | i != k ensures o in f.C(c).ready[i] <==> o in g.C(c).ready[i] {}
  }

  /** The server has replied and blocked in RECEIVE; the client is still in transit. */
  function Replied(s: State, owner: Pid, q: PortId, info: Word, x: Transfer): State {
    var s1 := CompleteReply(s, owner, info, x, false).0;
    PushIpc(s1.SetP(owner, s1.P(owner).(status := BlockedReceive)), q, ReadyToReceive, owner)
  }

  lemma FastIsDirect(s: State, c: CoreId, owner: Pid, q: PortId, info: Word, x: Transfer)
    requires Good(s) && s.C(c).current == Some(owner) && FastReply(s, owner, q, info)
    requires CompleteReply(s, owner, info, x, false).1.Ok?
    ensures var m := Replied(s, owner, q, info, x);
      var client := s.P(owner).dstTarget.value;
      && Inv(m, {client}, Some(c)) && Runnable(m.P(client)) && m.P(client).affinity == c
      && ReplyReceiveFast(s, owner, q, info, x).0 == TryDirectScheduleAndSwitch(m, c, client)
  {
    assert ReplyOk(s, owner) && PortOk(s, q);
    LeaveOne(s, c, owner);
    var client := s.P(owner).dstTarget.value;
    ReplyMessageKeeps(s, {owner}, Some(c), owner, client, info, x);
    ReplyFrame(s, owner, info, x, false);
    var s1 := CompleteReply(s, owner, info, x, false).0;
    BlocksServer(s1, {owner} + {client}, c, owner, q);
    assert {owner} + {client} - {owner} == {client};
  }

  /** A server without a pending notification joins the port's queue. */
  lemma BlocksServer(s: State, f: set<Pid>, c: CoreId, owner: Pid, q: PortId)
    requires Inv(s, f, Some(c)) && owner in f && s.Q(q).state != ReadyToSend && s.P(owner).srcTarget.None?
    requires Runnable(s.P(owner)) && !s.P(owner).dstReady && s.P(owner).dstTarget.None?
    requires !(s.P(owner).boundPort.Some? && Pending(s, s.P(owner).boundPort.value))
    ensures Inv(PushIpc(s.SetP(owner, s.P(owner).(status := BlockedReceive)), q, ReadyToReceive, owner), f - {owner}, Some(c))
  {
    var s2 := s.SetP(owner, s.P(owner).(status := BlockedReceive));
    assert PlaceOk(s, f, Some(c), owner) && PortOk(s, q);
    assert s.P(owner).boundPort.Some? ==> FlagOk(s, s.P(owner).boundPort.value);
    Touch(s, f, Some(c), owner, s2.P(owner));
    assert PlaceOf(s2, Some(c), owner) == PlaceOf(s, Some(c), owner);
    PushIpcKeeps(s2, f, Some(c), q, ReadyToReceive, owner);
  }

  lemma SlowIsQueueing(s: State, c: CoreId, owner: Pid, q: PortId, info: Word, x: Transfer, y: Transfer)
    requires Good(s) && s.C(c).current == Some(owner) && FastReply(s, owner, q, info)
    requires CompleteReply(s, owner, info, x, false).1.Ok?
    ensures ReplyReceiveSlow(s, owner, q, info, x, y).0
         == EnqueueThenDispatch(Replied(s, owner, q, info, x), c, s.P(owner).dstTarget.value)
  {
    assert ReplyOk(s, owner);
    Running(s, c, owner);
    var client := s.P(owner).dstTarget.value;
    var e := CompleteReply(s, owner, info, x, true).0;
    RepliesEarlier(s, c, owner, q, info, x);
    BlocksLater(CompleteReply(s, owner, info, x, false).0, owner, client, q);
    assert TryDeliverPending(e, owner) == (e, false);
    var m := Replied(s, owner, q, info, x);
    var pushed := PushIpc(e.SetP(owner, e.P(owner).(status := BlockedReceive)), q, ReadyToReceive, owner);
    assert pushed == MarkScheduled(m, client);
  }

  /** The slow path makes the client ready as it replies, and the server still waits for nothing. */
  lemma RepliesEarlier(s: State, c: CoreId, owner: Pid, q: PortId, info: Word, x: Transfer)
    requires Good(s) && s.C(c).current == Some(owner) && FastReply(s, owner, q, info)
    requires CompleteReply(s, owner, info, x, false).1.Ok?
    ensures var r := CompleteReply(s, owner, info, x, true);
      && r.0 == MarkScheduled(CompleteReply(s, owner, info, x, false).0, s.P(owner).dstTarget.value) && r.1.Ok?
      && r.0.P(owner).boundPort == s.P(owner).boundPort && r.0.ntfs == s.ntfs && r.0.ports == s.ports
  {
    assert ReplyOk(s, owner);
    Running(s, c, owner);
    Awaiting(s, {}, None, s.P(owner).dstTarget.value);
    ReplyFrame(s, owner, info, x, true);
  }

  /** Making the client ready and blocking the server commute. */
  lemma BlocksLater(s: State, owner: Pid, client: Pid, q: PortId)
    requires owner != client
    ensures var e := MarkScheduled(s, client);
      PushIpc(e.SetP(owner, e.P(owner).(status := BlockedReceive)), q, ReadyToReceive, owner)
      == MarkScheduled(PushIpc(s.SetP(owner, s.P(owner).(status := BlockedReceive)), q, ReadyToReceive, owner), client)
  {
    var e := MarkScheduled(s, client);
    var a := PushIpc(e.SetP(owner, e.P(owner).(status := BlockedReceive)), q, ReadyToReceive, owner);
    var b := MarkScheduled(PushIpc(s.SetP(owner, s.P(owner).(status := BlockedReceive)), q, ReadyToReceive, owner), client);
    assert a.procs == b.procs;
    assert a.cores == b.cores;
  }

  /**
   Under the fast path's guard both paths leave the same messages, reply links, ports and other
   cores and the same processes able to run; both dispatch a process as urgent as any ready one,
   and the very same one unless the client's priority ties with a queued process.
   */
  lemma FastPathRefinesSlowPath(s: State, c: CoreId, owner: Pid, q: PortId, info: Word, x: Transfer, y: Transfer)
    requires Good(s) && s.C(c).current == Some(owner) && FastReply(s, owner, q, info)
    requires CompleteReply(s, owner, info, x, false).1.Ok?
    ensures var fast := ReplyReceiveFast(s, owner, q, info, x).0;
      var slow := ReplyReceiveSlow(s, owner, q, info, x, y).0;
      var client := s.P(s.P(owner).dstTarget.value);
      && SameUpToTurns(fast, slow, c)
      && Urgent(fast, c) && Urgent(slow, c)
      && fast.C(c).current.Some? && slow.C(c).current.Some?
      && fast.P(fast.C(c).current.value).priority == slow.P(slow.C(c).current.value).priority
      && (s.C(c).ready[client.priority] == [] ==> SameChoice(fast, slow, c))
  {
    FastIsDirect(s, c, owner, q, info, x);
    SlowIsQueueing(s, c, owner, q, info, x, y);
    var m := Replied(s, owner, q, info, x);
    var client := s.P(owner).dstTarget.value;
    DirectRefinesQueueing(m, c, client);
    DirectSwitchIsUrgent(m, {client}, c, client);
    MarkScheduledKeeps(m, {client}, Some(c), client);
    DispatchIsUrgent(MarkScheduled(m, client), {client} - {client}, Some(c), c);
    RepliedFrame(s, c, owner, q, info, x);
  }

  lemma RepliedFrame(s: State, c: CoreId, owner: Pid, q: PortId, info: Word, x: Transfer)
    requires Good(s) && s.C(c).current == Some(owner) && FastReply(s, owner, q, info)
    requires CompleteReply(s, owner, info, x, false).1.Ok?
    ensures var m := Replied(s, owner, q, info, x);
      && m.cores == s.cores
      && m.P(s.P(owner).dstTarget.value).priority == s.P(s.P(owner).dstTarget.value).priority
  {
    assert ReplyOk(s, owner);
    Running(s, c, owner);
  }
}
