/** What the invariant means for callers: places, queues, replies, wakeups and dispatching. */
module KernelProperties {
  import opened Common
  import opened KernelState
  import opened ReadyQueues
  import opened KernelPrimitives
  import opened ProcessManager
  import opened IpcPort
  import opened IpcInvariant
  import opened KernelRun

  // ---------------------------------------------------------------- one place at a time

  datatype Location =
    | OnCore(c: CoreId)
    | InReady(c: CoreId, k: Priority)
    | InPort(q: PortId)
    | InNtf(n: NtfId)

  ghost predicate At(s: State, p: Pid, w: Location) {
    match w
    case OnCore(c) => s.C(c).current == Some(p)
    case InReady(c, k) => p in s.C(c).ready[k]
    case InPort(q) => p in s.Q(q).queue
    case InNtf(n) => p in s.N(n).queue
  }

  /** What a location says about the fields of the process found there. */
  ghost predicate Recorded(r: Proc, w: Location) {
    match w
    case OnCore(c) => r.status == Ready && r.affinity == c && !r.inReady && r.ipcPort.None? && r.ntfPort.None?
    case InReady(c, k) =>
      r.status == Ready && r.affinity == c && r.priority == k && r.inReady && r.ipcPort.None? && r.ntfPort.None?
    case InPort(q) => r.ipcPort == Some(q) && !r.inReady && r.ntfPort.None? && r.status in {BlockedSend, BlockedReceive, BlockedFault}
    case InNtf(n) => r.ntfPort == Some(n) && !r.inReady && r.ipcPort.None? && r.status == BlockedWait
  }

  lemma LocationRecorded(s: State, p: Pid, w: Location)
    requires Good(s) && At(s, p, w)
    ensures Recorded(s.P(p), w)
  {
    assert PlaceOk(s, {}, None, p);
    match w
    case OnCore(c) => assert CoreOk(s, None, c);
    case InReady(c, k) => assert QueueOk(s, c, k);
    case InPort(q) => assert PortOk(s, q);
    case InNtf(n) => assert NtfOk(s, n);
  }

  /** After every run a process is in at most one place, and is ready exactly when it runs or is queued to run. */
  lemma OnePlaceAfterEveryRun(s: State, es: seq<Entry>, i: nat, p: Pid)
    requires Good(s) && Orderly(s, es) && i <= |es|
    ensures var t := After(s, es[..i]);
      && (forall v: Location, w: Location :: At(t, p, v) && At(t, p, w) ==> v == w)
      && (t.P(p).status == Ready <==> exists w: Location :: At(t, p, w) && (w.OnCore? || w.InReady?))
  {
    RunsStayGood(s, es, i);
    var t := After(s, es[..i]);
    forall v: Location, w: Location | At(t, p, v) && At(t, p, w) ensures v == w {
      LocationRecorded(t, p, v);
      LocationRecorded(t, p, w);
    }
    assert PlaceOk(t, {}, None, p) && ReadyMember(t, p);
    if t.P(p).status == Ready {
      assert At(t, p, if t.P(p).inReady then InReady(t.P(p).affinity, t.P(p).priority) else OnCore(t.P(p).affinity));
    }
    forall w: Location | At(t, p, w) && (w.OnCore? || w.InReady?) ensures t.P(p).status == Ready {
      LocationRecorded(t, p, w);
    }
  }

  /** A port advertises exactly what its queue holds. */
  ghost predicate Advertises(s: State, q: PortId) {
    && (s.Q(q).state == Wait <==> s.Q(q).queue == [])
    && Distinct(s.Q(q).queue)
    && (s.Q(q).state == ReadyToReceive ==> forall p :: p in s.Q(q).queue ==> s.P(p).status == BlockedReceive)
    && (s.Q(q).state == ReadyToSend ==> forall p :: p in s.Q(q).queue ==> s.P(p).status in {BlockedSend, BlockedFault})
  }

  lemma GoodPortsAdvertise(s: State, q: PortId)
    requires Good(s)
    ensures Advertises(s, q)
  {
    assert PortOk(s, q);
    forall p | p in s.Q(q).queue
      ensures s.Q(q).state == ReadyToReceive ==> s.P(p).status == BlockedReceive
      ensures s.Q(q).state == ReadyToSend ==> s.P(p).status in {BlockedSend, BlockedFault}
    {
      assert PlaceOk(s, {}, None, p);
    }
  }

  lemma PortsAdvertiseAfterEveryRun(s: State, es: seq<Entry>, i: nat, q: PortId)
    requires Good(s) && Orderly(s, es) && i <= |es|
    ensures Advertises(After(s, es[..i]), q)
  {
    RunsStayGood(s, es, i);
    GoodPortsAdvertise(After(s, es[..i]), q);
  }

  // ---------------------------------------------------------------- replies

  /** Replies never loop: nobody waits, however indirectly, for itself. */
  lemma NobodyAwaitsItself(s: State, es: seq<Entry>, i: nat, p: Pid, n: nat)
    requires Good(s) && Orderly(s, es) && i <= |es| && n > 0
    ensures Follow(Links(After(s, es[..i])), p, n) != Some(p)
  {
    RunsStayGood(s, es, i);
    var g := Links(After(s, es[..i]));
    if Follow(g, p, n) == Some(p) {
      assert Ends(g, p);
      var m: nat :| Follow(g, p, m).None?;
      CycleNeverEnds(g, p, n, m);
    }
  }

  lemma {:induction false} FollowAdds(g: imap<Pid, Pid>, p: Pid, m: nat, n: nat)
    requires Follow(g, p, m).Some?
    ensures Follow(g, p, m + n) == Follow(g, Follow(g, p, m).value, n)
    decreases m
  {
    if m > 0 { FollowAdds(g, g[p], m - 1, n); }
  }

  lemma {:induction false} FollowShorter(g: imap<Pid, Pid>, p: Pid, m: nat, n: nat)
    requires Follow(g, p, n).Some? && m <= n
    ensures Follow(g, p, m).Some?
    decreases m
  {
    if m > 0 { FollowShorter(g, g[p], m - 1, n - 1); }
  }

  lemma {:induction false} CycleNeverEnds(g: imap<Pid, Pid>, p: Pid, n: nat, m: nat)
    requires n > 0 && Follow(g, p, n) == Some(p)
    ensures Follow(g, p, m).Some?
    decreases m
  {
    if m <= n {
      FollowShorter(g, p, m, n);
    } else {
      FollowAdds(g, p, n, m - n);
      CycleNeverEnds(g, p, n, m - n);
    }
  }

  /** The branches for a reply that is already held are never taken. */
  lemma ReplySlotIsFree(s: State, c: CoreId, owner: Pid, q: PortId, info: Word, x: Transfer)
    requires Good(s) && s.C(c).current == Some(owner)
    ensures s.Q(q).state == ReadyToReceive ==> s.Q(q).queue != [] && !PopIpc(s, q).P(s.Q(q).queue[0]).dstReady
    ensures !DiscardCaller(s, owner).P(owner).dstReady
    ensures CompleteReply(s, owner, info, x, true).1.Ok? ==> !CompleteReply(s, owner, info, x, true).0.P(owner).dstReady
  {
    assert PortOk(s, q) && ReplyOk(s, owner);
    LeaveOne(s, c, owner);
    DiscardKeeps(s, {owner}, Some(c), owner);
    CompleteReplyKeeps(s, {owner}, Some(c), owner, info, x);
    ReplyFrame(s, owner, info, x, true);
    if s.Q(q).state == ReadyToReceive {
      var p := s.Q(q).queue[0];
      assert p in s.Q(q).queue && PlaceOk(s, {}, None, p) && ReplyOk(s, p);
    }
  }

  // ---------------------------------------------------------------- notifications

  /** The notification at `i` is still outstanding just before position `k`. */
  ghost predicate Reaches(h: seq<NtfEvent>, i: int, k: int) {
    0 <= i < k <= |h| && h[i].Notified? && forall m :: i < m < k ==> h[m].Notified?
  }

  lemma {:induction false} OutstandingBits(h: seq<NtfEvent>, b: nat)
    ensures b in Outstanding(h) <==> exists i :: Reaches(h, i, |h|) && b in h[i].bits
  {
    if h != [] {
      var n := |h| - 1;
      var g := h[..n];
      OutstandingBits(g, b);
      if h[n].Notified? {
        assert Reaches(h, n, |h|);
        forall i | Reaches(g, i, n) ensures Reaches(h, i, |h|) {
          assert forall m :: i < m < n ==> h[m] == g[m];
        }
        forall i | Reaches(h, i, |h|) && i < n ensures Reaches(g, i, n) {
          assert forall m :: i < m < n ==> g[m] == h[m];
        }
      } else {
        forall i ensures !Reaches(h, i, |h|) {}
      }
    }
  }

  /**
   Every notified bit is taken by exactly one later consumption - the next one - or is still pending,
   and nothing else is ever taken.
   */
  lemma BitsAreConserved(s: State, es: seq<Entry>, i: nat, n: NtfId, b: nat)
    requires Good(s) && Orderly(s, es) && i <= |es|
    ensures var h := After(s, es[..i]).N(n).history;
      && (b in After(s, es[..i]).N(n).flag <==> exists j :: Reaches(h, j, |h|) && b in h[j].bits)
      && (forall k :: 0 <= k < |h| && !h[k].Notified? ==>
            (b in h[k].bits <==> exists j :: Reaches(h, j, k) && b in h[j].bits))
  {
    RunsStayGood(s, es, i);
    var t := After(s, es[..i]);
    var h := t.N(n).history;
    assert FlagOk(t, n);
    OutstandingBits(h, b);
    forall k | 0 <= k < |h| && !h[k].Notified?
      ensures b in h[k].bits <==> exists j :: Reaches(h, j, k) && b in h[j].bits
    {
      OutstandingBits(h[..k], b);
      forall j ensures Reaches(h[..k], j, k) <==> Reaches(h, j, k) {
        assert forall m :: 0 <= m < k ==> h[..k][m] == h[m];
      }
    }
  }

  /** Nobody sleeps on pending bits. */
  lemma NoLostWakeup(s: State, es: seq<Entry>, i: nat, n: NtfId)
    requires Good(s) && Orderly(s, es) && i <= |es|
    ensures var t := After(s, es[..i]);
      t.N(n).flag != {} ==>
        t.N(n).queue == [] && (t.N(n).bound.Some? ==> t.P(t.N(n).bound.value).status != BlockedReceive)
  {
    RunsStayGood(s, es, i);
    var t := After(s, es[..i]);
    assert FlagOk(t, n) && BoundOk(t, n);
    if t.N(n).bound.Some? {
      assert PlaceOk(t, {}, None, t.N(n).bound.value);
    }
  }

  // ---------------------------------------------------------------- dispatching

  /** What a core runs is as urgent as anything ready on it; it idles only when nothing is. */
  ghost predicate Urgent(s: State, c: CoreId) {
    match s.C(c).current
    case None => forall k: Priority :: s.C(c).ready[k] == []
    case Some(p) => forall k: Priority :: k > s.P(p).priority ==> s.C(c).ready[k] == []
  }

  lemma DispatchIsUrgent(s: State, f: set<Pid>, away: Option<CoreId>, c: CoreId)
    requires Inv(s, f, away)
    ensures Urgent(TryScheduleAndSwitch(s, c), c)
  {
    var k := Top(s.C(c).ready, s.C(c).highest);
    if k >= 0 {
      DequeueKeeps(s, f, away, c, k);
    }
    forall i: Priority ensures i > s.C(c).highest ==> s.C(c).ready[i] == [] {
      assert QueueOk(s, c, i);
    }
  }

  /** A direct switch never passes over something more urgent than its target. */
  lemma DirectSwitchIsUrgent(s: State, f: set<Pid>, c: CoreId, p: Pid)
    requires Inv(s, f, Some(c)) && p in f && Runnable(s.P(p))
    ensures Urgent(TryDirectScheduleAndSwitch(s, c, p), c)
  {
    assert PlaceOk(s, f, Some(c), p);
    if s.P(p).affinity != c {
      MarkScheduledKeeps(s, f, Some(c), p);
      AnnounceKeeps(MarkScheduled(s, p), f - {p}, Some(c), p);
      DispatchIsUrgent(Announce(MarkScheduled(s, p), p), f - {p}, Some(c), c);
    } else {
      forall i: Priority ensures i > s.C(c).highest ==> s.C(c).ready[i] == [] {
        assert QueueOk(s, c, i);
      }
      if s.P(p).priority < s.C(c).highest {
        var h := Tighten(s.C(c).ready, s.C(c).highest, s.P(p).priority);
        if s.P(p).priority < h {
          SetHighestKeeps(s, f, Some(c), c, h);
          var s2 := Enqueue(SetHighest(s, c, h), p);
          EnqueueKeeps(SetHighest(s, c, h), f, Some(c), p);
          DispatchIsUrgent(s2, f - {p}, Some(c), c);
          assert s2.C(c).ready[h] != [] && Top(s2.C(c).ready, s2.C(c).highest) >= h;
        }
      }
    }
  }

  /** A process that yields goes behind all its peers, and runs on only if nothing as urgent is ready. */
  lemma YieldGoesToTheBack(s: State, c: CoreId, p: Pid)
    requires Good(s) && s.C(c).current == Some(p)
    ensures var t := Yield(s, c); var k := s.P(p).priority;
      if t.C(c).current == Some(p) then forall i: Priority :: i >= k ==> s.C(c).ready[i] == []
      else t.C(c).ready[k] != [] && t.C(c).ready[k][|t.C(c).ready[k]| - 1] == p
  {
    Running(s, c, p);
    var k := s.P(p).priority;
    var s1 := MarkScheduled(s, p);
    var queue := s1.C(c).ready[k];
    assert queue == s.C(c).ready[k] + [p];
    var top := Top(s1.C(c).ready, s1.C(c).highest);
    assert top >= k;
    var head := s1.C(c).ready[top][0];
    var t := Yield(s, c);
    assert t.C(c).current == Some(head);
    assert QueueOk(s, c, k) && QueueOk(s, c, top);
    if s.C(c).ready[k] != [] { assert queue[0] == s.C(c).ready[k][0] && queue[0] in s.C(c).ready[k]; }
    if top != k { assert head == s.C(c).ready[top][0] && head in s.C(c).ready[top]; }
    if head == p {
      forall i: Priority | i >= k ensures s.C(c).ready[i] == [] {
        assert QueueOk(s, c, i);
        assert i != k ==> s1.C(c).ready[i] == s.C(c).ready[i];
      }
    } else if top == k {
      assert t.C(c).ready[k] == queue[1..];
      assert queue[1..][|queue| - 2] == p;
    } else {
      assert t.C(c).ready[k] == queue;
    }
  }
}
