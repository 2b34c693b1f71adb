/**
 The elementary steps of a kernel entry - queue operations, reply links, scheduler operations,
 context switches - and what each does to the invariant.
 */
module KernelPrimitives {
  import opened Common
  import opened KernelState
  import opened ReadyQueues

  // ---------------------------------------------------------------- moving the boundary

  lemma Lift(s: State, f: set<Pid>, away: Option<CoreId>, p: Pid)
    requires Inv(s, f, away) && Nowhere(PlaceOf(s, away, p))
    ensures Inv(s, f + {p}, away)
  {
    forall o: Pid ensures PlaceOk(s, f + {p}, away, o) {
      assert PlaceOk(s, f, away, o);
    }
  }

  lemma Settle(s: State, f: set<Pid>, away: Option<CoreId>, p: Pid)
    requires Inv(s, f, away) && Fits(s.P(p).status, PlaceOf(s, away, p))
    ensures Inv(s, f - {p}, away)
  {
    forall o: Pid ensures PlaceOk(s, f - {p}, away, o) {
      assert PlaceOk(s, f, away, o);
    }
  }

  /** The core that entered the kernel stops counting its current process as running. */
  lemma Leave(s: State, f: set<Pid>, c: CoreId, p: Pid)
    requires Inv(s, f, None) && s.C(c).current == Some(p)
    ensures Inv(s, f + {p}, Some(c))
  {
    assert CoreOk(s, None, c) && PlaceOk(s, f, None, p);
    forall o: Pid ensures PlaceOk(s, f + {p}, Some(c), o) {
      assert PlaceOk(s, f, None, o);
    }
    forall d: CoreId ensures CoreOk(s, Some(c), d) {
      assert CoreOk(s, None, d);
    }
  }

  // ---------------------------------------------------------------- what a step leaves alone

  ghost predicate SameReady(a: Proc, b: Proc) {
    a.inReady == b.inReady && (a.inReady ==> a.affinity == b.affinity && a.priority == b.priority)
  }

  ghost predicate SameDebt(a: Proc, b: Proc) {
    && a.srcTarget == b.srcTarget && a.dstTarget == b.dstTarget && a.dstReady == b.dstReady
    && (a.srcTarget.Some? && a.srcWait ==> b.srcWait)
  }

  lemma KeepReady(s: State, t: State)
    requires ReadySeats(s)
    requires forall c: CoreId :: t.C(c).ready == s.C(c).ready && t.C(c).highest == s.C(c).highest
    requires forall p: Pid :: SameReady(s.P(p), t.P(p))
    ensures ReadySeats(t)
  {
    forall p: Pid ensures ReadyMember(t, p) {
      assert ReadyMember(s, p) && SameReady(s.P(p), t.P(p));
    }
    forall c: CoreId, k: Priority ensures QueueOk(t, c, k) {
      assert QueueOk(s, c, k);
      assert forall p: Pid :: SameReady(s.P(p), t.P(p));
    }
  }

  lemma KeepIpc(s: State, t: State)
    requires IpcSeats(s) && t.ports == s.ports
    requires forall p: Pid :: t.P(p).ipcPort == s.P(p).ipcPort
    ensures IpcSeats(t)
  {
    forall q: PortId ensures PortOk(t, q) { assert PortOk(s, q); }
    forall p: Pid ensures IpcMember(t, p) { assert IpcMember(s, p); }
  }

  lemma KeepNtf(s: State, t: State)
    requires NtfSeats(s)
    requires forall n: NtfId :: t.N(n).queue == s.N(n).queue && t.N(n).readyToWake == s.N(n).readyToWake
    requires forall p: Pid :: t.P(p).ntfPort == s.P(p).ntfPort
    ensures NtfSeats(t)
  {
    forall n: NtfId ensures NtfOk(t, n) { assert NtfOk(s, n); }
    forall p: Pid ensures NtfMember(t, p) { assert NtfMember(s, p); }
  }

  lemma KeepFlags(s: State, t: State)
    requires Flags(s) && t.ntfs == s.ntfs
    ensures Flags(t)
  {
    forall n: NtfId ensures FlagOk(t, n) { assert FlagOk(s, n); }
  }

  lemma KeepBindings(s: State, t: State)
    requires Bindings(s)
    requires forall n: NtfId :: t.N(n).bound == s.N(n).bound
    requires forall p: Pid :: t.P(p).boundPort == s.P(p).boundPort
    ensures Bindings(t)
  {
    forall n: NtfId ensures BoundOk(t, n) { assert BoundOk(s, n); }
    forall p: Pid ensures BindMember(t, p) { assert BindMember(s, p); }
  }

  lemma KeepReplies(s: State, t: State)
    requires Replies(s)
    requires forall p: Pid :: SameDebt(s.P(p), t.P(p))
    ensures Replies(t)
  {
    assert forall p: Pid :: SameDebt(s.P(p), t.P(p)) ==> s.P(p).srcTarget == t.P(p).srcTarget;
    assert Links(t) == Links(s);
    forall p: Pid ensures ReplyOk(t, p) { assert ReplyOk(s, p); }
  }

  ghost predicate Undisturbed(s: State, t: State, f: set<Pid>, g: set<Pid>, away: Option<CoreId>, p: Pid) {
    && PlaceOf(t, away, p) == PlaceOf(s, away, p)
    && t.P(p).status == s.P(p).status
    && (p in f <==> p in g)
  }

  lemma KeepPlaces(s: State, t: State, f: set<Pid>, g: set<Pid>, away: Option<CoreId>, p: Pid)
    requires Places(s, f, away)
    requires forall c: CoreId :: t.C(c).current == s.C(c).current && t.C(c).pending == s.C(c).pending
    requires forall o: Pid :: t.P(o).affinity == s.P(o).affinity
    requires forall o: Pid :: o != p ==> Undisturbed(s, t, f, g, away, o)
    requires PlaceOk(t, g, away, p)
    ensures Places(t, g, away)
  {
    forall c: CoreId ensures CoreOk(t, away, c) { assert CoreOk(s, away, c); }
    forall o: Pid ensures PlaceOk(t, g, away, o) {
      assert PlaceOk(s, f, away, o);
      assert o != p ==> Undisturbed(s, t, f, g, away, o);
    }
  }

  // ---------------------------------------------------------------- process fields

  /** A process in transit may change its own fields. */
  lemma Touch(s: State, f: set<Pid>, away: Option<CoreId>, p: Pid, r: Proc)
    requires Inv(s, f, away) && p in f
    requires r.inReady == s.P(p).inReady && r.affinity == s.P(p).affinity
    requires r.ipcPort == s.P(p).ipcPort && r.ntfPort == s.P(p).ntfPort && r.boundPort == s.P(p).boundPort
    requires SameDebt(s.P(p), r)
    ensures Inv(s.SetP(p, r), f, away)
  {
    var t := s.SetP(p, r);
    assert PlaceOk(s, f, away, p);
    KeepReady(s, t);
    KeepIpc(s, t);
    KeepNtf(s, t);
    KeepBindings(s, t);
    KeepFlags(s, t);
    KeepReplies(s, t);
    TouchPlaces(s, f, away, p, r);
  }

  lemma TouchPlaces(s: State, f: set<Pid>, away: Option<CoreId>, p: Pid, r: Proc)
    requires Places(s, f, away) && p in f
    requires r.inReady == s.P(p).inReady && r.affinity == s.P(p).affinity
    requires r.ipcPort == s.P(p).ipcPort && r.ntfPort == s.P(p).ntfPort
    ensures Places(s.SetP(p, r), f, away)
  {
    var t := s.SetP(p, r);
    assert PlaceOk(s, f, away, p);
    forall o: Pid | o != p ensures Undisturbed(s, t, f, f, away, o) {}
    KeepPlaces(s, t, f, f, away, p);
  }

  // ---------------------------------------------------------------- IPC port queues

  /** The port takes state `st` and `p` joins the end of its queue. */
  function PushIpc(s: State, q: PortId, st: PortState, p: Pid): State {
    s.SetQ(q, Port(st, s.Q(q).queue + [p])).SetP(p, s.P(p).(ipcPort := Some(q)))
  }

  /** The head leaves; an emptied queue puts the port back to `Wait`. */
  function PopIpc(s: State, q: PortId): State
    requires s.Q(q).queue != []
  {
    var head := s.Q(q).queue[0];
    var rest := s.Q(q).queue[1..];
    s.SetQ(q, Port(if rest == [] then Wait else s.Q(q).state, rest)).SetP(head, s.P(head).(ipcPort := None))
  }

  /** `p` leaves the queue it is in, wherever it stands. */
  function RemoveIpc(s: State, p: Pid): State
    requires s.P(p).ipcPort.Some?
  {
    var q := s.P(p).ipcPort.value;
    var rest := Without(s.Q(q).queue, p);
    s.SetQ(q, Port(if rest == [] then Wait else s.Q(q).state, rest)).SetP(p, s.P(p).(ipcPort := None))
  }

  lemma PushIpcSeats(s: State, q: PortId, st: PortState, p: Pid)
    requires Seats(s) && s.P(p).ipcPort.None? && st != Wait
    ensures Seats(PushIpc(s, q, st, p))
  {
    var t := PushIpc(s, q, st, p);
    assert p !in s.Q(q).queue by { assert PortOk(s, q); }
    forall o: PortId ensures PortOk(t, o) { assert PortOk(s, o); }
    forall o: Pid ensures IpcMember(t, o) { assert IpcMember(s, o); }
    KeepReady(s, t);
    KeepNtf(s, t);
    KeepBindings(s, t);
  }

  lemma PushIpcPlaces(s: State, f: set<Pid>, away: Option<CoreId>, q: PortId, st: PortState, p: Pid)
    requires Seats(s) && Places(s, f, away) && p in f && st != Wait
    requires s.Q(q).state == Wait || s.Q(q).state == st
    requires Fits(s.P(p).status, PlaceOf(s, away, p).(port := Some(st)))
    ensures Places(PushIpc(s, q, st, p), f - {p}, away)
  {
    var t := PushIpc(s, q, st, p);
    forall o: Pid | o != p ensures Undisturbed(s, t, f, f - {p}, away, o) {
      assert IpcMember(s, o) && PortOk(s, q);
    }
    assert PlaceOf(t, away, p) == PlaceOf(s, away, p).(port := Some(st));
    KeepPlaces(s, t, f, f - {p}, away, p);
  }

  lemma PushIpcKeeps(s: State, f: set<Pid>, away: Option<CoreId>, q: PortId, st: PortState, p: Pid)
    requires Inv(s, f, away) && p in f && st != Wait
    requires s.Q(q).state == Wait || s.Q(q).state == st
    requires Fits(s.P(p).status, PlaceOf(s, away, p).(port := Some(st)))
    ensures Inv(PushIpc(s, q, st, p), f - {p}, away)
  {
    assert PlaceOk(s, f, away, p);
    PushIpcSeats(s, q, st, p);
    PushIpcPlaces(s, f, away, q, st, p);
    KeepFlags(s, PushIpc(s, q, st, p));
    KeepReplies(s, PushIpc(s, q, st, p));
  }

  lemma PopIpcSeats(s: State, q: PortId)
    requires Seats(s) && s.Q(q).queue != []
    ensures Seats(PopIpc(s, q))
  {
    var t := PopIpc(s, q);
    assert PortOk(s, q) && s.Q(q).queue[0] in s.Q(q).queue;
    DistinctTail(s.Q(q).queue);
    forall o: PortId ensures PortOk(t, o) { assert PortOk(s, o); }
    forall o: Pid ensures IpcMember(t, o) { assert IpcMember(s, o); }
    KeepReady(s, t);
    KeepNtf(s, t);
    KeepBindings(s, t);
  }

  lemma PopIpcPlaces(s: State, f: set<Pid>, away: Option<CoreId>, q: PortId)
    requires Seats(s) && Places(s, f, away) && s.Q(q).queue != []
    ensures Places(PopIpc(s, q), f + {s.Q(q).queue[0]}, away)
    ensures s.Q(q).queue[0] !in f
    ensures s.P(s.Q(q).queue[0]).ipcPort == Some(q)
  {
    var t := PopIpc(s, q);
    var head := s.Q(q).queue[0];
    assert head in s.Q(q).queue;
    assert PortOk(s, q) && PlaceOk(s, f, away, head);
    forall o: Pid | o != head ensures Undisturbed(s, t, f, f + {head}, away, o) {
      assert IpcMember(s, o);
      DistinctTail(s.Q(q).queue);
    }
    KeepPlaces(s, t, f, f + {head}, away, head);
  }

  lemma PopIpcKeeps(s: State, f: set<Pid>, away: Option<CoreId>, q: PortId)
    requires Inv(s, f, away) && s.Q(q).queue != []
    ensures Inv(PopIpc(s, q), f + {s.Q(q).queue[0]}, away)
    ensures s.Q(q).queue[0] !in f
    ensures s.P(s.Q(q).queue[0]).ipcPort == Some(q)
  {
    PopIpcSeats(s, q);
    PopIpcPlaces(s, f, away, q);
    KeepFlags(s, PopIpc(s, q));
    KeepReplies(s, PopIpc(s, q));
  }

  lemma RemoveIpcSeats(s: State, p: Pid)
    requires Seats(s) && s.P(p).ipcPort.Some?
    ensures Seats(RemoveIpc(s, p))
  {
    var t := RemoveIpc(s, p);
    var q := s.P(p).ipcPort.value;
    assert PortOk(s, q);
    WithoutDistinct(s.Q(q).queue, p);
    forall o: PortId ensures PortOk(t, o) { assert PortOk(s, o); }
    forall o: Pid ensures IpcMember(t, o) { assert IpcMember(s, o); }
    KeepReady(s, t);
    KeepNtf(s, t);
    KeepBindings(s, t);
  }

  lemma RemoveIpcPlaces(s: State, f: set<Pid>, away: Option<CoreId>, p: Pid)
    requires Seats(s) && Places(s, f, away) && s.P(p).ipcPort.Some?
    ensures Places(RemoveIpc(s, p), f + {p}, away)
    ensures p !in f
  {
    var t := RemoveIpc(s, p);
    assert PlaceOk(s, f, away, p);
    forall o: Pid | o != p ensures Undisturbed(s, t, f, f + {p}, away, o) {
      assert IpcMember(s, o);
    }
    KeepPlaces(s, t, f, f + {p}, away, p);
  }

  lemma RemoveIpcKeeps(s: State, f: set<Pid>, away: Option<CoreId>, p: Pid)
    requires Inv(s, f, away) && s.P(p).ipcPort.Some?
    ensures Inv(RemoveIpc(s, p), f + {p}, away)
    ensures p !in f
  {
    RemoveIpcSeats(s, p);
    RemoveIpcPlaces(s, f, away, p);
    KeepFlags(s, RemoveIpc(s, p));
    KeepReplies(s, RemoveIpc(s, p));
  }

  // ---------------------------------------------------------------- notification ports

  function PushNtf(s: State, n: NtfId, p: Pid): State {
    s.SetN(n, s.N(n).(readyToWake := true, queue := s.N(n).queue + [p])).SetP(p, s.P(p).(ntfPort := Some(n)))
  }

  function PopNtf(s: State, n: NtfId): State
    requires s.N(n).queue != []
  {
    var head := s.N(n).queue[0];
    var rest := s.N(n).queue[1..];
    s.SetN(n, s.N(n).(readyToWake := s.N(n).readyToWake && rest != [], queue := rest))
     .SetP(head, s.P(head).(ntfPort := None))
  }

  function RemoveNtf(s: State, p: Pid): State
    requires s.P(p).ntfPort.Some?
  {
    var n := s.P(p).ntfPort.value;
    var rest := Without(s.N(n).queue, p);
    s.SetN(n, s.N(n).(readyToWake := s.N(n).readyToWake && rest != [], queue := rest))
     .SetP(p, s.P(p).(ntfPort := None))
  }

  /** The flag word takes `bits`. */
  function NotifyBits(s: State, n: NtfId, bits: Word): State {
    s.SetN(n, s.N(n).(hasFlag := true, flag := s.N(n).flag + bits, history := s.N(n).history + [Notified(bits)]))
  }

  /** The flag word is taken and cleared; `e` records who took it. */
  function TakeBits(s: State, n: NtfId, e: NtfEvent): State {
    s.SetN(n, s.N(n).(hasFlag := false, flag := {}, history := s.N(n).history + [e]))
  }

  function ConsumeBits(s: State, n: NtfId, taker: Pid): State {
    TakeBits(s, n, Consumed(s.N(n).flag, taker))
  }

  predicate Pending(s: State, n: NtfId) {
    s.N(n).hasFlag && s.N(n).flag != {}
  }

  lemma HistoryGrows(h: seq<NtfEvent>, e: NtfEvent)
    requires Faithful(h) && (!e.Notified? ==> e.bits == Outstanding(h))
    ensures Faithful(h + [e])
    ensures Outstanding(h + [e]) == if e.Notified? then Outstanding(h) + e.bits else {}
  {
    var g := h + [e];
    assert g[..|g| - 1] == h;
    forall i | 0 <= i < |g| && !g[i].Notified? ensures g[i].bits == Outstanding(g[..i]) {
      assert i < |h| ==> g[..i] == h[..i];
    }
  }

  lemma PushNtfSeats(s: State, n: NtfId, p: Pid)
    requires Seats(s) && s.P(p).ntfPort.None? && s.N(n).flag == {}
    ensures Seats(PushNtf(s, n, p))
  {
    var t := PushNtf(s, n, p);
    assert p !in s.N(n).queue by { assert NtfOk(s, n); }
    forall o: NtfId ensures NtfOk(t, o) { assert NtfOk(s, o); }
    forall o: Pid ensures NtfMember(t, o) { assert NtfMember(s, o); }
    KeepReady(s, t);
    KeepIpc(s, t);
    KeepBindings(s, t);
  }

  lemma PushNtfPlaces(s: State, f: set<Pid>, away: Option<CoreId>, n: NtfId, p: Pid)
    requires Seats(s) && Places(s, f, away) && p in f
    requires Fits(s.P(p).status, PlaceOf(s, away, p).(ntf := true))
    ensures Places(PushNtf(s, n, p), f - {p}, away)
  {
    var t := PushNtf(s, n, p);
    forall o: Pid | o != p ensures Undisturbed(s, t, f, f - {p}, away, o) {
    }
    assert PlaceOf(t, away, p) == PlaceOf(s, away, p).(ntf := true);
    KeepPlaces(s, t, f, f - {p}, away, p);
  }

  lemma PushNtfKeeps(s: State, f: set<Pid>, away: Option<CoreId>, n: NtfId, p: Pid)
    requires Inv(s, f, away) && p in f && s.N(n).flag == {}
    requires Fits(s.P(p).status, PlaceOf(s, away, p).(ntf := true))
    ensures Inv(PushNtf(s, n, p), f - {p}, away)
  {
    assert PlaceOk(s, f, away, p);
    PushNtfSeats(s, n, p);
    PushNtfPlaces(s, f, away, n, p);
    forall o: NtfId ensures FlagOk(PushNtf(s, n, p), o) { assert FlagOk(s, o); }
    KeepReplies(s, PushNtf(s, n, p));
  }

  lemma PopNtfSeats(s: State, n: NtfId)
    requires Seats(s) && s.N(n).queue != []
    ensures Seats(PopNtf(s, n))
  {
    var t := PopNtf(s, n);
    assert NtfOk(s, n) && s.N(n).queue[0] in s.N(n).queue;
    DistinctTail(s.N(n).queue);
    forall o: NtfId ensures NtfOk(t, o) { assert NtfOk(s, o); }
    forall o: Pid ensures NtfMember(t, o) { assert NtfMember(s, o); }
    KeepReady(s, t);
    KeepIpc(s, t);
    KeepBindings(s, t);
  }

  lemma PopNtfPlaces(s: State, f: set<Pid>, away: Option<CoreId>, n: NtfId)
    requires Seats(s) && Places(s, f, away) && s.N(n).queue != []
    ensures Places(PopNtf(s, n), f + {s.N(n).queue[0]}, away)
    ensures s.N(n).queue[0] !in f
    ensures s.P(s.N(n).queue[0]).ntfPort == Some(n)
  {
    var t := PopNtf(s, n);
    var head := s.N(n).queue[0];
    assert head in s.N(n).queue;
    assert NtfOk(s, n) && PlaceOk(s, f, away, head);
    forall o: Pid | o != head ensures Undisturbed(s, t, f, f + {head}, away, o) {
    }
    KeepPlaces(s, t, f, f + {head}, away, head);
  }

  lemma PopNtfKeeps(s: State, f: set<Pid>, away: Option<CoreId>, n: NtfId)
    requires Inv(s, f, away) && s.N(n).queue != []
    ensures Inv(PopNtf(s, n), f + {s.N(n).queue[0]}, away)
    ensures s.N(n).queue[0] !in f
    ensures s.P(s.N(n).queue[0]).ntfPort == Some(n)
  {
    PopNtfSeats(s, n);
    PopNtfPlaces(s, f, away, n);
    forall o: NtfId ensures FlagOk(PopNtf(s, n), o) { assert FlagOk(s, o); }
    KeepReplies(s, PopNtf(s, n));
  }

  lemma RemoveNtfSeats(s: State, p: Pid)
    requires Seats(s) && s.P(p).ntfPort.Some?
    ensures Seats(RemoveNtf(s, p))
  {
    var t := RemoveNtf(s, p);
    var n := s.P(p).ntfPort.value;
    assert NtfOk(s, n);
    WithoutDistinct(s.N(n).queue, p);
    forall o: NtfId ensures NtfOk(t, o) { assert NtfOk(s, o); }
    forall o: Pid ensures NtfMember(t, o) { assert NtfMember(s, o); }
    KeepReady(s, t);
    KeepIpc(s, t);
    KeepBindings(s, t);
  }

  lemma RemoveNtfPlaces(s: State, f: set<Pid>, away: Option<CoreId>, p: Pid)
    requires Seats(s) && Places(s, f, away) && s.P(p).ntfPort.Some?
    ensures Places(RemoveNtf(s, p), f + {p}, away)
    ensures p !in f
  {
    var t := RemoveNtf(s, p);
    assert PlaceOk(s, f, away, p);
    forall o: Pid | o != p ensures Undisturbed(s, t, f, f + {p}, away, o) {
    }
    KeepPlaces(s, t, f, f + {p}, away, p);
  }

  lemma RemoveNtfKeeps(s: State, f: set<Pid>, away: Option<CoreId>, p: Pid)
    requires Inv(s, f, away) && s.P(p).ntfPort.Some?
    ensures Inv(RemoveNtf(s, p), f + {p}, away)
    ensures p !in f
  {
    RemoveNtfSeats(s, p);
    RemoveNtfPlaces(s, f, away, p);
    forall o: NtfId ensures FlagOk(RemoveNtf(s, p), o) { assert FlagOk(s, o); }
    KeepReplies(s, RemoveNtf(s, p));
  }

  /** Bits may be left pending unless somebody is waiting for them. */
  lemma NotifyBitsKeeps(s: State, f: set<Pid>, away: Option<CoreId>, n: NtfId, bits: Word)
    requires Inv(s, f, away) && s.N(n).queue == []
    requires s.N(n).bound.Some? ==> s.N(n).bound.value in f || s.P(s.N(n).bound.value).status != BlockedReceive
    ensures Inv(NotifyBits(s, n, bits), f, away)
  {
    var t := NotifyBits(s, n, bits);
    NotifyFlags(s, n, bits);
    FlagStepKeeps(s, f, away, n, t.N(n));
  }

  lemma TakeBitsKeeps(s: State, f: set<Pid>, away: Option<CoreId>, n: NtfId, e: NtfEvent)
    requires Inv(s, f, away) && !e.Notified? && e.bits == s.N(n).flag
    ensures Inv(TakeBits(s, n, e), f, away)
  {
    var t := TakeBits(s, n, e);
    TakeFlags(s, n, e);
    FlagStepKeeps(s, f, away, n, t.N(n));
  }

  /** Bits that are taken as soon as they are notified leave nothing pending. */
  lemma NotifyConsumeKeeps(s: State, f: set<Pid>, away: Option<CoreId>, n: NtfId, bits: Word, taker: Pid)
    requires Inv(s, f, away)
    ensures Inv(ConsumeBits(NotifyBits(s, n, bits), n, taker), f, away)
  {
    var t := ConsumeBits(NotifyBits(s, n, bits), n, taker);
    NotifyConsumeFlags(s, n, bits, taker);
    assert t == s.SetN(n, t.N(n));
    FlagStepKeeps(s, f, away, n, t.N(n));
  }

  lemma NotifyConsumeFlags(s: State, n: NtfId, bits: Word, taker: Pid)
    requires Flags(s)
    ensures Flags(ConsumeBits(NotifyBits(s, n, bits), n, taker))
  {
    var t := ConsumeBits(NotifyBits(s, n, bits), n, taker);
    assert FlagOk(s, n);
    HistoryGrows(s.N(n).history, Notified(bits));
    HistoryGrows(s.N(n).history + [Notified(bits)], Consumed(s.N(n).flag + bits, taker));
    forall o: NtfId ensures FlagOk(t, o) { assert FlagOk(s, o); }
  }

  lemma NotifyFlags(s: State, n: NtfId, bits: Word)
    requires Flags(s) && s.N(n).queue == []
    ensures Flags(NotifyBits(s, n, bits))
  {
    var t := NotifyBits(s, n, bits);
    assert FlagOk(s, n);
    HistoryGrows(s.N(n).history, Notified(bits));
    forall o: NtfId ensures FlagOk(t, o) { assert FlagOk(s, o); }
  }

  lemma TakeFlags(s: State, n: NtfId, e: NtfEvent)
    requires Flags(s) && !e.Notified? && e.bits == s.N(n).flag
    ensures Flags(TakeBits(s, n, e))
  {
    var t := TakeBits(s, n, e);
    assert FlagOk(s, n);
    HistoryGrows(s.N(n).history, e);
    forall o: NtfId ensures FlagOk(t, o) { assert FlagOk(s, o); }
  }

  /** Only the bound process can tell that the flag word changed. */
  lemma FlagStepKeeps(s: State, f: set<Pid>, away: Option<CoreId>, n: NtfId, r: Ntf)
    requires Inv(s, f, away) && Flags(s.SetN(n, r)) && r.bound == s.N(n).bound
    requires r.queue == s.N(n).queue && r.readyToWake == s.N(n).readyToWake
    requires r.flag == {} || r.bound.None? || r.bound.value in f || s.P(r.bound.value).status != BlockedReceive
    ensures Inv(s.SetN(n, r), f, away)
  {
    var t := s.SetN(n, r);
    KeepReady(s, t);
    KeepIpc(s, t);
    KeepNtf(s, t);
    KeepBindings(s, t);
    KeepReplies(s, t);
    FlagPlaces(s, f, away, n, r);
  }

  lemma FlagPlaces(s: State, f: set<Pid>, away: Option<CoreId>, n: NtfId, r: Ntf)
    requires Bindings(s) && Places(s, f, away) && r.bound == s.N(n).bound
    requires r.flag == {} || r.bound.None? || r.bound.value in f || s.P(r.bound.value).status != BlockedReceive
    ensures Places(s.SetN(n, r), f, away)
  {
    var t := s.SetN(n, r);
    var b: Pid := if r.bound.Some? then r.bound.value else 0;
    forall p: Pid | p != b ensures Undisturbed(s, t, f, f, away, p) {
      assert BindMember(s, p);
    }
    assert PlaceOk(s, f, away, b) && BindMember(s, b);
    KeepPlaces(s, t, f, f, away, b);
  }

  // ---------------------------------------------------------------- bindings

  function Bind(s: State, n: NtfId, p: Pid): State {
    s.SetN(n, s.N(n).(bound := Some(p))).SetP(p, s.P(p).(boundPort := Some(n)))
  }

  /** Both ends of the binding of `p` are cleared. */
  function Unbind(s: State, p: Pid): State
    requires s.P(p).boundPort.Some?
  {
    var n := s.P(p).boundPort.value;
    s.SetN(n, s.N(n).(bound := None)).SetP(p, s.P(p).(boundPort := None))
  }

  lemma UnbindKeeps(s: State, f: set<Pid>, away: Option<CoreId>, p: Pid)
    requires Inv(s, f, away) && s.P(p).boundPort.Some?
    ensures Inv(Unbind(s, p), f, away)
  {
    var t := Unbind(s, p);
    var n := s.P(p).boundPort.value;
    assert BindMember(s, p) && PlaceOk(s, f, away, p);
    KeepReady(s, t);
    KeepIpc(s, t);
    KeepNtf(s, t);
    forall o: NtfId ensures BoundOk(t, o) { assert BoundOk(s, o); }
    forall o: Pid ensures BindMember(t, o) { assert BindMember(s, o); }
    forall o: NtfId ensures FlagOk(t, o) { assert FlagOk(s, o); }
    KeepReplies(s, t);
    RebindPlaces(s, f, away, n, s.N(n).(bound := None), p, None);
  }

  lemma RebindPlaces(s: State, f: set<Pid>, away: Option<CoreId>, n: NtfId, r: Ntf, p: Pid, b: Option<NtfId>)
    requires Places(s, f, away) && r.flag == s.N(n).flag
    requires b.None? || p in f || s.P(p).status != BlockedReceive || s.N(b.value).flag == {}
    ensures Places(s.SetN(n, r).SetP(p, s.P(p).(boundPort := b)), f, away)
  {
    var t := s.SetN(n, r).SetP(p, s.P(p).(boundPort := b));
    assert PlaceOk(s, f, away, p);
    forall o: Pid | o != p ensures Undisturbed(s, t, f, f, away, o) {}
    KeepPlaces(s, t, f, f, away, p);
  }

  /** A binding must not leave a blocked receiver with bits it will not be told about. */
  lemma BindKeeps(s: State, f: set<Pid>, away: Option<CoreId>, n: NtfId, p: Pid)
    requires Inv(s, f, away) && s.P(p).boundPort.None? && s.N(n).bound.None?
    requires p in f || s.P(p).status != BlockedReceive || s.N(n).flag == {}
    ensures Inv(Bind(s, n, p), f, away)
  {
    var t := Bind(s, n, p);
    assert PlaceOk(s, f, away, p);
    KeepReady(s, t);
    KeepIpc(s, t);
    KeepNtf(s, t);
    forall o: NtfId ensures BoundOk(t, o) { assert BoundOk(s, o); }
    forall o: Pid ensures BindMember(t, o) { assert BindMember(s, o); }
    forall o: NtfId ensures FlagOk(t, o) { assert FlagOk(s, o); }
    KeepReplies(s, t);
    RebindPlaces(s, f, away, n, s.N(n).(bound := Some(p)), p, Some(n));
  }

  // ---------------------------------------------------------------- reply links

  /** `server` now owes `client` a reply. */
  function Link(s: State, client: Pid, server: Pid): State {
    var s1 := s.SetP(client, s.P(client).(srcWait := true, srcTarget := Some(server)));
    s1.SetP(server, s1.P(server).(dstReady := true, dstTarget := Some(client)))
  }

  /** Nobody owes `client` a reply any more. */
  function CancelReply(s: State, client: Pid): State {
    var server := s.P(client).srcTarget;
    var s1 :=
      if server.Some? && s.P(server.value).dstTarget == Some(client) then
        s.SetP(server.value, s.P(server.value).(dstReady := false, dstTarget := None))
      else s;
    s1.SetP(client, s1.P(client).(srcWait := false, srcTarget := None))
  }

  lemma {:induction false} FollowMore(g: imap<Pid, Pid>, a: Pid, b: Pid, p: Pid, n: nat)
    requires a !in g && b !in g && a != b && Follow(g, p, n).None?
    ensures Follow(g[a := b], p, n + 1).None?
    decreases n
  {
    if p in g {
      FollowMore(g, a, b, g[p], n - 1);
    } else if p == a {
      assert b !in g[a := b];
      assert Follow(g[a := b], b, n).None?;
    }
  }

  lemma {:induction false} FollowLess(g: imap<Pid, Pid>, h: imap<Pid, Pid>, p: Pid, n: nat)
    requires Follow(g, p, n).None?
    requires forall o :: o in h ==> o in g && g[o] == h[o]
    ensures Follow(h, p, n).None?
    decreases n
  {
    if p in h {
      FollowLess(g, h, h[p], n - 1);
    }
  }

  /** A new edge to a process that waits for nobody closes no cycle. */
  lemma AcyclicMore(g: imap<Pid, Pid>, a: Pid, b: Pid)
    requires Acyclic(g) && a !in g && b !in g && a != b
    ensures Acyclic(g[a := b])
  {
    var h := g[a := b];
    forall p: Pid ensures Ends(h, p) {
      assert Ends(g, p);
      var n: nat :| Follow(g, p, n).None?;
      FollowMore(g, a, b, p, n);
    }
  }

  lemma AcyclicLess(g: imap<Pid, Pid>, h: imap<Pid, Pid>)
    requires Acyclic(g)
    requires forall o :: o in h ==> o in g && g[o] == h[o]
    ensures Acyclic(h)
  {
    forall p: Pid ensures Ends(h, p) {
      assert Ends(g, p);
      var n: nat :| Follow(g, p, n).None?;
      FollowLess(g, h, p, n);
    }
  }

  lemma LinkReplies(s: State, client: Pid, server: Pid)
    requires Replies(s) && client != server
    requires s.P(client).srcTarget.None? && s.P(server).srcTarget.None? && s.P(server).dstTarget.None?
    ensures Replies(Link(s, client, server))
  {
    var t := Link(s, client, server);
    AcyclicMore(Links(s), client, server);
    assert Links(t) == Links(s)[client := server];
    forall o: Pid ensures ReplyOk(t, o) { assert ReplyOk(s, o); }
  }

  lemma CancelReplies(s: State, client: Pid)
    requires Replies(s)
    ensures Replies(CancelReply(s, client))
  {
    var t := CancelReply(s, client);
    CancelLinks(s, client);
    assert ReplyOk(s, client);
    forall o: Pid ensures ReplyOk(t, o) { assert ReplyOk(s, o); }
  }

  lemma CancelLinks(s: State, client: Pid)
    requires Acyclic(Links(s))
    ensures Acyclic(Links(CancelReply(s, client)))
  {
    AcyclicLess(Links(s), Links(CancelReply(s, client)));
  }

  lemma LinkPlaces(s: State, f: set<Pid>, away: Option<CoreId>, client: Pid, server: Pid)
    requires Places(s, f, away) && client in f && server in f
    ensures Places(Link(s, client, server), f, away)
  {
    var s1 := s.SetP(client, s.P(client).(srcWait := true, srcTarget := Some(server)));
    TouchPlaces(s, f, away, client, s1.P(client));
    TouchPlaces(s1, f, away, server, s1.P(server).(dstReady := true, dstTarget := Some(client)));
  }

  lemma LinkKeeps(s: State, f: set<Pid>, away: Option<CoreId>, client: Pid, server: Pid)
    requires Inv(s, f, away) && client in f && server in f && client != server
    requires s.P(client).srcTarget.None? && s.P(server).srcTarget.None? && s.P(server).dstTarget.None?
    ensures Inv(Link(s, client, server), f, away)
  {
    var t := Link(s, client, server);
    KeepReady(s, t);
    KeepIpc(s, t);
    KeepNtf(s, t);
    KeepBindings(s, t);
    KeepFlags(s, t);
    LinkReplies(s, client, server);
    LinkPlaces(s, f, away, client, server);
  }

  /** Losing a caller matters to no server's status. */
  lemma ReleasePlaces(s: State, f: set<Pid>, away: Option<CoreId>, p: Pid)
    requires Places(s, f, away)
    ensures Places(s.SetP(p, s.P(p).(dstReady := false, dstTarget := None)), f, away)
  {
    var t := s.SetP(p, s.P(p).(dstReady := false, dstTarget := None));
    assert PlaceOk(s, f, away, p);
    forall o: Pid | o != p ensures Undisturbed(s, t, f, f, away, o) {}
    KeepPlaces(s, t, f, f, away, p);
  }

  lemma CancelKeeps(s: State, f: set<Pid>, away: Option<CoreId>, client: Pid)
    requires Inv(s, f, away) && client in f
    ensures Inv(CancelReply(s, client), f, away)
    ensures var t := CancelReply(s, client);
      && !t.P(client).srcWait && t.P(client).srcTarget.None?
      && (s.P(client).srcTarget.Some? ==> t.P(s.P(client).srcTarget.value).dstTarget.None?)
  {
    assert ReplyOk(s, client);
    CancelSeats(s, client);
    CancelReplies(s, client);
    CancelPlaces(s, f, away, client);
  }

  lemma CancelSeats(s: State, client: Pid)
    requires Seats(s) && Flags(s)
    ensures Seats(CancelReply(s, client)) && Flags(CancelReply(s, client))
  {
    var t := CancelReply(s, client);
    KeepReady(s, t);
    KeepIpc(s, t);
    KeepNtf(s, t);
    KeepBindings(s, t);
    KeepFlags(s, t);
  }

  lemma CancelPlaces(s: State, f: set<Pid>, away: Option<CoreId>, client: Pid)
    requires Inv(s, f, away) && client in f
    ensures Places(CancelReply(s, client), f, away)
  {
    var server := s.P(client).srcTarget;
    if server.Some? && s.P(server.value).dstTarget == Some(client) {
      var s1 := s.SetP(server.value, s.P(server.value).(dstReady := false, dstTarget := None));
      ReleasePlaces(s, f, away, server.value);
      TouchPlaces(s1, f, away, client, s1.P(client).(srcWait := false, srcTarget := None));
    } else {
      TouchPlaces(s, f, away, client, s.P(client).(srcWait := false, srcTarget := None));
    }
  }

  // ---------------------------------------------------------------- ready queues

  /** `p` joins the end of the queue of its priority on its core. */
  function Enqueue(s: State, p: Pid): State {
    var c := s.P(p).affinity;
    var k := s.P(p).priority;
    var core := s.C(c);
    s.SetC(c, core.(ready := core.ready[k := core.ready[k] + [p]],
                    highest := if k > core.highest then k else core.highest))
     .SetP(p, s.P(p).(inReady := true))
  }

  /** The head of queue `k` leaves, and its priority becomes the bound. */
  function Dequeue(s: State, c: CoreId, k: Priority): State
    requires s.C(c).ready[k] != []
  {
    var head := s.C(c).ready[k][0];
    s.SetC(c, s.C(c).(ready := s.C(c).ready[k := s.C(c).ready[k][1..]], highest := s.P(head).priority))
     .SetP(head, s.P(head).(inReady := false))
  }

  /** `p` leaves queue `k` of core `c`, and the bound drops over empty queues. */
  function DropReady(s: State, c: CoreId, k: Priority, p: Pid): State {
    var ready := s.C(c).ready[k := Without(s.C(c).ready[k], p)];
    s.SetC(c, s.C(c).(ready := ready, highest := Tighten(ready, s.C(c).highest, 0)))
     .SetP(p, s.P(p).(inReady := false))
  }

  function SetHighest(s: State, c: CoreId, h: Priority): State {
    s.SetC(c, s.C(c).(highest := h))
  }

  /** Only the scheduling part of core `c` and the `inReady` field of `p` changed. */
  ghost predicate ReadyStep(s: State, t: State, c: CoreId, p: Pid) {
    && t.ports == s.ports && t.ntfs == s.ntfs && t.coreCount == s.coreCount
    && t.procs == s.procs[p := s.P(p).(inReady := t.P(p).inReady)]
    && t.cores == s.cores[c := s.C(c).(ready := t.C(c).ready, highest := t.C(c).highest)]
  }

  lemma ReadyStepKeeps(s: State, t: State, f: set<Pid>, g: set<Pid>, away: Option<CoreId>, c: CoreId, p: Pid)
    requires Inv(s, f, away) && ReadyStep(s, t, c, p) && ReadySeats(t)
    requires forall o: Pid :: o != p ==> (o in f <==> o in g)
    requires PlaceOk(t, g, away, p)
    ensures Inv(t, g, away)
  {
    ReadyStepSeats(s, t, c, p);
    ReadyStepPlaces(s, t, f, g, away, c, p);
  }

  lemma ReadyStepSeats(s: State, t: State, c: CoreId, p: Pid)
    requires Seats(s) && Flags(s) && Replies(s) && ReadyStep(s, t, c, p) && ReadySeats(t)
    ensures Seats(t) && Flags(t) && Replies(t)
  {
    KeepIpc(s, t);
    KeepNtf(s, t);
    KeepBindings(s, t);
    KeepFlags(s, t);
    KeepReplies(s, t);
  }

  lemma ReadyStepPlaces(s: State, t: State, f: set<Pid>, g: set<Pid>, away: Option<CoreId>, c: CoreId, p: Pid)
    requires Places(s, f, away) && ReadyStep(s, t, c, p)
    requires forall o: Pid :: o != p ==> (o in f <==> o in g)
    requires PlaceOk(t, g, away, p)
    ensures Places(t, g, away)
  {
    forall o: Pid | o != p ensures Undisturbed(s, t, f, g, away, o) {}
    KeepPlaces(s, t, f, g, away, p);
  }

  lemma EnqueueSeats(s: State, p: Pid)
    requires ReadySeats(s) && !s.P(p).inReady
    ensures ReadySeats(Enqueue(s, p))
  {
    var t := Enqueue(s, p);
    assert p !in s.C(s.P(p).affinity).ready[s.P(p).priority] by {
      assert QueueOk(s, s.P(p).affinity, s.P(p).priority);
    }
    forall c: CoreId, k: Priority ensures QueueOk(t, c, k) { assert QueueOk(s, c, k); }
    forall o: Pid ensures ReadyMember(t, o) { assert ReadyMember(s, o); }
  }

  lemma EnqueueKeeps(s: State, f: set<Pid>, away: Option<CoreId>, p: Pid)
    requires Inv(s, f, away) && p in f
    requires s.P(p).status == Ready && !s.P(p).srcWait && s.P(p).fault == NoFault
    ensures Inv(Enqueue(s, p), f - {p}, away)
  {
    assert PlaceOk(s, f, away, p);
    EnqueueSeats(s, p);
    ReadyStepKeeps(s, Enqueue(s, p), f, f - {p}, away, s.P(p).affinity, p);
  }

  lemma DequeueSeats(s: State, c: CoreId, k: Priority)
    requires ReadySeats(s) && s.C(c).ready[k] != []
    requires forall i :: k < i <= s.C(c).highest ==> s.C(c).ready[i] == []
    ensures ReadySeats(Dequeue(s, c, k))
    ensures s.P(s.C(c).ready[k][0]).inReady
    ensures s.P(s.C(c).ready[k][0]).affinity == c && s.P(s.C(c).ready[k][0]).priority == k
  {
    var t := Dequeue(s, c, k);
    var head := s.C(c).ready[k][0];
    assert QueueOk(s, c, k) && head in s.C(c).ready[k];
    DistinctTail(s.C(c).ready[k]);
    forall d: CoreId, i: Priority ensures QueueOk(t, d, i) { assert QueueOk(s, d, i); }
    forall o: Pid ensures ReadyMember(t, o) { assert ReadyMember(s, o); }
  }

  lemma DequeueKeeps(s: State, f: set<Pid>, away: Option<CoreId>, c: CoreId, k: Priority)
    requires Inv(s, f, away) && s.C(c).ready[k] != []
    requires forall i :: k < i <= s.C(c).highest ==> s.C(c).ready[i] == []
    ensures Inv(Dequeue(s, c, k), f + {s.C(c).ready[k][0]}, away)
    ensures s.C(c).ready[k][0] !in f
    ensures s.P(s.C(c).ready[k][0]).affinity == c && s.P(s.C(c).ready[k][0]).priority == k
    ensures s.P(s.C(c).ready[k][0]).status == Ready
    ensures !s.P(s.C(c).ready[k][0]).srcWait && s.P(s.C(c).ready[k][0]).fault == NoFault
  {
    var head := s.C(c).ready[k][0];
    DequeueSeats(s, c, k);
    assert PlaceOk(s, f, away, head);
    ReadyStepKeeps(s, Dequeue(s, c, k), f, f + {head}, away, c, head);
  }

  lemma DropReadySeats(s: State, p: Pid)
    requires ReadySeats(s) && s.P(p).inReady
    ensures ReadySeats(DropReady(s, s.P(p).affinity, s.P(p).priority, p))
  {
    var c := s.P(p).affinity;
    var k := s.P(p).priority;
    var t := DropReady(s, c, k, p);
    assert QueueOk(s, c, k);
    WithoutDistinct(s.C(c).ready[k], p);
    forall d: CoreId, i: Priority ensures QueueOk(t, d, i) { assert QueueOk(s, d, i); }
    forall o: Pid ensures ReadyMember(t, o) { assert ReadyMember(s, o); }
  }

  lemma DropReadyKeeps(s: State, f: set<Pid>, away: Option<CoreId>, p: Pid)
    requires Inv(s, f, away) && s.P(p).inReady
    ensures Inv(DropReady(s, s.P(p).affinity, s.P(p).priority, p), f + {p}, away)
    ensures p !in f && s.P(p).status == Ready
    ensures !s.P(p).srcWait && s.P(p).fault == NoFault
  {
    DropReadySeats(s, p);
    assert PlaceOk(s, f, away, p);
    ReadyStepKeeps(s, DropReady(s, s.P(p).affinity, s.P(p).priority, p), f, f + {p}, away, s.P(p).affinity, p);
  }

  lemma SetHighestKeeps(s: State, f: set<Pid>, away: Option<CoreId>, c: CoreId, h: Priority)
    requires Inv(s, f, away)
    requires forall i :: h < i <= s.C(c).highest ==> s.C(c).ready[i] == []
    ensures Inv(SetHighest(s, c, h), f, away)
  {
    var t := SetHighest(s, c, h);
    forall d: CoreId, i: Priority ensures QueueOk(t, d, i) { assert QueueOk(s, d, i); }
    forall o: Pid ensures ReadyMember(t, o) { assert ReadyMember(s, o); }
    assert s.procs == s.procs[0 := s.P(0)];
    assert PlaceOk(s, f, away, 0) && PlaceOf(t, away, 0) == PlaceOf(s, away, 0);
    ReadyStepKeeps(s, t, f, f, away, c, 0);
  }

  // ---------------------------------------------------------------- switching

  function SwitchTo(s: State, c: CoreId, next: Option<Pid>): State {
    s.SetC(c, s.C(c).(current := next))
  }

  function SetPending(s: State, c: CoreId, p: Option<Pid>): State {
    s.SetC(c, s.C(c).(pending := p))
  }

  /** Only the `current` and `pending` fields of cores changed. */
  lemma CoreStepKeeps(s: State, t: State, f: set<Pid>, away: Option<CoreId>)
    requires Seats(s) && Flags(s) && Replies(s) && Places(t, f, away)
    requires t.procs == s.procs && t.ports == s.ports && t.ntfs == s.ntfs
    requires forall c: CoreId :: t.C(c).ready == s.C(c).ready && t.C(c).highest == s.C(c).highest
    ensures Inv(t, f, away)
  {
    KeepReady(s, t);
    KeepIpc(s, t);
    KeepNtf(s, t);
    KeepBindings(s, t);
    KeepFlags(s, t);
    KeepReplies(s, t);
  }

  /** The core that entered the kernel dispatches `p`. */
  lemma SwitchKeeps(s: State, f: set<Pid>, c: CoreId, p: Pid)
    requires Inv(s, f, Some(c)) && p in f && s.P(p).affinity == c
    requires s.P(p).status == Ready && !s.P(p).srcWait && s.P(p).fault == NoFault
    ensures Inv(SwitchTo(s, c, Some(p)), f - {p}, None)
  {
    var t := SwitchTo(s, c, Some(p));
    forall d: CoreId ensures CoreOk(t, None, d) { assert CoreOk(s, Some(c), d); }
    forall o: Pid ensures PlaceOk(t, f - {p}, None, o) {
      assert PlaceOk(s, f, Some(c), o);
      assert o != p ==> PlaceOf(t, None, o) == PlaceOf(s, Some(c), o);
    }
    CoreStepKeeps(s, t, f - {p}, None);
  }

  /** The core that entered the kernel falls back to its idle process. */
  lemma SwitchIdleKeeps(s: State, f: set<Pid>, c: CoreId)
    requires Inv(s, f, Some(c))
    ensures Inv(SwitchTo(s, c, None), f, None)
  {
    var t := SwitchTo(s, c, None);
    forall d: CoreId ensures CoreOk(t, None, d) { assert CoreOk(s, Some(c), d); }
    forall o: Pid ensures PlaceOk(t, f, None, o) {
      assert PlaceOk(s, f, Some(c), o);
      assert PlaceOf(t, None, o) == PlaceOf(s, Some(c), o);
    }
    CoreStepKeeps(s, t, f, None);
  }

  /** The core that entered the kernel returns to the process it came from. */
  lemma StayKeeps(s: State, f: set<Pid>, c: CoreId, p: Pid)
    requires Inv(s, f, Some(c)) && p in f && s.C(c).current == Some(p) && s.P(p).affinity == c
    requires s.P(p).status == Ready && !s.P(p).srcWait && s.P(p).fault == NoFault
    ensures Inv(s, f - {p}, None)
  {
    assert SwitchTo(s, c, Some(p)) == s;
    SwitchKeeps(s, f, c, p);
  }

  /** Some other core is made idle. */
  lemma StopKeeps(s: State, f: set<Pid>, away: Option<CoreId>, c: CoreId, p: Pid)
    requires Inv(s, f, away) && Cur(s, away, c) == Some(p)
    ensures Inv(SwitchTo(s, c, None), f + {p}, away)
  {
    var t := SwitchTo(s, c, None);
    assert CoreOk(s, away, c);
    assert PlaceOk(s, f, away, p);
    forall d: CoreId ensures CoreOk(t, away, d) { assert CoreOk(s, away, d); }
    forall o: Pid ensures PlaceOk(t, f + {p}, away, o) {
      assert PlaceOk(s, f, away, o);
      assert o != p ==> PlaceOf(t, away, o) == PlaceOf(s, away, o);
    }
    CoreStepKeeps(s, t, f + {p}, away);
  }

  lemma SetPendingKeeps(s: State, f: set<Pid>, away: Option<CoreId>, c: CoreId, p: Option<Pid>)
    requires Inv(s, f, away) && (p.Some? ==> s.P(p.value).affinity == c)
    ensures Inv(SetPending(s, c, p), f, away)
  {
    var t := SetPending(s, c, p);
    forall d: CoreId ensures CoreOk(t, away, d) { assert CoreOk(s, away, d); }
    forall o: Pid ensures PlaceOk(t, f, away, o) {
      assert PlaceOk(s, f, away, o);
      assert PlaceOf(t, away, o) == PlaceOf(s, away, o);
    }
    CoreStepKeeps(s, t, f, away);
  }
}
