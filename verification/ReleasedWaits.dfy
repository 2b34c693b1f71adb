/** Waits that can no longer complete: who is released when a port goes, in which order, and what they are told. */
module ReleasedWaits {
  import opened Common
  import opened KernelState
  import opened KernelPrimitives
  import opened ProcessManager
  import opened IpcPort
  import opened IpcInvariant
  import opened NotificationPort

  /** The call failed without an error code, nothing is awaited, and a process that has not faulted is ready. */
  ghost function Ended(r: Proc): Proc {
    var told := r.(regs := r.regs[MR_IS_SUCCESS := {}][MR_ERROR_CODE := {}],
                   ipcPort := None, ntfPort := None, srcWait := false, srcTarget := None);
    if r.fault != NoFault then told.(status := BlockedSuspend)
    else told.(status := Ready, quantum := QUANTUM_MAX, inReady := true)
  }

  /** Those of `q`, in order, that become ready on core `c` at priority `k`. */
  ghost function Woken(procs: Procs, q: seq<Pid>, c: CoreId, k: Priority): seq<Pid> {
    if q == [] then []
    else
      var r := procs[q[0]];
      (if r.fault == NoFault && r.affinity == c && r.priority == k then [q[0]] else []) + Woken(procs, q[1..], c, k)
  }

  /** Exactly the processes of `q` are released, in order; nobody else and no core notices. */
  ghost predicate AllReleased(s: State, t: State, q: seq<Pid>) {
    && (forall p: Pid :: t.P(p) == if p in q then Ended(s.P(p)) else s.P(p))
    && (forall c: CoreId, k: Priority :: t.C(c).ready[k] == s.C(c).ready[k] + Woken(s.procs, q, c, k))
    && (forall c: CoreId :: t.C(c).current == s.C(c).current && t.C(c).pending == s.C(c).pending)
  }

  /** What a released process is told, and where it is found. */
  lemma ReleasedMeans(s: State, t: State, q: seq<Pid>, p: Pid)
    requires AllReleased(s, t, q) && p in q
    ensures t.P(p).regs[MR_IS_SUCCESS] == {} && t.P(p).regs[MR_ERROR_CODE] == {} && t.P(p).srcTarget.None? && !t.P(p).srcWait
    ensures if s.P(p).fault != NoFault then t.P(p).status == BlockedSuspend
      else t.P(p).status == Ready && p in t.C(s.P(p).affinity).ready[s.P(p).priority]
  {
    if s.P(p).fault == NoFault { WokenHas(s.procs, q, p); }
  }

  lemma {:induction false} WokenHas(procs: Procs, q: seq<Pid>, p: Pid)
    requires p in q && procs[p].fault == NoFault
    ensures p in Woken(procs, q, procs[p].affinity, procs[p].priority)
    decreases |q|
  {
    if q[0] != p { WokenHas(procs, q[1..], p); }
  }

  ghost predicate SameTurn(a: Proc, b: Proc) {
    a.fault == b.fault && a.affinity == b.affinity && a.priority == b.priority
  }

  lemma {:induction false} WokenAlike(a: Procs, b: Procs, q: seq<Pid>, c: CoreId, k: Priority)
    requires forall p :: p in q ==> SameTurn(a[p], b[p])
    ensures Woken(a, q, c, k) == Woken(b, q, c, k)
    decreases |q|
  {
    if q != [] {
      assert q[0] in q;
      WokenAlike(a, b, q[1..], c, k);
    }
  }

  /** One wait ends. */
  lemma OneReleased(s: State, p: Pid)
    requires !s.P(p).inReady && !s.P(p).srcWait && s.P(p).srcTarget.None? && s.P(p).ipcPort.None? && s.P(p).ntfPort.None?
    requires s.P(p).fault != NoFault || s.P(p).status in {BlockedSend, BlockedReceive, BlockedReply, BlockedWait}
    ensures var t := CompleteRevokedWait(s, p);
      AllReleased(s, t, [p]) && t.ports == s.ports && t.ntfs == s.ntfs
  {
    var t := CompleteRevokedWait(s, p);
    forall c: CoreId, k: Priority ensures t.C(c).ready[k] == s.C(c).ready[k] + Woken(s.procs, [p], c, k) {
      assert [p][1..] == [] && Woken(s.procs, [], c, k) == [];
    }
  }

  /** The head is released, then the others. */
  lemma ReleasedInTurn(s: State, t: State, u: State, q: seq<Pid>)
    requires q != [] && Distinct(q) && AllReleased(s, t, [q[0]]) && AllReleased(t, u, q[1..])
    ensures AllReleased(s, u, q)
  {
    forall o: Pid ensures u.P(o) == if o in q then Ended(s.P(o)) else s.P(o) {
      assert t.P(o) == if o in [q[0]] then Ended(s.P(o)) else s.P(o);
      assert o in q <==> o == q[0] || o in q[1..];
    }
    forall c: CoreId, k: Priority ensures u.C(c).ready[k] == s.C(c).ready[k] + Woken(s.procs, q, c, k) {
      forall o | o in q[1..] ensures s.procs[o] == t.procs[o] { assert t.P(o) == s.P(o); }
      WokenInTurn(s.procs, t.procs, q, c, k);
    }
  }

  lemma WokenInTurn(a: Procs, b: Procs, q: seq<Pid>, c: CoreId, k: Priority)
    requires q != [] && forall o :: o in q[1..] ==> a[o] == b[o]
    ensures Woken(a, q, c, k) == Woken(a, [q[0]], c, k) + Woken(b, q[1..], c, k)
  {
    WokenAlike(a, b, q[1..], c, k);
    assert [q[0]][1..] == [] && Woken(a, [], c, k) == [];
  }

  /** Where the fields that a release clears are clear already, it does not matter when they were cleared. */
  lemma ReleasedFrom(s: State, s1: State, t: State, q: seq<Pid>)
    requires AllReleased(s1, t, q) && s1.cores == s.cores
    requires forall p: Pid :: if p in q then Ended(s1.P(p)) == Ended(s.P(p)) && SameTurn(s1.P(p), s.P(p)) else s1.P(p) == s.P(p)
    ensures AllReleased(s, t, q)
  {
    forall c: CoreId, k: Priority ensures t.C(c).ready[k] == s.C(c).ready[k] + Woken(s.procs, q, c, k) {
      WokenAlike(s1.procs, s.procs, q, c, k);
    }
  }

  // ---------------------------------------------------------------- IPC ports

  /** What is done to the head of the queue of a port that goes. */
  ghost function Popped(s: State, q: PortId): State
    requires s.Q(q).queue != []
  {
    var p := s.Q(q).queue[0];
    var s1 := PopIpc(s, q);
    s1.SetP(p, s1.P(p).(srcWait := false, srcTarget := None))
  }

  lemma HeadReleased(s: State, q: PortId)
    requires Good(s) && s.Q(q).queue != []
    ensures var p := s.Q(q).queue[0]; var t := CompleteRevokedWait(Popped(s, q), p);
      && AllReleased(s, t, [p]) && t.Q(q).queue == s.Q(q).queue[1..]
  {
    var p := s.Q(q).queue[0];
    assert p in s.Q(q).queue && PortOk(s, q) && PlaceOk(s, {}, None, p) && ReplyOk(s, p);
    var s1 := Popped(s, q);
    OneReleased(s1, p);
    ReleasedFrom(s, s1, CompleteRevokedWait(s1, p), [p]);
  }

  lemma {:induction false} DrainReleases(s: State, q: PortId)
    requires Good(s)
    ensures AllReleased(s, DrainPort(s, q), s.Q(q).queue)
    decreases |s.Q(q).queue|
  {
    if s.Q(q).queue != [] {
      HeadReleased(s, q);
      HeadGone(s, q);
      var s1 := CompleteRevokedWait(Popped(s, q), s.Q(q).queue[0]);
      DrainReleases(s1, q);
      assert PortOk(s, q);
      ReleasedInTurn(s, s1, DrainPort(s1, q), s.Q(q).queue);
    }
  }

  lemma {:induction false} DrainLeaves(s: State, q: PortId)
    ensures var t := DrainPort(s, q); t.ntfs == s.ntfs && forall r: PortId :: r != q ==> t.Q(r) == s.Q(r)
    decreases |s.Q(q).queue|
  {
    if s.Q(q).queue != [] { DrainLeaves(CompleteRevokedWait(Popped(s, q), s.Q(q).queue[0]), q); }
  }

  lemma HeadGone(s: State, q: PortId)
    requires Good(s) && s.Q(q).queue != []
    ensures Good(CompleteRevokedWait(Popped(s, q), s.Q(q).queue[0]))
  {
    var p := s.Q(q).queue[0];
    assert p in s.Q(q).queue && PortOk(s, q) && PlaceOk(s, {}, None, p) && ReplyOk(s, p);
    PopIpcKeeps(s, {}, None, q);
    var f := {} + {p};
    Touch(PopIpc(s, q), f, None, p, Popped(s, q).P(p));
    CompleteRevokedKeeps(Popped(s, q), f, None, p);
    assert f - {p} == {};
  }

  /**
   Revoking an IPC port: everybody in its queue, and nobody else, is told that the call failed and awaits
   nothing; those that had faulted are suspended, the others are ready on their cores in their old order.
   */
  lemma RevokePortReleases(s: State, q: PortId)
    requires Good(s)
    ensures var t := RevokePort(s, q);
      && AllReleased(s, t, s.Q(q).queue) && t.Q(q) == Port(Wait, [])
      && t.ntfs == s.ntfs && forall r: PortId :: r != q ==> t.Q(r) == s.Q(r)
  {
    DrainReleases(s, q);
    DrainLeaves(s, q);
    DrainKeeps(s, q);
  }

  // ---------------------------------------------------------------- notification ports

  lemma WaiterReleased(s: State, n: NtfId)
    requires Good(s) && s.N(n).queue != []
    ensures var p := s.N(n).queue[0]; var t := CompleteRevokedWait(PopNtf(s, n), p);
      && Good(t) && AllReleased(s, t, [p]) && t.N(n).queue == s.N(n).queue[1..]
  {
    var p := s.N(n).queue[0];
    assert p in s.N(n).queue && NtfOk(s, n) && PlaceOk(s, {}, None, p) && ReplyOk(s, p);
    var s1 := PopNtf(s, n);
    OneReleased(s1, p);
    ReleasedFrom(s, s1, CompleteRevokedWait(s1, p), [p]);
    PopNtfKeeps(s, {}, None, n);
    var f := {} + {p};
    CompleteRevokedKeeps(s1, f, None, p);
    assert f - {p} == {};
  }

  lemma {:induction false} DrainNtfReleases(s: State, n: NtfId)
    requires Good(s)
    ensures AllReleased(s, DrainNtf(s, n), s.N(n).queue)
    decreases |s.N(n).queue|
  {
    if s.N(n).queue != [] {
      WaiterReleased(s, n);
      var s1 := CompleteRevokedWait(PopNtf(s, n), s.N(n).queue[0]);
      DrainNtfReleases(s1, n);
      assert NtfOk(s, n);
      ReleasedInTurn(s, s1, DrainNtf(s1, n), s.N(n).queue);
    }
  }

  lemma {:induction false} DrainNtfLeaves(s: State, n: NtfId)
    ensures var t := DrainNtf(s, n);
      t.ports == s.ports && t.N(n).bound == s.N(n).bound && forall m: NtfId :: m != n ==> t.N(m) == s.N(m)
    decreases |s.N(n).queue|
  {
    if s.N(n).queue != [] { DrainNtfLeaves(CompleteRevokedWait(PopNtf(s, n), s.N(n).queue[0]), n); }
  }

  /** The state once the binding of `n`, if any, is gone. */
  ghost function Unbound(s: State, n: NtfId): State {
    if s.N(n).bound.None? then s else WithoutBinding(s, s.N(n).bound.value)
  }

  /** Revoking a notification port releases its waiters in the same way, and unbinds whoever was bound. */
  lemma RevokeNtfReleases(s: State, n: NtfId)
    requires Good(s)
    ensures var t := RevokeNtf(s, n);
      && AllReleased(Unbound(s, n), t, s.N(n).queue) && t.ports == s.ports
      && t.N(n).queue == [] && t.N(n).bound.None? && !Pending(t, n) && forall m: NtfId :: m != n ==> t.N(m) == s.N(m)
  {
    var s1 := DrainNtf(s, n);
    DrainNtfReleases(s, n);
    DrainNtfLeaves(s, n);
    DrainNtfKeeps(s, n);
    RevokeNtfKeeps(s, n);
    if s.N(n).bound.Some? { UnboundReleases(s, s1, s.N(n).bound.value, s.N(n).queue); }
    Drained(s1, n);
    SameReleased(Unbound(s, n), Unbound(s1, n), RevokeNtf(s, n), s.N(n).queue);
  }

  lemma Drained(s1: State, n: NtfId)
    requires Good(s1)
    ensures var s2 := if s1.N(n).bound.Some? && s1.P(s1.N(n).bound.value).boundPort == Some(n)
                      then Unbind(s1, s1.N(n).bound.value) else s1.SetN(n, s1.N(n).(bound := None));
      s2.procs == Unbound(s1, n).procs && s2.cores == s1.cores && s2.ports == s1.ports && forall m: NtfId :: m != n ==> s2.N(m) == s1.N(m)
  {
    assert BoundOk(s1, n);
  }

  lemma SameReleased(s: State, t: State, u: State, q: seq<Pid>)
    requires AllReleased(s, t, q) && u.procs == t.procs && u.cores == t.cores
    ensures AllReleased(s, u, q)
  {
  }

  ghost function WithoutBinding(s: State, b: Pid): State {
    s.SetP(b, s.P(b).(boundPort := None))
  }

  lemma UnboundReleases(s: State, t: State, b: Pid, q: seq<Pid>)
    requires AllReleased(s, t, q)
    ensures AllReleased(WithoutBinding(s, b), WithoutBinding(t, b), q)
  {
    var s1 := WithoutBinding(s, b);
    var t1 := WithoutBinding(t, b);
    forall p: Pid ensures t1.P(p) == if p in q then Ended(s1.P(p)) else s1.P(p) {
      assert t.P(p) == if p in q then Ended(s.P(p)) else s.P(p);
      assert Ended(s.P(b).(boundPort := None)) == Ended(s.P(b)).(boundPort := None);
    }
    forall c: CoreId ensures t1.C(c).current == s1.C(c).current && t1.C(c).pending == s1.C(c).pending {
      assert t.C(c).current == s.C(c).current;
    }
    forall c: CoreId, k: Priority ensures t1.C(c).ready[k] == s1.C(c).ready[k] + Woken(s1.procs, q, c, k) {
      forall p | p in q ensures SameTurn(s.procs[p], s1.procs[p]) {}
      WokenAlike(s.procs, s1.procs, q, c, k);
    }
  }

  // ---------------------------------------------------------------- callers that get no reply

  /** A caller whose server goes on to receive without replying is released like everybody else. */
  lemma DiscardReleases(s: State, c: CoreId, owner: Pid)
    requires Good(s) && s.C(c).current == Some(owner) && s.P(owner).dstReady
    ensures var client := s.P(owner).dstTarget; var t := DiscardCaller(s, owner);
      && client.Some? && AllReleased(Forget(s, owner), t, [client.value]) && t.ports == s.ports && t.ntfs == s.ntfs
  {
    Running(s, c, owner);
    assert ReplyOk(s, owner);
    var client := s.P(owner).dstTarget.value;
    assert ReplyOk(s, client) && PlaceOk(s, {}, None, client);
    var s1 := CancelReply(s, client);
    OneReleased(s1, client);
    ReleasedFrom(Forget(s, owner), s1, CompleteRevokedWait(s1, client), [client]);
    assert Forget(CompleteRevokedWait(s1, client), owner) == CompleteRevokedWait(s1, client);
  }
}
