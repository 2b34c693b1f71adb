/** The operations of a notification port, and who receives the notified bits. */
module NotificationPort {
  import opened Common
  import opened KernelState
  import opened KernelPrimitives
  import opened ProcessManager
  import opened IpcPort
  import opened IpcInvariant

  const MR_FLAG_WORD: nat := 2

  // ---------------------------------------------------------------- operations

  /** A bound process blocked in RECEIVE gets the bits as a message. */
  function WakeBound(s: State, c: CoreId, n: NtfId, p: Pid): (State, Outcome) {
    if s.P(p).ipcPort.None? then (s, Err(FatalError))
    else
      var s1 := RemoveIpc(s, p);
      var flag := s1.N(n).flag;
      var s2 := ConsumeBits(s1, n, p);
      var s3 := SetRegs(s2, p, s2.P(p).regs[MR_MESSAGE_INFO := {14}][MR_IDENTIFIER := flag]);
      var s4 := s3.SetP(p, s3.P(p).(status := Ready, ipcPort := None, ntfPort := None));
      (RouteMarkScheduledPreempting(s4, c, p), Ok)
  }

  /** Notification on behalf of whatever core `c` runs. */
  function Notify(s: State, c: CoreId, cap: Cap): (State, Outcome) {
    var n := cap.port;
    if !cap.writable then (s, Err(PermissionDenied))
    else
      var s1 := NotifyBits(s, n, cap.identifier);
      if s1.N(n).bound.Some? && s1.P(s1.N(n).bound.value).status == BlockedReceive then
        WakeBound(s1, c, n, s1.N(n).bound.value)
      else if !s1.N(n).readyToWake then (s1, Ok)
      else if s1.N(n).queue == [] then (s1, Err(FatalError))
      else
        var p := s1.N(n).queue[0];
        var s2 := PopNtf(s1, n);
        var flag := s2.N(n).flag;
        var s3 := ConsumeBits(s2, n, p);
        var s4 := SetRegs(s3, p, s3.P(p).regs[MR_FLAG_WORD := flag]);
        (RouteMarkScheduledPreempting(s4, c, p), Ok)
  }

  function TakeFlag(s: State, n: NtfId, owner: Pid): State {
    SetRegs(ConsumeBits(s, n, owner), owner, s.P(owner).regs[MR_FLAG_WORD := s.N(n).flag])
  }

  function WaitFlag(s: State, owner: Pid, cap: Cap): (State, Outcome) {
    var n := cap.port;
    if !cap.readable then (s, Err(PermissionDenied))
    else if s.N(n).bound.Some? && s.N(n).bound != Some(owner) then (s, Err(FatalError))
    else if !s.N(n).readyToWake && Pending(s, n) then (TakeFlag(s, n, owner), Ok)
    else
      var s1 := s.SetP(owner, s.P(owner).(status := BlockedWait));
      (TryScheduleAndSwitch(PushNtf(s1, n, owner), s.P(owner).affinity), Ok)
  }

  function Poll(s: State, owner: Pid, cap: Cap): (State, Outcome) {
    var n := cap.port;
    if !cap.readable then (s, Err(PermissionDenied))
    else if s.N(n).bound.Some? && s.N(n).bound != Some(owner) then (s, Err(FatalError))
    else if !Pending(s, n) then (SetRegs(s, owner, s.P(owner).regs[MR_FLAG_WORD := {}]), Ok)
    else (TakeFlag(s, n, owner), Ok)
  }

  function DrainNtf(s: State, n: NtfId): State
    decreases |s.N(n).queue|
  {
    if s.N(n).queue == [] then s
    else DrainNtf(CompleteRevokedWait(PopNtf(s, n), s.N(n).queue[0]), n)
  }

  function RevokeNtf(s: State, n: NtfId): State {
    var s1 := DrainNtf(s, n);
    var s2 := if s1.N(n).bound.Some? && s1.P(s1.N(n).bound.value).boundPort == Some(n)
              then Unbind(s1, s1.N(n).bound.value) else s1.SetN(n, s1.N(n).(bound := None));
    var s3 := TakeBits(s2, n, Discarded(s2.N(n).flag));
    s3.SetN(n, s3.N(n).(readyToWake := false))
  }

  // ---------------------------------------------------------------- invariant

  lemma WakeKeeps(s: State, c: CoreId, p: Pid)
    requires Inv(s, {} + {p}, None) && !s.P(p).srcWait && s.P(p).fault == NoFault
    ensures var t := RouteMarkScheduledPreempting(s, c, p);
      && Good(t) && t.ntfs == s.ntfs
      && t.P(p).status == Ready && t.P(p).regs == s.P(p).regs && t.P(p).ipcPort == s.P(p).ipcPort
  {
    RoutePreemptingKeeps(s, {} + {p}, c, p);
    assert {} + {p} - {p} == {};
    PreemptingLeaves(s, c, p);
    assert SameUpToTurn(RouteMarkScheduledPreempting(s, c, p).P(p), MadeReady(s, p).P(p));
  }

  lemma WakeBoundKeeps(s: State, c: CoreId, n: NtfId, p: Pid, bits: Word)
    requires Good(s) && s.N(n).bound == Some(p) && s.P(p).status == BlockedReceive
    ensures Good(WakeBound(NotifyBits(s, n, bits), c, n, p).0)
    ensures var t := WakeBound(NotifyBits(s, n, bits), c, n, p).0;
      t.N(n).flag == {} && t.P(p).status == Ready && t.P(p).ipcPort.None? && t.P(p).regs[MR_IDENTIFIER] == s.N(n).flag + bits
  {
    assert PlaceOk(s, {}, None, p);
    RemoveIpcKeeps(s, {}, None, p);
    var f := {} + {p};
    var s1 := RemoveIpc(s, p);
    NotifyConsumeKeeps(s1, f, None, n, bits, p);
    var s2 := ConsumeBits(NotifyBits(s1, n, bits), n, p);
    assert s2 == ConsumeBits(RemoveIpc(NotifyBits(s, n, bits), p), n, p);
    var regs := s2.P(p).regs[MR_MESSAGE_INFO := {14}][MR_IDENTIFIER := s.N(n).flag + bits];
    RegsKeep(s2, f, None, p, regs);
    var s3 := SetRegs(s2, p, regs);
    var s4 := s3.SetP(p, s3.P(p).(status := Ready, ipcPort := None, ntfPort := None));
    Touch(s3, f, None, p, s4.P(p));
    WakeKeeps(s4, c, p);
  }

  lemma WakeWaiterKeeps(s: State, c: CoreId, cap: Cap)
    requires Good(s) && cap.writable && s.N(cap.port).queue != []
    requires s.N(cap.port).bound.None? || s.P(s.N(cap.port).bound.value).status != BlockedReceive
    ensures Good(Notify(s, c, cap).0)
    ensures Notify(s, c, cap).0.N(cap.port).flag == {} && Notify(s, c, cap).0.P(s.N(cap.port).queue[0]).status == Ready
  {
    var n := cap.port;
    var p := s.N(n).queue[0];
    assert NtfOk(s, n) && p in s.N(n).queue && PlaceOk(s, {}, None, p);
    PopNtfKeeps(s, {}, None, n);
    var f := {} + {p};
    var s1 := PopNtf(s, n);
    NotifyConsumeKeeps(s1, f, None, n, cap.identifier, p);
    var s3 := ConsumeBits(NotifyBits(s1, n, cap.identifier), n, p);
    assert s3.ntfs == ConsumeBits(PopNtf(NotifyBits(s, n, cap.identifier), n), n, p).ntfs;
    var regs := s3.P(p).regs[MR_FLAG_WORD := s.N(n).flag + cap.identifier];
    RegsKeep(s3, f, None, p, regs);
    WakeKeeps(SetRegs(s3, p, regs), c, p);
  }

  /** Who gets the bits of the next notification: a blocked bound process before the oldest waiter. */
  function Recipient(s: State, n: NtfId): Option<Pid> {
    if s.N(n).bound.Some? && s.P(s.N(n).bound.value).status == BlockedReceive then s.N(n).bound
    else if s.N(n).queue != [] then Some(s.N(n).queue[0])
    else None
  }

  lemma NotifyKeeps(s: State, c: CoreId, cap: Cap)
    requires Good(s)
    ensures Good(Notify(s, c, cap).0)
    ensures var t := Notify(s, c, cap).0;
      cap.writable ==>
        match Recipient(s, cap.port)
        case Some(p) => t.N(cap.port).flag == {} && t.P(p).status == Ready
        case None => t == NotifyBits(s, cap.port, cap.identifier)
  {
    var n := cap.port;
    assert NtfOk(s, n);
    if cap.writable {
      if s.N(n).bound.Some? && s.P(s.N(n).bound.value).status == BlockedReceive {
        WakeBoundKeeps(s, c, n, s.N(n).bound.value, cap.identifier);
      } else if s.N(n).queue != [] {
        WakeWaiterKeeps(s, c, cap);
      } else {
        NotifyBitsKeeps(s, {}, None, n, cap.identifier);
      }
    }
  }

  lemma TakeFlagKeeps(s: State, n: NtfId, owner: Pid)
    requires Good(s)
    ensures Good(TakeFlag(s, n, owner))
  {
    TakeBitsKeeps(s, {}, None, n, Consumed(s.N(n).flag, owner));
    RegsKeep(ConsumeBits(s, n, owner), {}, None, owner, s.P(owner).regs[MR_FLAG_WORD := s.N(n).flag]);
  }

  lemma WaitKeeps(s: State, c: CoreId, owner: Pid, cap: Cap)
    requires Good(s) && s.C(c).current == Some(owner)
    ensures Good(WaitFlag(s, owner, cap).0)
    ensures var (t, res) := WaitFlag(s, owner, cap);
      res.Ok? ==>
        if Pending(s, cap.port) then t.N(cap.port).flag == {} && t.P(owner).regs[MR_FLAG_WORD] == s.N(cap.port).flag
        else t.N(cap.port).queue == s.N(cap.port).queue + [owner] && t.P(owner).status == BlockedWait
  {
    var n := cap.port;
    assert NtfOk(s, n) && FlagOk(s, n);
    TakeFlagKeeps(s, n, owner);
    if cap.readable && (s.N(n).bound.None? || s.N(n).bound == Some(owner)) && (s.N(n).readyToWake || !Pending(s, n)) {
      LeaveOne(s, c, owner);
      var s1 := s.SetP(owner, s.P(owner).(status := BlockedWait));
      Touch(s, {owner}, Some(c), owner, s1.P(owner));
      assert PlaceOf(s1, Some(c), owner) == PlaceOf(s, Some(c), owner);
      PushNtfKeeps(s1, {owner}, Some(c), n, owner);
      assert {owner} - {owner} == {};
      SwitchAwayKeeps(PushNtf(s1, n, owner), {}, c);
      DispatchLeaves(PushNtf(s1, n, owner), c);
      StatusAfter(PushNtf(s1, n, owner), c, owner);
    }
  }

  lemma PollKeeps(s: State, owner: Pid, cap: Cap)
    requires Good(s)
    ensures Good(Poll(s, owner, cap).0)
  {
    TakeFlagKeeps(s, cap.port, owner);
    RegsKeep(s, {}, None, owner, s.P(owner).regs[MR_FLAG_WORD := {}]);
  }

  lemma {:induction false} DrainNtfKeeps(s: State, n: NtfId)
    requires Good(s)
    ensures Good(DrainNtf(s, n)) && DrainNtf(s, n).N(n).queue == []
    decreases |s.N(n).queue|
  {
    if s.N(n).queue != [] {
      var p := s.N(n).queue[0];
      assert p in s.N(n).queue && NtfOk(s, n) && PlaceOk(s, {}, None, p);
      PopNtfKeeps(s, {}, None, n);
      var f := {} + {p};
      CompleteRevokedKeeps(PopNtf(s, n), f, None, p);
      assert f - {p} == {};
      DrainNtfKeeps(CompleteRevokedWait(PopNtf(s, n), p), n);
    }
  }

  /** A revoked port has no waiters, no binding and no pending bits. */
  lemma RevokeNtfKeeps(s: State, n: NtfId)
    requires Good(s)
    ensures var t := RevokeNtf(s, n);
      Good(t) && t.N(n).queue == [] && t.N(n).bound.None? && !Pending(t, n)
  {
    DrainNtfKeeps(s, n);
    DrainedKeeps(DrainNtf(s, n), n);
  }

  /** Once nobody waits, the binding and the bits go. */
  lemma DrainedKeeps(s1: State, n: NtfId)
    requires Good(s1) && s1.N(n).queue == []
    ensures var s2 := if s1.N(n).bound.Some? && s1.P(s1.N(n).bound.value).boundPort == Some(n)
                      then Unbind(s1, s1.N(n).bound.value) else s1.SetN(n, s1.N(n).(bound := None));
      var s3 := TakeBits(s2, n, Discarded(s2.N(n).flag));
      var t := s3.SetN(n, s3.N(n).(readyToWake := false));
      Good(t) && t.N(n).queue == [] && t.N(n).bound.None? && !Pending(t, n)
  {
    assert BoundOk(s1, n);
    var s2 := if s1.N(n).bound.Some? then Unbind(s1, s1.N(n).bound.value) else s1;
    if s1.N(n).bound.Some? {
      UnbindKeeps(s1, {}, None, s1.N(n).bound.value);
    } else {
      assert s1.SetN(n, s1.N(n).(bound := None)) == s1;
    }
    TakeBitsKeeps(s2, {}, None, n, Discarded(s2.N(n).flag));
    var s3 := TakeBits(s2, n, Discarded(s2.N(n).flag));
    assert NtfOk(s3, n);
    assert s3.SetN(n, s3.N(n).(readyToWake := false)) == s3;
  }
}
