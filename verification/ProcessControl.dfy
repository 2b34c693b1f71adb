/** Process control: configure, resume, suspend and the teardown of a process. */
module ProcessControl {
  import opened Common
  import opened KernelState
  import opened KernelPrimitives
  import opened ProcessManager
  import opened IpcPort
  import opened IpcInvariant

  // ---------------------------------------------------------------- operations

  function Detach(s: State, p: Pid): State {
    var s1 := if s.P(p).ipcPort.Some? then RemoveIpc(s, p) else s;
    if s1.P(p).ntfPort.Some? then RemoveNtf(s1, p) else s1
  }

  function CancelOwnWait(s: State, p: Pid): State {
    CancelReply(Detach(s, p), p)
  }

  function ClearFault(s: State, p: Pid): State {
    s.SetP(p, s.P(p).(fault := NoFault))
  }

  predicate RunsOnAssignedCore(s: State, p: Pid) {
    s.C(s.P(p).affinity).current == Some(p)
  }

  /** Core `c` resumes `p`. */
  function Resume(s: State, c: CoreId, p: Pid): (State, Outcome) {
    if RunsOnAssignedCore(s, p) then (s, Err(InvalidArgument))
    else
      var s1 := ClearFault(CancelOwnWait(s, p), p);
      (RouteMarkScheduled(s1.SetP(p, s1.P(p).(status := Ready)), c, p), Ok)
  }

  /** An invocation that is cut short and has a result to report. */
  predicate NativeWait(r: Proc) {
    r.fault == NoFault
    && (r.ipcPort.Some? || r.ntfPort.Some? || r.srcWait
        || r.status in {BlockedSend, BlockedReceive, BlockedReply, BlockedWait})
  }

  function Suspend(s: State, p: Pid): State {
    var s1 := StopProcess(s, p);
    var s2 := if NativeWait(s.P(p)) then SetRegs(s1, p, s1.P(p).regs[MR_IS_SUCCESS := {}][MR_ERROR_CODE := {}]) else s1;
    ClearFault(CancelOwnWait(s2, p), p)
  }

  /** The saved context is zeroed; message registers in an IPC buffer are not part of it. */
  function ClearContext(regs: Registers): Registers {
    seq(REGISTER_COUNT, i requires 0 <= i < REGISTER_COUNT => if i < MESSAGE_REGISTER_COUNT then {} else regs[i])
  }

  /** The process gives up its IPC buffer, its resolver port and its context. */
  function DropOwned(s: State, p: Pid): State {
    s.SetP(p, s.P(p).(hasBuffer := false, resolver := None, regs := ClearContext(s.P(p).regs)))
  }

  /** The process part of the teardown of a process control block. */
  function RevokeProcess(s: State, p: Pid): State {
    GiveUp(ReleaseCaller(Detach(StopProcess(s, p), p), p), p)
  }

  /** A caller that `p` was serving ends its wait with an error. */
  function ReleaseCaller(s: State, p: Pid): State {
    if s.P(p).dstTarget.Some? then CancelReplyWithError(s, s.P(p).dstTarget.value) else s
  }

  /** The end of the teardown: the own wait, what the process owns, and its binding. */
  function GiveUp(s: State, p: Pid): State {
    var t := DropOwned(CancelReply(s, p), p);
    if t.P(p).boundPort.Some? then Unbind(t, p) else t
  }

  function ConfigurePriority(s: State, p: Pid, k: nat): (State, Outcome) {
    if k >= PRIORITY_MAX then (s, Err(InvalidArgument)) else (s.SetP(p, s.P(p).(priority := k)), Ok)
  }

  function ConfigureAffinity(s: State, p: Pid, d: nat): (State, Outcome) {
    if d >= s.coreCount then (s, Err(InvalidArgument))
    else if d != s.P(p).affinity && (s.P(p).status == Ready || RunsOnAssignedCore(s, p)) then (s, Err(InvalidArgument))
    else (s.SetP(p, s.P(p).(affinity := d)), Ok)
  }

  /** The old binding goes first; a port bound to another process refuses. */
  function ConfigureBinding(s: State, p: Pid, n: NtfId): (State, Outcome) {
    var s1 := if s.P(p).boundPort.Some? then Unbind(s, p) else s;
    if s1.N(n).bound.Some? && s1.N(n).bound != Some(p) then (s1, Err(FatalError)) else (Bind(s1, n, p), Ok)
  }

  /** `isFrame` says whether the descriptor given for the IPC buffer names a Frame. */
  function ConfigureBuffer(s: State, p: Pid, isFrame: bool): (State, Outcome) {
    if isFrame then (s.SetP(p, s.P(p).(hasBuffer := true)), Ok) else (s, Err(InvalidDescriptor))
  }

  /** WRITE_REGISTER: general registers of `p`, whatever it is doing, from the message registers of the caller. */
  function WriteRegisters(s: State, owner: Pid, p: Pid): (State, Outcome) {
    var count := Field(s.P(owner).regs[MR_REGISTER_COUNT], 0, 64);
    if count > HARDWARE_CONTEXT_SIZE then (s, Err(InvalidArgument))
    else
      var fits := REGISTER_START + count <= MESSAGE_REGISTER_COUNT || s.P(owner).hasBuffer;
      var words := if fits then count else MESSAGE_REGISTER_COUNT - REGISTER_START;
      (SetRegs(s, p, WriteContext(s.P(p).regs, s.P(owner).regs, REGISTER_START, words)), if fits then Ok else Err(FatalError))
  }

  function ConfigureResolver(s: State, p: Pid, r: Resolver): State {
    s.SetP(p, s.P(p).(resolver := Some(r)))
  }

  // ---------------------------------------------------------------- leaving every queue

  /** A blocked process leaves whatever queue it is in. */
  lemma DetachKeeps(s: State, p: Pid)
    requires Good(s) && !s.P(p).inReady && !RunsOnAssignedCore(s, p)
    ensures Inv(Detach(s, p), {p}, None)
    ensures Detach(s, p).P(p) == s.P(p).(ipcPort := None, ntfPort := None)
    ensures Detach(s, p).cores == s.cores
    ensures forall o: Pid :: o != p ==> Detach(s, p).P(o) == s.P(o)
  {
    assert PlaceOk(s, {}, None, p);
    assert {} + {p} == {p};
    if s.P(p).ipcPort.Some? {
      RemoveIpcKeeps(s, {}, None, p);
    } else if s.P(p).ntfPort.Some? {
      RemoveNtfKeeps(s, {}, None, p);
    } else {
      Lift(s, {}, None, p);
      assert s.P(p) == s.P(p).(ipcPort := None, ntfPort := None);
    }
  }

  /** Stopping and detaching commute, and leave the process nowhere. */
  lemma StopDetachKeeps(s: State, p: Pid)
    requires Good(s)
    ensures Inv(Detach(StopProcess(s, p), p), {p}, None)
    ensures var t := Detach(StopProcess(s, p), p);
      && t.P(p) == s.P(p).(status := BlockedSuspend, inReady := false, ipcPort := None, ntfPort := None)
      && t.C(s.P(p).affinity).pending != Some(p)
      && (forall o: Pid :: o != p ==> t.P(o) == s.P(o))
  {
    assert PlaceOk(s, {}, None, p);
    if s.P(p).inReady {
      StopReadyKeeps(s, p);
    } else if RunsOnAssignedCore(s, p) {
      StopRunningKeeps(s, p);
    } else {
      StopBlockedKeeps(s, p);
    }
  }

  /** What stopping does to a process that is already off its core and its ready queue. */
  function Quiet(s: State, p: Pid): State {
    var c := s.P(p).affinity;
    if s.C(c).pending == Some(p) then SetPending(s, c, None) else s
  }

  lemma QuietKeeps(s: State, f: set<Pid>, p: Pid)
    requires Inv(s, f, None)
    ensures Inv(Quiet(s, p), f, None)
    ensures Quiet(s, p).C(s.P(p).affinity).pending != Some(p)
  {
    SetPendingKeeps(s, f, None, s.P(p).affinity, None);
  }

  lemma StopReadyKeeps(s: State, p: Pid)
    requires Good(s) && s.P(p).inReady
    ensures Inv(Detach(StopProcess(s, p), p), {p}, None)
    ensures var t := Detach(StopProcess(s, p), p);
      && t.P(p) == s.P(p).(status := BlockedSuspend, inReady := false, ipcPort := None, ntfPort := None)
      && t.C(s.P(p).affinity).pending != Some(p)
      && (forall o: Pid :: o != p ==> t.P(o) == s.P(o))
  {
    assert PlaceOk(s, {}, None, p);
    assert {} + {p} == {p};
    RemoveKeeps(s, {}, None, p);
    var s1 := RemoveProcess(s, s.P(p).affinity, p);
    var s2 := s1.SetP(p, s1.P(p).(status := BlockedSuspend));
    Touch(s1, {p}, None, p, s2.P(p));
    QuietKeeps(s2, {p}, p);
    assert StopProcess(s, p) == Quiet(s2, p);
  }

  lemma StopRunningKeeps(s: State, p: Pid)
    requires Good(s) && !s.P(p).inReady && RunsOnAssignedCore(s, p)
    ensures Inv(Detach(StopProcess(s, p), p), {p}, None)
    ensures var t := Detach(StopProcess(s, p), p);
      && t.P(p) == s.P(p).(status := BlockedSuspend, inReady := false, ipcPort := None, ntfPort := None)
      && t.C(s.P(p).affinity).pending != Some(p)
      && (forall o: Pid :: o != p ==> t.P(o) == s.P(o))
  {
    var c := s.P(p).affinity;
    Running(s, c, p);
    RemoveKeeps(s, {}, None, p);
    assert {} + {p} == {p};
    StopKeeps(s, {}, None, c, p);
    var s1 := SwitchTo(s, c, None);
    var s2 := s1.SetP(p, s1.P(p).(status := BlockedSuspend));
    Touch(s1, {p}, None, p, s2.P(p));
    QuietKeeps(s2, {p}, p);
    assert StopProcess(s, p).cores == Quiet(s2, p).cores;
    assert StopProcess(s, p) == Quiet(s2, p);
  }

  lemma StopBlockedKeeps(s: State, p: Pid)
    requires Good(s) && !s.P(p).inReady && !RunsOnAssignedCore(s, p)
    ensures Inv(Detach(StopProcess(s, p), p), {p}, None)
    ensures var t := Detach(StopProcess(s, p), p);
      && t.P(p) == s.P(p).(status := BlockedSuspend, inReady := false, ipcPort := None, ntfPort := None)
      && t.C(s.P(p).affinity).pending != Some(p)
      && (forall o: Pid :: o != p ==> t.P(o) == s.P(o))
  {
    RemoveKeeps(s, {}, None, p);
    var s0 := Quiet(s, p);
    QuietKeeps(s, {}, p);
    var s1 := Detach(s0, p);
    DetachKeeps(s0, p);
    assert StopProcess(s, p) == s0.SetP(p, s0.P(p).(status := BlockedSuspend));
    DetachOwn(s0, p, s0.P(p).(status := BlockedSuspend));
    Touch(s1, {p}, None, p, s1.P(p).(status := BlockedSuspend));
  }

  /** Leaving the queues does not depend on a process's other fields. */
  lemma DetachOwn(s: State, p: Pid, r: Proc)
    requires r.ipcPort == s.P(p).ipcPort && r.ntfPort == s.P(p).ntfPort
    ensures Detach(s.SetP(p, r), p) == Detach(s, p).SetP(p, r.(ipcPort := None, ntfPort := None))
  {
    var a := Detach(s.SetP(p, r), p);
    var b := Detach(s, p).SetP(p, r.(ipcPort := None, ntfPort := None));
    assert r.ipcPort.None? && r.ntfPort.None? ==> r == r.(ipcPort := None, ntfPort := None);
    assert a.P(p) == b.P(p);
    assert a.procs == b.procs;
  }

  // ---------------------------------------------------------------- the operations keep the invariant

  /** Ready in a ready queue, waiting for nothing. */
  ghost predicate Resumed(r: Proc) {
    && r.status == Ready && r.inReady && r.fault == NoFault
    && r.ipcPort.None? && r.ntfPort.None? && r.srcTarget.None?
  }

  /** Resuming ends whatever the process waited for; a process that runs refuses. */
  lemma ResumeKeeps(s: State, c: CoreId, p: Pid)
    requires Good(s)
    ensures Good(Resume(s, c, p).0)
    ensures var (t, res) := Resume(s, c, p);
      if RunsOnAssignedCore(s, p) then res.Err? && t == s else res.Ok? && Resumed(t.P(p))
  {
    if !RunsOnAssignedCore(s, p) {
      assert PlaceOk(s, {}, None, p) && ReplyOk(s, p);
      if s.P(p).inReady {
        ResumeReadyKeeps(s, c, p);
      } else {
        ResumeBlockedKeeps(s, c, p);
      }
    }
  }

  lemma ResumeBlockedKeeps(s: State, c: CoreId, p: Pid)
    requires Good(s) && !RunsOnAssignedCore(s, p) && !s.P(p).inReady
    ensures Good(Resume(s, c, p).0) && Resumed(Resume(s, c, p).0.P(p))
  {
    DetachKeeps(s, p);
    var s1 := Detach(s, p);
    CancelKeeps(s1, {p}, None, p);
    GoOnKeeps(CancelReply(s1, p), c, p);
  }

  /** A process that left its queues and its reply link goes on. */
  lemma GoOnKeeps(s: State, c: CoreId, p: Pid)
    requires Inv(s, {p}, None) && !s.P(p).srcWait && s.P(p).srcTarget.None?
    ensures var u := ClearFault(s, p);
      var t := RouteMarkScheduled(u.SetP(p, u.P(p).(status := Ready)), c, p);
      Good(t) && Resumed(t.P(p))
  {
    var r := s.P(p).(fault := NoFault, status := Ready);
    assert PlaceOk(s, {p}, None, p);
    Touch(s, {p}, None, p, r);
    var u := s.SetP(p, r);
    var v := ClearFault(s, p);
    assert v.SetP(p, v.P(p).(status := Ready)).procs == u.procs;
    RouteKeeps(u, {p}, None, c, p);
    assert {p} - {p} == {};
  }

  lemma ResumeReadyKeeps(s: State, c: CoreId, p: Pid)
    requires Good(s) && s.P(p).inReady && !RunsOnAssignedCore(s, p)
    ensures Good(Resume(s, c, p).0) && Resumed(Resume(s, c, p).0.P(p))
  {
    assert PlaceOk(s, {}, None, p) && ReplyOk(s, p);
    assert CancelOwnWait(s, p) == s;
    assert ClearFault(s, p) == s;
    assert s.SetP(p, s.P(p).(status := Ready)) == s;
    MarkReadyKeeps(s, {}, None, p);
    AnnounceKeeps(MarkScheduled(s, p), {}, None, p);
  }

  lemma SuspendKeeps(s: State, p: Pid)
    requires Good(s)
    ensures Good(Suspend(s, p))
    ensures Suspend(s, p).P(p).status == BlockedSuspend && Suspend(s, p).P(p).fault == NoFault
  {
    StopDetachKeeps(s, p);
    if NativeWait(s.P(p)) {
      ReportKeeps(StopProcess(s, p), p);
    } else {
      StoppedKeeps(Detach(StopProcess(s, p), p), p);
    }
  }

  /** The error result is written before the process leaves its queue. */
  lemma ReportKeeps(s: State, p: Pid)
    requires Inv(Detach(s, p), {p}, None) && s.P(p).status == BlockedSuspend
    ensures var t := ClearFault(CancelOwnWait(SetRegs(s, p, s.P(p).regs[MR_IS_SUCCESS := {}][MR_ERROR_CODE := {}]), p), p);
      Good(t) && t.P(p).status == BlockedSuspend && t.P(p).fault == NoFault
  {
    var regs := s.P(p).regs[MR_IS_SUCCESS := {}][MR_ERROR_CODE := {}];
    DetachOwn(s, p, s.P(p).(regs := regs));
    DetachOwn(s, p, s.P(p));
    assert s.SetP(p, s.P(p)) == s;
    var t := SetRegs(Detach(s, p), p, regs);
    assert t == Detach(SetRegs(s, p, regs), p);
    RegsKeep(Detach(s, p), {p}, None, p, regs);
    StoppedKeeps(t, p);
  }

  lemma StoppedKeeps(s: State, p: Pid)
    requires Inv(s, {p}, None) && s.P(p).status == BlockedSuspend
    ensures var t := ClearFault(CancelReply(s, p), p);
      Good(t) && t.P(p).status == BlockedSuspend && t.P(p).fault == NoFault
  {
    CancelKeeps(s, {p}, None, p);
    var t := CancelReply(s, p);
    var u := ClearFault(t, p);
    Touch(t, {p}, None, p, u.P(p));
    assert PlaceOk(u, {p}, None, p);
    Settle(u, {p}, None, p);
    assert {p} - {p} == {};
  }

  /** No queue, core, announcement, reply link or binding refers to `p`. */
  ghost predicate Unreferenced(s: State, p: Pid) {
    && (forall c: CoreId, k: Priority :: p !in s.C(c).ready[k])
    && (forall c: CoreId :: s.C(c).current != Some(p) && s.C(c).pending != Some(p))
    && (forall q: PortId :: p !in s.Q(q).queue)
    && (forall n: NtfId :: p !in s.N(n).queue && s.N(n).bound != Some(p))
    && (forall o: Pid :: s.P(o).srcTarget != Some(p) && s.P(o).dstTarget != Some(p))
  }

  /** A caller that was being served: runnable with an error, or parked if it had faulted. */
  ghost predicate Released(s: State, p: Pid, faulted: bool) {
    && s.P(p).regs[MR_IS_SUCCESS] == {} && s.P(p).regs[MR_ERROR_CODE] == {} && s.P(p).srcTarget.None?
    && if faulted then s.P(p).status == BlockedSuspend
       else s.P(p).status == Ready && s.P(p).inReady && s.P(p).quantum == QUANTUM_MAX
  }

  lemma RevokeProcessKeeps(s: State, p: Pid)
    requires Good(s)
    ensures Good(RevokeProcess(s, p))
    ensures Unreferenced(RevokeProcess(s, p), p)
    ensures s.P(p).dstTarget.Some? ==>
      Released(RevokeProcess(s, p), s.P(p).dstTarget.value, s.P(s.P(p).dstTarget.value).fault != NoFault)
  {
    StopDetachKeeps(s, p);
    var s1 := Detach(StopProcess(s, p), p);
    ReleaseCallerKeeps(s1, p);
    FinishTeardown(ReleaseCaller(s1, p), p);
  }

  lemma FinishTeardown(s: State, p: Pid)
    requires Inv(s, {p}, None) && s.P(p).status == BlockedSuspend
    requires s.P(p).dstTarget.None? && s.C(s.P(p).affinity).pending != Some(p)
    ensures var t := GiveUp(s, p);
      && Good(t) && Unreferenced(t, p)
      && (forall o: Pid :: o != p ==> t.P(o) == s.P(o).(dstReady := t.P(o).dstReady, dstTarget := t.P(o).dstTarget))
  {
    CancelKeeps(s, {p}, None, p);
    var v := CancelReply(s, p);
    var u := DropOwned(v, p);
    OwnFieldsKeep(v, {p}, None, p, u.P(p));
    assert ReplyOk(s, p);
    LeaveBinding(u, p);
  }

  lemma LeaveBinding(s: State, p: Pid)
    requires Inv(s, {p}, None) && s.P(p).status == BlockedSuspend && !s.P(p).srcWait
    requires s.P(p).dstTarget.None? && s.C(s.P(p).affinity).pending != Some(p)
    ensures var t := if s.P(p).boundPort.Some? then Unbind(s, p) else s;
      && Good(t) && Unreferenced(t, p) && (forall o: Pid :: o != p ==> t.P(o) == s.P(o))
  {
    var t := if s.P(p).boundPort.Some? then Unbind(s, p) else s;
    if s.P(p).boundPort.Some? {
      UnbindKeeps(s, {p}, None, p);
    }
    assert PlaceOk(t, {p}, None, p);
    Settle(t, {p}, None, p);
    assert {p} - {p} == {};
    UnreferencedWhenClear(t, p);
  }

  lemma ReleaseCallerKeeps(s: State, p: Pid)
    requires Inv(s, {p}, None)
    ensures var t := ReleaseCaller(s, p);
      && Inv(t, {p}, None)
      && t.P(p).dstTarget.None? && t.P(p).status == s.P(p).status && t.P(p).affinity == s.P(p).affinity
      && t.P(p).boundPort == s.P(p).boundPort
      && (forall c: CoreId :: t.C(c).pending == s.C(c).pending)
      && (s.P(p).dstTarget.Some? ==>
            Released(t, s.P(p).dstTarget.value, s.P(s.P(p).dstTarget.value).fault != NoFault))
  {
    assert ReplyOk(s, p);
    if s.P(p).dstTarget.Some? {
      var client := s.P(p).dstTarget.value;
      assert ReplyOk(s, client);
      if client == p {
        SelfLinkImpossible(s, p);
      } else {
        Awaiting(s, {p}, None, client);
        CancelWithErrorKeeps(s, {p}, None, client);
        ServerForgets(s, p, client);
      }
    }
  }

  /** If no field of a settled process points anywhere, nothing points to it. */
  lemma UnreferencedWhenClear(s: State, p: Pid)
    requires Good(s) && s.P(p).status == BlockedSuspend
    requires s.P(p).dstTarget.None? && s.P(p).boundPort.None? && s.C(s.P(p).affinity).pending != Some(p)
    ensures Unreferenced(s, p)
  {
    assert PlaceOk(s, {}, None, p) && ReplyOk(s, p);
    forall c: CoreId, k: Priority ensures p !in s.C(c).ready[k] { assert QueueOk(s, c, k); }
    forall c: CoreId ensures s.C(c).current != Some(p) && s.C(c).pending != Some(p) { assert CoreOk(s, None, c); }
    forall q: PortId ensures p !in s.Q(q).queue { assert PortOk(s, q); }
    forall n: NtfId ensures p !in s.N(n).queue && s.N(n).bound != Some(p) { assert NtfOk(s, n) && BoundOk(s, n); }
    forall o: Pid ensures s.P(o).srcTarget != Some(p) && s.P(o).dstTarget != Some(p) { assert ReplyOk(s, o); }
  }

  // ---------------------------------------------------------------- configuration: exactly when it is safe

  /** A priority change is harmless exactly when the process is in no ready queue. */
  lemma PriorityKeepsIff(s: State, p: Pid, k: nat)
    requires Good(s)
    ensures Good(ConfigurePriority(s, p, k).0) <==> k >= PRIORITY_MAX || !s.P(p).inReady || k == s.P(p).priority
  {
    if k < PRIORITY_MAX {
      var t := s.SetP(p, s.P(p).(priority := k));
      if s.P(p).inReady && k != s.P(p).priority {
        assert QueueOk(s, s.P(p).affinity, k);
        assert !ReadyMember(t, p);
      } else {
        PrioritySeats(s, p, k);
        PriorityPlaces(s, p, k);
      }
    }
  }

  lemma PrioritySeats(s: State, p: Pid, k: Priority)
    requires Seats(s) && Flags(s) && Replies(s) && (!s.P(p).inReady || k == s.P(p).priority)
    ensures var t := s.SetP(p, s.P(p).(priority := k)); Seats(t) && Flags(t) && Replies(t)
  {
    var t := s.SetP(p, s.P(p).(priority := k));
    KeepReady(s, t);
    KeepIpc(s, t);
    KeepNtf(s, t);
    KeepBindings(s, t);
    KeepFlags(s, t);
    KeepReplies(s, t);
  }

  lemma PriorityPlaces(s: State, p: Pid, k: Priority)
    requires Places(s, {}, None)
    ensures Places(s.SetP(p, s.P(p).(priority := k)), {}, None)
  {
    var t := s.SetP(p, s.P(p).(priority := k));
    forall o: Pid | o != p ensures Undisturbed(s, t, {}, {}, None, o) {}
    assert PlaceOk(s, {}, None, p) && PlaceOf(t, None, p) == PlaceOf(s, None, p);
    KeepPlaces(s, t, {}, {}, None, p);
  }

  /** Moving a process is harmless exactly when its old core has no announcement of it. */
  lemma AffinityKeepsIff(s: State, p: Pid, d: nat)
    requires Good(s)
    ensures Good(ConfigureAffinity(s, p, d).0) <==>
      || d >= s.coreCount || d == s.P(p).affinity || s.P(p).status == Ready || RunsOnAssignedCore(s, p)
      || s.C(s.P(p).affinity).pending != Some(p)
  {
    if ConfigureAffinity(s, p, d).1.Ok? {
      var t := s.SetP(p, s.P(p).(affinity := d));
      if d == s.P(p).affinity {
        assert t == s;
      } else if s.C(s.P(p).affinity).pending == Some(p) {
        assert !CoreOk(t, None, s.P(p).affinity);
      } else {
        MoveKeeps(s, p, d);
      }
    }
  }

  lemma MoveKeeps(s: State, p: Pid, d: CoreId)
    requires Good(s) && s.P(p).status != Ready && !RunsOnAssignedCore(s, p)
    requires s.C(s.P(p).affinity).pending != Some(p)
    ensures Good(s.SetP(p, s.P(p).(affinity := d)))
  {
    var t := s.SetP(p, s.P(p).(affinity := d));
    assert PlaceOk(s, {}, None, p);
    KeepReady(s, t);
    KeepIpc(s, t);
    KeepNtf(s, t);
    KeepBindings(s, t);
    KeepFlags(s, t);
    KeepReplies(s, t);
    assert CoreOk(s, None, d);
    forall c: CoreId ensures CoreOk(t, None, c) { assert CoreOk(s, None, c); }
    forall o: Pid ensures PlaceOk(t, {}, None, o) {
      assert PlaceOk(s, {}, None, o);
      assert PlaceOf(t, None, o) == PlaceOf(s, None, o);
    }
  }

  /** The port ends up bound to `p`. */
  predicate Binds(s: State, p: Pid, n: NtfId) {
    s.N(n).bound.None? || s.N(n).bound == Some(p)
  }

  /** A binding loses no wakeup exactly when no blocked receiver is bound to a port with pending bits. */
  lemma BindingKeepsIff(s: State, p: Pid, n: NtfId)
    requires Good(s)
    ensures Good(ConfigureBinding(s, p, n).0) <==>
      !(Binds(s, p, n) && s.P(p).status == BlockedReceive && s.N(n).flag != {})
  {
    assert BindMember(s, p) && BoundOk(s, n) && PlaceOk(s, {}, None, p);
    var s1 := if s.P(p).boundPort.Some? then Unbind(s, p) else s;
    if s.P(p).boundPort.Some? {
      UnbindKeeps(s, {}, None, p);
    }
    if Binds(s, p, n) {
      assert s1.N(n).bound.None?;
      if s.P(p).status == BlockedReceive && s.N(n).flag != {} {
        assert !PlaceOk(Bind(s1, n, p), {}, None, p);
      } else {
        BindKeeps(s1, {}, None, n, p);
      }
    }
  }
}
