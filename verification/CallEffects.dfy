/** What faults, fault replies, calls that do not wait, POLL and REPLY_RECEIVE hand over, and what they leave alone. */
module CallEffects {
  import opened Common
  import opened KernelState
  import opened KernelPrimitives
  import opened ProcessManager
  import opened IpcPort
  import opened IpcInvariant
  import opened NotificationPort
  import opened ProcessControl
  import opened KernelRun
  import FP = FastPath
  import opened Delivery

  // ---------------------------------------------------------------- fault delivery

  /** Exactly the header changed, to that of a message about the fault. */
  ghost predicate FaultHanded(before: Registers, after: Registers, fault: Fault, identifier: Word) {
    && after[MR_IS_SUCCESS] == {0} && after[MR_ERROR_CODE] == {}
    && after[MR_MESSAGE_INFO] == FaultInfo(fault) && after[MR_IDENTIFIER] == identifier
    && forall i :: PAYLOAD_START <= i < REGISTER_COUNT ==> after[i] == before[i]
  }

  /** The resolver port of `p` may be used for both directions. */
  ghost predicate Resolvable(s: State, p: Pid) {
    s.P(p).resolver.Some? && s.P(p).resolver.value.readable && s.P(p).resolver.value.writable
  }

  /**
   A fault with a receiver waiting at the resolver port: the oldest one gets a message about the fault under the
   resolver's identifier and owes the faulter, who waits, exactly one reply; nobody else's registers change.
   */
  lemma FaultHandsOver(s: State, c: CoreId, p: Pid, fault: Fault)
    requires Good(s) && s.C(c).current == Some(p) && fault != NoFault && Resolvable(s, p) && !FaultLost(s, p, fault)
    requires s.Q(s.P(p).resolver.value.port).state == ReadyToReceive
    ensures var q := s.P(p).resolver.value.port; s.Q(q).queue != []
    ensures var q := s.P(p).resolver.value.port; var target := s.Q(q).queue[0]; var t := HandleFault(s, c, fault);
      && FaultHanded(s.P(target).regs, t.P(target).regs, fault, s.P(p).resolver.value.identifier) && OnlyRegsOf(s, t, target)
      && t.Q(q).queue == s.Q(q).queue[1..]
      && t.P(p).status == BlockedFault && t.P(p).fault == fault && t.P(p).srcTarget == Some(target)
      && t.P(target).status == Ready && t.P(target).dstTarget == Some(p)
  {
    var cap := s.P(p).resolver.value;
    HeadReceiver(s, {}, None, cap.port);
    Running(s, c, p);
    var target := s.Q(cap.port).queue[0];
    var s1 := Faulted(s, p, fault, cap);
    assert s1.P(target).dstReady == s.P(target).dstReady by { assert ReplyOk(s, target); }
    FaultReceiverHandsOver(s1, p, cap.port, target);
    FaultReaches(s, c, p, fault, cap);
  }

  /** The fault is recorded and the oldest receiver has left the resolver port's queue. */
  function Faulted(s: State, p: Pid, fault: Fault, cap: Resolver): State
    requires s.Q(cap.port).queue != []
  {
    var s1 := PopIpc(s.SetP(p, s.P(p).(fault := fault)), cap.port);
    s1.SetP(p, s1.P(p).(identifier := cap.identifier, status := BlockedFault))
  }

  lemma FaultReaches(s: State, c: CoreId, p: Pid, fault: Fault, cap: Resolver)
    requires s.C(c).current == Some(p) && s.P(p).resolver == Some(cap) && cap.readable && cap.writable
    requires s.Q(cap.port).state == ReadyToReceive && s.Q(cap.port).queue != []
    requires FaultReceiver(Faulted(s, p, fault, cap), p, cap.port, s.Q(cap.port).queue[0]).1.Ok?
    ensures HandleFault(s, c, fault) == FaultReceiver(Faulted(s, p, fault, cap), p, cap.port, s.Q(cap.port).queue[0]).0
  {
  }

  lemma FaultReceiverHandsOver(s: State, p: Pid, q: PortId, target: Pid)
    requires p != target && !s.P(target).dstReady && !FaultTransferFails(s.P(p).fault, s.P(target).hasBuffer)
    ensures var (t, res) := FaultReceiver(s, p, q, target);
      && res.Ok? && t.ports == s.ports
      && FaultHanded(s.P(target).regs, t.P(target).regs, s.P(p).fault, s.P(p).identifier) && OnlyRegsOf(s, t, target)
      && t.P(p).status == s.P(p).status && t.P(p).fault == s.P(p).fault && t.P(p).srcTarget == Some(target)
      && t.P(target).status == Ready && t.P(target).dstTarget == Some(p)
  {
    var s1 := Link(s, p, target);
    var s2 := TransferFaultMessage(s1, target, p).0;
    var s3 := s2.SetP(target, s2.P(target).(status := Ready));
    DirectLeaves(s3, s3.P(p).affinity, target);
    var t := TryDirectScheduleAndSwitch(s3, s3.P(p).affinity, target);
    assert SameUpToTurn(t.P(p), s3.P(p)) && SameUpToTurn(t.P(target), s3.P(target));
    forall o: Pid | o != target ensures t.P(o).regs == s.P(o).regs { assert SameUpToTurn(t.P(o), s3.P(o)); }
  }

  /** Without a receiver the faulter waits last at its resolver port, and nobody else notices. */
  lemma FaultJoinsQueue(s: State, c: CoreId, p: Pid, fault: Fault)
    requires Good(s) && s.C(c).current == Some(p) && Resolvable(s, p) && s.Q(s.P(p).resolver.value.port).state != ReadyToReceive
    ensures var cap := s.P(p).resolver.value;
      WaitsAt(s, HandleFault(s, c, fault), c, p, cap.port,
        s.P(p).(fault := fault, status := BlockedFault, srcWait := true, identifier := cap.identifier), ReadyToSend)
  {
    Running(s, c, p);
    var cap := s.P(p).resolver.value;
    var r := s.P(p).(fault := fault, status := BlockedFault, srcWait := true, identifier := cap.identifier);
    BlockWaits(s, cap.port, ReadyToSend, p, r);
    var s1 := s.SetP(p, s.P(p).(fault := fault));
    assert s1.procs[p := r] == s.procs[p := r];
    assert s1.SetP(p, r) == s.SetP(p, r);
  }

  /** Without a usable resolver port the faulter is suspended, and nobody else notices. */
  lemma FaultSuspends(s: State, c: CoreId, p: Pid, fault: Fault)
    requires Good(s) && s.C(c).current == Some(p) && !Resolvable(s, p)
    ensures var t := HandleFault(s, c, fault);
      && t.P(p).status == BlockedSuspend && t.P(p).fault == fault && t.ports == s.ports && t.ntfs == s.ntfs
      && (forall o: Pid :: o != p ==> SameUpToTurn(t.P(o), s.P(o)))
  {
    var t := HandleFault(s, c, fault);
    var r := s.P(p).(fault := fault, status := BlockedSuspend);
    FaultSuspendsIs(s, c, p, fault);
    DispatchLeaves(s.SetP(p, r), c);
    assert SameUpToTurn(t.P(p), r);
    forall o: Pid | o != p ensures SameUpToTurn(t.P(o), s.P(o)) { assert SameUpToTurn(t.P(o), s.SetP(p, r).P(o)); }
  }

  lemma FaultSuspendsIs(s: State, c: CoreId, p: Pid, fault: Fault)
    requires s.C(c).current == Some(p) && !Resolvable(s, p)
    ensures HandleFault(s, c, fault) == TryScheduleAndSwitch(s.SetP(p, s.P(p).(fault := fault, status := BlockedSuspend)), c)
  {
    var r := s.P(p).(fault := fault, status := BlockedSuspend);
    var s1 := s.SetP(p, s.P(p).(fault := fault));
    assert s1.procs[p := r] == s.procs[p := r];
    if s.P(p).resolver.Some? {
      var s2 := s1.SetP(p, s1.P(p).(status := BlockedFault));
      assert s2.procs[p := r] == s.procs[p := r];
    }
  }

  /** RECEIVE from a faulted process: the receiver gets the message about the fault and owes the faulter a reply. */
  lemma ReceiveTakesFault(s: State, c: CoreId, owner: Pid, cap: Cap, info: Word, x: Transfer)
    requires Good(s) && s.C(c).current == Some(owner) && !s.P(owner).dstReady
    requires cap.readable && s.Q(cap.port).state == ReadyToSend && s.Q(cap.port).queue != []
    requires s.P(s.Q(cap.port).queue[0]).fault != NoFault && !ReceiveFails(s, cap.port, owner, x)
    ensures var sender := s.Q(cap.port).queue[0]; var (t, res) := Receive(s, owner, cap, info, x);
      && res.Ok? && t.Q(cap.port).queue == s.Q(cap.port).queue[1..]
      && FaultHanded(s.P(owner).regs, t.P(owner).regs, s.P(sender).fault, s.P(sender).identifier) && OnlyRegsOf(s, t, owner)
      && t.P(sender).status == BlockedReply && t.P(sender).srcTarget == Some(owner) && t.P(owner).dstTarget == Some(sender)
  {
    var q := cap.port;
    assert PortOk(s, q);
    var sender := s.Q(q).queue[0];
    assert sender in s.Q(q).queue && PlaceOk(s, {}, None, sender);
    Running(s, c, owner);
  }

  // ---------------------------------------------------------------- fault replies

  /** The first `count` general registers, as far as they carry message registers, are the words from `start` on. */
  ghost predicate ContextHanded(before: Registers, after: Registers, from: Registers, start: nat, count: nat)
    requires start <= PAYLOAD_START
  {
    forall i :: 0 <= i < REGISTER_COUNT ==>
      after[i] == if i < MESSAGE_REGISTER_COUNT && ContextIndex(i) < count then from[start + ContextIndex(i)] else before[i]
  }

  /**
   REPLY to a faulter lets it go on where it was stopped. The answer to an emulated kernel call is what its
   general registers then hold, register by register; any other faulter finds its registers as they were.
   */
  lemma FaultReplyHandsOver(s: State, c: CoreId, owner: Pid, info: Word, x: Transfer)
    requires Good(s) && s.C(c).current == Some(owner) && s.P(owner).dstTarget.Some?
    requires s.P(s.P(owner).dstTarget.value).fault != NoFault
    requires ReplyContext(s.P(s.P(owner).dstTarget.value).fault, info, s.P(owner).hasBuffer).Ok?
    ensures var client := s.P(owner).dstTarget.value; var (t, res) := Reply(s, owner, info, x);
      && res.Ok? && client != owner && OnlyRegsOf(s, t, client)
      && ContextHanded(s.P(client).regs, t.P(client).regs, s.P(owner).regs, PAYLOAD_START,
           if s.P(client).fault == InvalidKernelCall then MessageLength(info) else 0)
      && t.P(client).status == Ready && t.P(client).fault == NoFault && t.P(client).srcTarget.None?
      && t.P(owner).status == Ready && t.P(owner).dstTarget.None?
  {
    var client := s.P(owner).dstTarget.value;
    Running(s, c, owner);
    assert ReplyOk(s, owner) && ReplyOk(s, client);
    var s1 := SetRegs(s, client, ReplyRegisters(s, owner, client, info));
    var s2 := CompleteFaultReply(s1, owner, client);
    FaultReplyIs(s, owner, client, info, x);
    ContextIs(s, owner, client, info);
    FaultReplyCompletes(s1, owner, client);
    GoesOnLeaves(s2, owner);
    assert SameUpToTurn(GoesOn(s2, owner).P(client), s2.P(client));
    forall o: Pid | o != client && o != owner ensures GoesOn(s2, owner).P(o).regs == s.P(o).regs {
      assert SameUpToTurn(GoesOn(s2, owner).P(o), s2.P(o));
    }
  }

  lemma FaultReplyIs(s: State, owner: Pid, client: Pid, info: Word, x: Transfer)
    requires s.P(owner).dstReady && s.P(owner).dstTarget == Some(client) && s.P(client).fault != NoFault
    requires ReplyContext(s.P(client).fault, info, s.P(owner).hasBuffer).Ok?
    ensures Reply(s, owner, info, x)
         == (GoesOn(CompleteFaultReply(SetRegs(s, client, ReplyRegisters(s, owner, client, info)), owner, client), owner), Ok)
  {
  }

  lemma ContextIs(s: State, owner: Pid, client: Pid, info: Word)
    requires ReplyContext(s.P(client).fault, info, s.P(owner).hasBuffer).Ok?
    ensures ContextHanded(s.P(client).regs, ReplyRegisters(s, owner, client, info), s.P(owner).regs, PAYLOAD_START,
      if s.P(client).fault == InvalidKernelCall then MessageLength(info) else 0)
  {
  }

  /** What REPLY does once the reply is given. */
  function GoesOn(s: State, owner: Pid): State {
    var s1 := s.SetP(owner, s.P(owner).(status := Ready));
    TryDirectScheduleAndSwitch(s1, s1.P(owner).affinity, owner)
  }

  lemma GoesOnLeaves(s: State, owner: Pid)
    ensures var t := GoesOn(s, owner);
      && t.P(owner).status == Ready && (forall o: Pid :: o != owner ==> SameUpToTurn(t.P(o), s.P(o)))
      && t.P(owner).regs == s.P(owner).regs && t.P(owner).dstTarget == s.P(owner).dstTarget
  {
    var s1 := s.SetP(owner, s.P(owner).(status := Ready));
    DirectLeaves(s1, s1.P(owner).affinity, owner);
    var t := GoesOn(s, owner);
    assert SameUpToTurn(t.P(owner), s1.P(owner));
    forall o: Pid | o != owner ensures SameUpToTurn(t.P(o), s.P(o)) { assert SameUpToTurn(t.P(o), s1.P(o)); }
  }

  lemma FaultReplyCompletes(s: State, owner: Pid, client: Pid)
    requires client != owner
    ensures var t := CompleteFaultReply(s, owner, client);
      && t.P(client).status == Ready && t.P(client).fault == NoFault && t.P(client).srcTarget.None? && t.P(owner).dstTarget.None?
      && forall o: Pid :: t.P(o).regs == s.P(o).regs
  {
    var s1 := Forget(s.SetP(client, s.P(client).(status := Ready, srcWait := false, srcTarget := None, fault := NoFault)), owner);
    RouteFrame(s1, s.P(owner).affinity, client);
    RouteLeaves(s1, s.P(owner).affinity, client);
    assert SameUpToTurn(RouteMarkScheduled(s1, s.P(owner).affinity, client).P(client), MadeReady(s1, client).P(client));
  }

  // ---------------------------------------------------------------- calls that do not wait

  /** No caller to release and no bits to take. */
  ghost predicate NothingToTake(s: State, owner: Pid) {
    !s.P(owner).dstReady && (s.P(owner).boundPort.Some? ==> !Pending(s, s.P(owner).boundPort.value))
  }

  /** A call without the right, or one that finds no partner and does not block, changes nothing. */
  lemma TriesInVain(s: State, c: CoreId, owner: Pid, cap: Cap, info: Word, x: Transfer, y: Transfer)
    requires Good(s) && s.C(c).current == Some(owner)
    ensures !cap.writable ==> Send(s, owner, cap, info, x) == Call(s, owner, cap, info, x) == (s, Err(PermissionDenied))
    ensures !cap.readable ==> Receive(s, owner, cap, info, x) == ReplyReceive(s, owner, cap, info, x, y) == (s, Err(PermissionDenied))
    ensures cap.writable && !IsBlock(info) && s.Q(cap.port).state != ReadyToReceive ==>
      Send(s, owner, cap, info, x) == Call(s, owner, cap, info, x) == (s, Ok)
    ensures cap.readable && !IsBlock(info) && s.Q(cap.port).state != ReadyToSend && NothingToTake(s, owner) ==>
      Receive(s, owner, cap, info, x) == (s, Ok)
    ensures !s.P(owner).dstReady ==> Reply(s, owner, info, x) == (s, Ok)
  {
  }

  /** All the bits of port `n` arrived as a message to `owner`, and nothing else happened. */
  ghost predicate BitsTaken(s: State, t: State, owner: Pid, n: NtfId) {
    && t.N(n).flag == {} && t.cores == s.cores && t.ports == s.ports && (forall m: NtfId :: m != n ==> t.N(m) == s.N(m))
    && t.procs == s.procs[owner := s.P(owner).(regs := s.P(owner).regs[MR_MESSAGE_INFO := {14}][MR_IDENTIFIER := s.N(n).flag])]
  }

  /**
   RECEIVE without a sender, and CALL without a receiver, while bits are pending on the bound port: the caller goes on
   with all these bits as a message.
   */
  lemma BitsComeFirst(s: State, owner: Pid, cap: Cap, info: Word, x: Transfer, n: NtfId)
    requires s.P(owner).boundPort == Some(n) && Pending(s, n)
    ensures cap.readable && s.Q(cap.port).state != ReadyToSend && !s.P(owner).dstReady ==>
      var (t, res) := Receive(s, owner, cap, info, x); res.Ok? && BitsTaken(s, t, owner, n)
    ensures cap.writable && s.Q(cap.port).state != ReadyToReceive && IsBlock(info) ==>
      var (t, res) := Call(s, owner, cap, info, x); res.Ok? && BitsTaken(s, t, owner, n)
  {
  }

  /** CONFIGURE of the resolver port decides where the next fault goes. */
  lemma ResolverTakesEffect(s: State, c: CoreId, p: Pid, r: Resolver, fault: Fault)
    requires Good(s) && s.C(c).current == Some(p) && r.readable && r.writable && s.Q(r.port).state != ReadyToReceive
    ensures var t := ConfigureResolver(s, p, r);
      WaitsAt(t, HandleFault(t, c, fault), c, p, r.port,
        t.P(p).(fault := fault, status := BlockedFault, srcWait := true, identifier := r.identifier), ReadyToSend)
  {
    var t := ConfigureResolver(s, p, r);
    OwnFieldsKeep(s, {}, None, p, t.P(p));
    FaultJoinsQueue(t, c, p, fault);
  }

  /** CONFIGURE of an IPC buffer makes long messages possible with everybody who has one. */
  lemma BufferTakesEffect(s: State, p: Pid, o: Pid, info: Word)
    requires p != o
    ensures var (t, res) := ConfigureBuffer(s, p, true);
      res.Ok? && Buffered(t, p, o) == s.P(o).hasBuffer && t == s.SetP(p, t.P(p)) && (s.P(o).hasBuffer ==> !CopyFails(info, Buffered(t, p, o)))
  {
  }

  /** CALL without a receiver: the caller waits last at the port, marked as awaiting a reply, and nobody else notices. */
  lemma CallWaits(s: State, c: CoreId, owner: Pid, cap: Cap, info: Word, x: Transfer)
    requires Good(s) && s.C(c).current == Some(owner) && cap.writable && IsBlock(info) && s.Q(cap.port).state != ReadyToReceive
    requires s.P(owner).boundPort.Some? ==> !Pending(s, s.P(owner).boundPort.value)
    ensures WaitsAt(s, Call(s, owner, cap, info, x).0, c, owner, cap.port,
      s.P(owner).(status := BlockedSend, srcWait := true, identifier := cap.identifier), ReadyToSend)
  {
    Running(s, c, owner);
    BlockWaits(s, cap.port, ReadyToSend, owner, s.P(owner).(status := BlockedSend, srcWait := true, identifier := cap.identifier));
  }

  /** Every call ends with a report of its outcome to the caller; no two errors look alike, and no other register changes. */
  lemma CallReports(s: State, owner: Pid, res: Outcome)
    ensures var t := Finish(s, owner, res);
      && (t.P(owner).regs[MR_IS_SUCCESS] == {0} <==> res.Ok?)
      && (res.Err? ==> forall e: CapError :: t.P(owner).regs[MR_ERROR_CODE] == ErrorWord(e) <==> e == res.error)
      && (forall i :: 0 <= i < REGISTER_COUNT && i != MR_IS_SUCCESS && i != MR_ERROR_CODE ==> t.P(owner).regs[i] == s.P(owner).regs[i])
      && t == SetRegs(s, owner, t.P(owner).regs)
  {
    if res.Err? {
      var word := Finish(s, owner, res).P(owner).regs[MR_ERROR_CODE];
      forall e: CapError ensures word == ErrorWord(e) <==> e == res.error { ErrorsDiffer(e, res.error); }
    }
  }

  lemma ErrorsDiffer(a: CapError, b: CapError)
    ensures ErrorWord(a) == ErrorWord(b) ==> a == b
  {
    assert 0 in ErrorWord(a) <==> a == PermissionDenied || a == FatalError;
    assert 1 in ErrorWord(a) <==> a == InvalidDescriptor;
    assert 2 in ErrorWord(a) <==> a == InvalidArgument || a == FatalError;
  }

  // ---------------------------------------------------------------- WRITE_REGISTER

  /** WRITE_REGISTER gives the process exactly the announced registers and touches nobody else. */
  lemma WriteRegistersHandsOver(s: State, owner: Pid, p: Pid)
    ensures var count := Field(s.P(owner).regs[MR_REGISTER_COUNT], 0, 64); var (t, res) := WriteRegisters(s, owner, p);
      && (res.Ok? <==> count <= HARDWARE_CONTEXT_SIZE && (REGISTER_START + count <= MESSAGE_REGISTER_COUNT || s.P(owner).hasBuffer))
      && (res.Ok? ==> ContextHanded(s.P(p).regs, t.P(p).regs, s.P(owner).regs, REGISTER_START, count))
      && t == SetRegs(s, p, t.P(p).regs)
  {
    if Field(s.P(owner).regs[MR_REGISTER_COUNT], 0, 64) > HARDWARE_CONTEXT_SIZE { assert SetRegs(s, p, s.P(p).regs).procs == s.procs; }
  }

  // ---------------------------------------------------------------- POLL

  /** POLL without the right or on a port bound to another process is refused; otherwise it takes exactly the pending bits. */
  lemma PollTakes(s: State, owner: Pid, cap: Cap)
    requires Good(s)
    ensures var n := cap.port; var (t, res) := Poll(s, owner, cap);
      if !cap.readable then (t, res) == (s, Err(PermissionDenied))
      else if s.N(n).bound.Some? && s.N(n).bound != Some(owner) then (t, res) == (s, Err(FatalError))
      else
        && res.Ok? && t.P(owner).regs == s.P(owner).regs[MR_FLAG_WORD := s.N(n).flag] && t.N(n).flag == {}
        && (forall o: Pid :: o != owner ==> t.P(o) == s.P(o)) && (forall m: NtfId :: m != n ==> t.N(m) == s.N(m))
        && t.cores == s.cores && t.ports == s.ports
  {
    assert FlagOk(s, cap.port);
  }

  /**
   WAIT is refused like POLL; otherwise pending bits are taken just as by POLL, and without any the caller waits last at
   the port, its core moves on and nobody else notices.
   */
  lemma WaitTakesOrBlocks(s: State, c: CoreId, owner: Pid, cap: Cap)
    requires Good(s) && s.C(c).current == Some(owner)
    ensures var n := cap.port; var (t, res) := WaitFlag(s, owner, cap);
      if !cap.readable then (t, res) == (s, Err(PermissionDenied))
      else if s.N(n).bound.Some? && s.N(n).bound != Some(owner) then (t, res) == (s, Err(FatalError))
      else if Pending(s, n) then (t, res) == Poll(s, owner, cap)
      else
        && res.Ok? && t.N(n) == s.N(n).(queue := s.N(n).queue + [owner], readyToWake := true) && t.ports == s.ports
        && SameUpToTurn(t.P(owner), s.P(owner).(status := BlockedWait, ntfPort := Some(n)))
        && (forall o: Pid :: o != owner ==> SameUpToTurn(t.P(o), s.P(o))) && (forall d: CoreId :: d != c ==> t.C(d) == s.C(d))
  {
    var n := cap.port;
    assert NtfOk(s, n) && FlagOk(s, n);
    Running(s, c, owner);
    if cap.readable && (s.N(n).bound.None? || s.N(n).bound == Some(owner)) && !Pending(s, n) {
      var s1 := PushNtf(s.SetP(owner, s.P(owner).(status := BlockedWait)), n, owner);
      DispatchLeaves(s1, c);
      var t := TryScheduleAndSwitch(s1, c);
      assert SameUpToTurn(t.P(owner), s1.P(owner));
      forall o: Pid | o != owner ensures SameUpToTurn(t.P(o), s.P(o)) { assert SameUpToTurn(t.P(o), s1.P(o)); }
    }
  }

  /** NOTIFY without the right changes nothing; with it, it succeeds. */
  lemma NotifyRefused(s: State, c: CoreId, cap: Cap)
    requires Good(s)
    ensures !cap.writable ==> Notify(s, c, cap) == (s, Err(PermissionDenied))
    ensures cap.writable ==> Notify(s, c, cap).1.Ok?
  {
    var n := cap.port;
    assert NtfOk(s, n);
    if s.N(n).bound.Some? { assert PlaceOk(s, {}, None, s.N(n).bound.value); }
  }

  // ---------------------------------------------------------------- CONFIGURE

  /** Which changes of priority, core and binding are accepted, and that an accepted one changes exactly that. */
  lemma ConfigureOutcomes(s: State, p: Pid, k: nat, d: nat, n: NtfId)
    requires Good(s)
    ensures var (t, res) := ConfigurePriority(s, p, k);
      (res.Ok? <==> k < PRIORITY_MAX) && (res.Ok? ==> t.P(p).priority == k) && t == s.SetP(p, s.P(p).(priority := t.P(p).priority))
    ensures var (t, res) := ConfigureAffinity(s, p, d);
      && (res.Ok? <==> d < s.coreCount && (d == s.P(p).affinity || (s.P(p).status != Ready && !RunsOnAssignedCore(s, p))))
      && (res.Ok? ==> t.P(p).affinity == d) && t == s.SetP(p, s.P(p).(affinity := t.P(p).affinity))
    ensures var (t, res) := ConfigureBinding(s, p, n);
      && (res.Ok? <==> Binds(s, p, n)) && t.P(p).boundPort == (if res.Ok? then Some(n) else None)
      && (forall o: Pid :: o != p ==> t.P(o) == s.P(o)) && (forall m: NtfId :: t.N(m) == s.N(m).(bound := t.N(m).bound))
  {
    assert s.SetP(p, s.P(p).(priority := s.P(p).priority)).procs == s.procs;
    assert s.SetP(p, s.P(p).(affinity := s.P(p).affinity)).procs == s.procs;
    BindingOutcome(s, p, n);
  }

  lemma BindingOutcome(s: State, p: Pid, n: NtfId)
    requires Good(s)
    ensures var (t, res) := ConfigureBinding(s, p, n);
      && (res.Ok? <==> Binds(s, p, n)) && t.P(p).boundPort == (if res.Ok? then Some(n) else None)
      && (forall o: Pid :: o != p ==> t.P(o) == s.P(o)) && (forall m: NtfId :: t.N(m) == s.N(m).(bound := t.N(m).bound))
  {
    assert BindMember(s, p) && BoundOk(s, n);
  }

  // ---------------------------------------------------------------- REPLY_RECEIVE

  /** The caller has exactly the answer, can run and awaits nobody; only the server may have new registers besides. */
  ghost predicate Answered(s: State, t: State, owner: Pid, client: Pid, info: Word) {
    && Handed(s.P(client).regs, t.P(client).regs, s.P(owner).regs, info, s.P(owner).identifier)
    && t.P(client).status == Ready && t.P(client).srcTarget.None? && !t.P(client).srcWait
    && forall o: Pid :: o != client && o != owner ==> t.P(o).regs == s.P(o).regs
  }

  lemma AnsweredUpToTurns(s: State, m: State, t: State, owner: Pid, client: Pid, info: Word)
    requires Answered(s, m, owner, client, info) && SameUpToTurn(t.P(client), m.P(client))
    requires forall o: Pid :: o != client && o != owner ==> t.P(o).regs == m.P(o).regs
    ensures Answered(s, t, owner, client, info)
  {
  }

  lemma CompleteReplyAnswers(s: State, owner: Pid, client: Pid, info: Word, x: Transfer, enqueue: bool)
    requires s.P(owner).dstReady && s.P(owner).dstTarget == Some(client) && client != owner
    requires s.P(client).fault == NoFault && !TransferFails(info, Buffered(s, client, owner), x)
    ensures var (t, res) := CompleteReply(s, owner, info, x, enqueue);
      && res.Ok? && t.ports == s.ports && Answered(s, t, owner, client, info)
      && t.P(owner) == s.P(owner).(dstReady := false, dstTarget := None)
  {
    var s1 := TransferDirectMessage(s, client, owner, info, x).0;
    var s2 := Forget(s1.SetP(client, s1.P(client).(status := Ready, srcWait := false, srcTarget := None)), owner);
    assert Answered(s, s2, owner, client, info);
    RouteFrame(s2, s.P(owner).affinity, client);
    RouteLeaves(s2, s.P(owner).affinity, client);
    assert SameUpToTurn(RouteMarkScheduled(s2, s.P(owner).affinity, client).P(client), MadeReady(s2, client).P(client));
  }

  /** Only the registers of `owner` and the fields of `owner` and `sender` may differ. */
  ghost predicate Between(s: State, t: State, owner: Pid, sender: Pid) {
    && (forall o: Pid :: o != owner && o != sender ==> t.P(o) == s.P(o))
    && (sender != owner ==> t.P(sender).regs == s.P(sender).regs)
  }

  lemma AcceptLeaves(s: State, q: PortId, owner: Pid, sender: Pid, x: Transfer)
    ensures Between(s, AcceptSender(s, q, owner, sender, x).0, owner, sender)
  {
    if !s.P(owner).dstReady && s.P(sender).fault == NoFault {
      var (s1, res) := TransferMessage(s, q, owner, sender, s.P(sender).regs[MR_MESSAGE_INFO], x);
      assert Between(s, s1, owner, sender);
      if res.Ok? {
        if s1.P(sender).srcWait {
          LinkedBetween(s, s1, owner, sender);
        } else {
          var s2 := Forget(s1, owner);
          var s3 := s2.SetP(sender, s2.P(sender).(status := Ready));
          RoutedBetween(s3, s3.P(owner).affinity, owner, sender);
        }
      }
    } else if !s.P(owner).dstReady {
      var s1 := TransferFaultMessage(s, owner, sender).0;
      LinkedBetween(s, s1, owner, sender);
    }
  }

  lemma LinkedBetween(s: State, s1: State, owner: Pid, sender: Pid)
    requires Between(s, s1, owner, sender)
    ensures var s2 := Link(s1, sender, owner); Between(s, s2.SetP(sender, s2.P(sender).(status := BlockedReply)), owner, sender)
  {
  }

  lemma RoutedBetween(s: State, c: CoreId, owner: Pid, sender: Pid)
    ensures Between(s, RouteMarkScheduled(s, c, sender), owner, sender)
  {
    RouteFrame(s, c, sender);
  }

  /** Receiving concerns the receiver and the first sender; for everybody else at most the turn changes. */
  lemma ReceivePartLeaves(s: State, owner: Pid, q: PortId, info: Word, x: Transfer, o: Pid)
    requires o != owner
    ensures var t := ReceivePart(s, owner, q, info, x).0;
      && t.P(o).regs == s.P(o).regs && ((s.Q(q).queue != [] ==> o != s.Q(q).queue[0]) ==> SameUpToTurn(t.P(o), s.P(o)))
  {
    if s.Q(q).state == ReadyToSend {
      if s.Q(q).queue != [] { AcceptLeaves(PopIpc(s, q), q, owner, s.Q(q).queue[0], x); }
    } else {
      var s1 := TryDeliverPending(s, owner).0;
      var s2 := PushIpc(s1.SetP(owner, s1.P(owner).(status := BlockedReceive)), q, ReadyToReceive, owner);
      DispatchLeaves(s2, s1.P(owner).affinity);
      assert SameUpToTurn(TryScheduleAndSwitch(s2, s1.P(owner).affinity).P(o), s2.P(o));
    }
  }

  /** The server owes `client` a reply that it can give. */
  ghost predicate CanAnswer(s: State, c: CoreId, owner: Pid, client: Pid, info: Word, x: Transfer) {
    && Good(s) && s.C(c).current == Some(owner) && s.P(owner).dstTarget == Some(client)
    && s.P(client).fault == NoFault && !TransferFails(info, Buffered(s, client, owner), x)
  }

  lemma SlowPathAnswers(s: State, c: CoreId, owner: Pid, client: Pid, q: PortId, info: Word, x: Transfer, y: Transfer)
    requires CanAnswer(s, c, owner, client, info, x)
    ensures Answered(s, ReplyReceiveSlow(s, owner, q, info, x, y).0, owner, client, info)
  {
    Running(s, c, owner);
    assert ReplyOk(s, owner) && ReplyOk(s, client) && PortOk(s, q);
    Awaiting(s, {}, None, client);
    CompleteReplyAnswers(s, owner, client, info, x, true);
    var s1 := CompleteReply(s, owner, info, x, true).0;
    if s1.Q(q).queue != [] { assert s.Q(q).queue[0] in s.Q(q).queue; }
    ReceivePartLeaves(s1, owner, q, info, y, client);
    forall o: Pid | o != client && o != owner ensures ReceivePart(s1, owner, q, info, y).0.P(o).regs == s1.P(o).regs {
      ReceivePartLeaves(s1, owner, q, info, y, o);
    }
    AnsweredUpToTurns(s, s1, ReceivePart(s1, owner, q, info, y).0, owner, client, info);
  }

  lemma FastPathAnswers(s: State, c: CoreId, owner: Pid, client: Pid, q: PortId, info: Word, x: Transfer)
    requires CanAnswer(s, c, owner, client, info, x) && FastReply(s, owner, q, info)
    ensures var t := ReplyReceiveFast(s, owner, q, info, x).0;
      Answered(s, t, owner, client, info) && t.P(owner).status == BlockedReceive && t.Q(q).queue == s.Q(q).queue + [owner]
  {
    Running(s, c, owner);
    assert ReplyOk(s, owner) && ReplyOk(s, client);
    CompleteReplyAnswers(s, owner, client, info, x, false);
    FP.FastIsDirect(s, c, owner, q, info, x);
    var m := FP.Replied(s, owner, q, info, x);
    assert Answered(s, m, owner, client, info) && m.P(owner).status == BlockedReceive && m.Q(q).queue == s.Q(q).queue + [owner];
    SwitchedAnswers(s, m, c, owner, client, q, info);
  }

  lemma SwitchedAnswers(s: State, m: State, c: CoreId, owner: Pid, client: Pid, q: PortId, info: Word)
    requires Answered(s, m, owner, client, info) && client != owner
    ensures var t := TryDirectScheduleAndSwitch(m, c, client);
      Answered(s, t, owner, client, info) && t.P(owner).status == m.P(owner).status && t.ports == m.ports
  {
    DirectLeaves(m, c, client);
    var t := TryDirectScheduleAndSwitch(m, c, client);
    assert SameUpToTurn(t.P(owner), m.P(owner)) && SameUpToTurn(t.P(client), m.P(client));
    forall o: Pid | o != client && o != owner ensures t.P(o).regs == m.P(o).regs { assert SameUpToTurn(t.P(o), m.P(o)); }
    AnsweredUpToTurns(s, m, t, owner, client, info);
  }

  /** REPLY_RECEIVE, whichever path it takes, gives the caller exactly the answer before the server receives. */
  lemma ReplyReceiveAnswers(s: State, c: CoreId, owner: Pid, client: Pid, cap: Cap, info: Word, x: Transfer, y: Transfer)
    requires CanAnswer(s, c, owner, client, info, x) && cap.readable
    ensures Answered(s, ReplyReceive(s, owner, cap, info, x, y).0, owner, client, info)
  {
    if FastReply(s, owner, cap.port, info) {
      FastPathAnswers(s, c, owner, client, cap.port, info, x);
    } else {
      SlowPathAnswers(s, c, owner, client, cap.port, info, x, y);
    }
  }

  // ---------------------------------------------------------------- SUSPEND and teardown

  /** What SUSPEND makes of a process: off everything, and told that its call failed if it was in the middle of one. */
  ghost function Suspended(r: Proc): Proc {
    r.(status := BlockedSuspend, inReady := false, ipcPort := None, ntfPort := None, srcWait := false, srcTarget := None, fault := NoFault,
       regs := if NativeWait(r) then r.regs[MR_IS_SUCCESS := {}][MR_ERROR_CODE := {}] else r.regs)
  }

  /** SUSPEND changes the process in exactly this way; besides, only the server it was waiting for owes nothing any more. */
  lemma SuspendEffect(s: State, p: Pid)
    requires Good(s)
    ensures var t := Suspend(s, p);
      && t.P(p) == Suspended(s.P(p))
      && forall o: Pid :: o != p ==>
           t.P(o) == if s.P(p).srcTarget == Some(o) then s.P(o).(dstReady := false, dstTarget := None) else s.P(o)
  {
    assert ReplyOk(s, p);
    SelfLinkImpossible(s, p);
    Reported(s, p);
    CutShort(s, Detach(Report(s, p), p), p);
  }

  /** SUSPEND up to the point where the process leaves its queues. */
  function Report(s: State, p: Pid): State {
    var s1 := StopProcess(s, p);
    if NativeWait(s.P(p)) then SetRegs(s1, p, s1.P(p).regs[MR_IS_SUCCESS := {}][MR_ERROR_CODE := {}]) else s1
  }

  lemma Reported(s: State, p: Pid)
    requires Good(s)
    ensures var t := Detach(Report(s, p), p);
      && t.P(p) == Suspended(s.P(p)).(srcWait := s.P(p).srcWait, srcTarget := s.P(p).srcTarget, fault := s.P(p).fault)
      && forall o: Pid :: o != p ==> t.P(o) == s.P(o)
  {
    StopDetachKeeps(s, p);
    ReportedFrom(s, StopProcess(s, p), p);
  }

  lemma ReportedFrom(s: State, s1: State, p: Pid)
    requires Detach(s1, p).P(p) == s.P(p).(status := BlockedSuspend, inReady := false, ipcPort := None, ntfPort := None)
    requires forall o: Pid :: o != p ==> Detach(s1, p).P(o) == s.P(o)
    ensures var s2 := if NativeWait(s.P(p)) then SetRegs(s1, p, s1.P(p).regs[MR_IS_SUCCESS := {}][MR_ERROR_CODE := {}]) else s1;
      var t := Detach(s2, p);
      && t.P(p) == Suspended(s.P(p)).(srcWait := s.P(p).srcWait, srcTarget := s.P(p).srcTarget, fault := s.P(p).fault)
      && forall o: Pid :: o != p ==> t.P(o) == s.P(o)
  {
    DetachRegs(s1, p, s1.P(p).regs[MR_IS_SUCCESS := {}][MR_ERROR_CODE := {}]);
  }

  lemma DetachRegs(s: State, p: Pid, regs: Registers)
    ensures Detach(SetRegs(s, p, regs), p) == SetRegs(Detach(s, p), p, regs) && Detach(s, p).P(p).regs == s.P(p).regs
  {
    DetachOwn(s, p, s.P(p));
    assert s.SetP(p, s.P(p)) == s;
    DetachOwn(s, p, s.P(p).(regs := regs));
    var r := s.P(p).(regs := regs, ipcPort := None, ntfPort := None);
    assert Detach(s, p).procs[p := r] == SetRegs(Detach(s, p), p, regs).procs;
  }

  lemma CutShort(s: State, u: State, p: Pid)
    requires s.P(p).srcTarget != Some(p) && (s.P(p).srcTarget.Some? ==> s.P(s.P(p).srcTarget.value).dstTarget == Some(p))
    requires u.P(p) == Suspended(s.P(p)).(srcWait := s.P(p).srcWait, srcTarget := s.P(p).srcTarget, fault := s.P(p).fault)
    requires forall o: Pid :: o != p ==> u.P(o) == s.P(o)
    ensures var t := ClearFault(CancelReply(u, p), p);
      && t.P(p) == Suspended(s.P(p))
      && forall o: Pid :: o != p ==>
           t.P(o) == if s.P(p).srcTarget == Some(o) then s.P(o).(dstReady := false, dstTarget := None) else s.P(o)
  {
  }

  /** The end of a teardown: nothing of what the process owned, waited for or was bound to is left. */
  lemma GiveUpEffect(s: State, p: Pid)
    requires s.P(p).srcTarget != Some(p)
    ensures var r := GiveUp(s, p).P(p);
      && !r.hasBuffer && r.resolver.None? && r.boundPort.None? && r.srcTarget.None? && !r.srcWait && r.status == s.P(p).status
      && forall i :: 0 <= i < MESSAGE_REGISTER_COUNT ==> r.regs[i] == {}
  {
  }

  /** After the teardown of a process its saved registers are zero, and its buffer, resolver, binding and links are gone. */
  lemma RevokeProcessEffect(s: State, p: Pid)
    requires Good(s)
    ensures var r := RevokeProcess(s, p).P(p);
      && r.status == BlockedSuspend && !r.hasBuffer && r.resolver.None? && r.boundPort.None? && r.srcTarget.None? && r.dstTarget.None?
      && forall i :: 0 <= i < MESSAGE_REGISTER_COUNT ==> r.regs[i] == {}
  {
    StopDetachKeeps(s, p);
    TeardownEnds(Detach(StopProcess(s, p), p), p);
  }

  lemma TeardownEnds(s: State, p: Pid)
    requires Inv(s, {p}, None) && s.P(p).status == BlockedSuspend && s.C(s.P(p).affinity).pending != Some(p)
    ensures var r := GiveUp(ReleaseCaller(s, p), p).P(p);
      && r.status == BlockedSuspend && !r.hasBuffer && r.resolver.None? && r.boundPort.None? && r.srcTarget.None? && r.dstTarget.None?
      && forall i :: 0 <= i < MESSAGE_REGISTER_COUNT ==> r.regs[i] == {}
  {
    var s1 := ReleaseCaller(s, p);
    ReleaseCallerKeeps(s, p);
    SelfLinkImpossible(s1, p);
    GiveUpEffect(s1, p);
    assert GiveUp(s1, p).P(p).dstTarget == s1.P(p).dstTarget;
  }
}
