/** Runs of the kernel: any sequence of entries on any cores, and what holds after every one of them. */
module KernelRun {
  import opened Common
  import opened KernelState
  import opened ReadyQueues
  import opened KernelPrimitives
  import opened ProcessManager
  import opened IpcPort
  import opened IpcInvariant
  import opened NotificationPort
  import opened ProcessControl

  type RealFault = f: Fault | f != NoFault witness Memory

  /** A capability call of the process that runs on the entering core; `ReqUnresolved` names no capability. */
  datatype Request =
    | ReqSend(cap: Cap, x: Transfer)
    | ReqReceive(cap: Cap, x: Transfer)
    | ReqCall(cap: Cap, x: Transfer)
    | ReqReply(x: Transfer)
    | ReqReplyReceive(cap: Cap, x: Transfer, y: Transfer)
    | ReqNotify(cap: Cap)
    | ReqWait(cap: Cap)
    | ReqPoll(cap: Cap)
    | ReqResume(p: Pid)
    | ReqSuspend(p: Pid)
    | ReqPriority(p: Pid, k: nat)
    | ReqAffinity(p: Pid, d: nat)
    | ReqBind(p: Pid, n: NtfId)
    | ReqResolver(p: Pid, r: Resolver)
    | ReqBuffer(p: Pid, isFrame: bool)
    | ReqWriteRegisters(p: Pid)
    | ReqRevokePort(q: PortId)
    | ReqRevokeNtf(n: NtfId)
    | ReqRevokeProcess(p: Pid)
    | ReqUnresolved

  /** `UserCode` is what a process did to its registers before it entered the kernel again. */
  datatype Entry =
    | UserCode(core: CoreId, regs: Registers)
    | CapabilityCall(core: CoreId, request: Request)
    | YieldCall(core: CoreId)
    | TimerTick(core: CoreId)
    | Reschedule(core: CoreId)
    | FaultEntry(core: CoreId, fault: RealFault)
    | Irq(core: CoreId, cap: Cap)

  /** The info word of a message call is in the caller's registers. */
  function Info(s: State, owner: Pid): Word {
    s.P(owner).regs[MR_MESSAGE_INFO]
  }

  predicate IsMessage(r: Request) {
    r.ReqSend? || r.ReqReceive? || r.ReqCall? || r.ReqReply? || r.ReqReplyReceive?
  }

  predicate IsConfigure(r: Request) {
    || r.ReqPriority? || r.ReqAffinity? || r.ReqBind? || r.ReqResolver? || r.ReqBuffer? || r.ReqWriteRegisters?
    || r.ReqUnresolved?
  }

  /** A call of an IPC port. Whatever the operation, a message that claims to come from the kernel is refused. */
  function ExecuteMessage(s: State, owner: Pid, r: Request): (State, Outcome)
    requires IsMessage(r)
  {
    var info := Info(s, owner);
    if !Normal(info) then (s, Err(InvalidArgument))
    else match r
      case ReqSend(cap, x) => Send(s, owner, cap, info, x)
      case ReqReceive(cap, x) => Receive(s, owner, cap, info, x)
      case ReqCall(cap, x) => Call(s, owner, cap, info, x)
      case ReqReply(x) => Reply(s, owner, info, x)
      case ReqReplyReceive(cap, x, y) => ReplyReceive(s, owner, cap, info, x, y)
  }

  /** What CONFIGURE and WRITE_REGISTER do to a process, and what a failed lookup reports. */
  function ExecuteConfigure(s: State, owner: Pid, r: Request): (State, Outcome)
    requires IsConfigure(r)
  {
    match r
    case ReqPriority(p, k) => ConfigurePriority(s, p, k)
    case ReqAffinity(p, d) => ConfigureAffinity(s, p, d)
    case ReqBind(p, n) => ConfigureBinding(s, p, n)
    case ReqResolver(p, res) => (ConfigureResolver(s, p, res), Ok)
    case ReqBuffer(p, isFrame) => ConfigureBuffer(s, p, isFrame)
    case ReqWriteRegisters(p) => WriteRegisters(s, owner, p)
    case ReqUnresolved => (s, Err(InvalidDescriptor))
  }

  function Execute(s: State, c: CoreId, owner: Pid, r: Request): (State, Outcome) {
    if IsMessage(r) then ExecuteMessage(s, owner, r)
    else if IsConfigure(r) then ExecuteConfigure(s, owner, r)
    else match r
    case ReqNotify(cap) => Notify(s, c, cap)
    case ReqWait(cap) => WaitFlag(s, owner, cap)
    case ReqPoll(cap) => Poll(s, owner, cap)
    case ReqResume(p) => Resume(s, c, p)
    case ReqSuspend(p) => (Suspend(s, p), Ok)
    case ReqRevokePort(q) => (RevokePort(s, q), Ok)
    case ReqRevokeNtf(n) => (RevokeNtf(s, n), Ok)
    case ReqRevokeProcess(p) => (RevokeProcess(s, p), Ok)
  }

  function ErrorWord(e: CapError): Word {
    match e
    case IllegalOperation => {}
    case PermissionDenied => {0}
    case InvalidDescriptor => {1}
    case InvalidArgument => {2}
    case FatalError => {0, 2}
  }

  /** The result registers of the calling process. */
  function Finish(s: State, owner: Pid, res: Outcome): State {
    match res
    case Ok => SetRegs(s, owner, s.P(owner).regs[MR_IS_SUCCESS := {0}])
    case Err(e) => SetRegs(s, owner, s.P(owner).regs[MR_IS_SUCCESS := {}][MR_ERROR_CODE := ErrorWord(e)])
  }

  function Step(s: State, e: Entry): State {
    match e
    case UserCode(c, regs) => if s.C(c).current.None? then s else SetRegs(s, s.C(c).current.value, regs)
    case CapabilityCall(c, r) =>
      if s.C(c).current.None? then s
      else
        var (t, res) := Execute(s, c, s.C(c).current.value, r);
        Finish(t, s.C(c).current.value, res)
    case YieldCall(c) => Yield(s, c)
    case TimerTick(c) => Timer(s, c)
    case Reschedule(c) => RescheduleIpi(s, c)
    case FaultEntry(c, fault) => HandleFault(s, c, fault)
    case Irq(c, cap) => Notify(s, c, cap).0
  }

  /** The reply half of REPLY_RECEIVE succeeds. */
  predicate ReplyGoesThrough(s: State, owner: Pid, info: Word, x: Transfer) {
    s.P(owner).dstReady && s.P(owner).dstTarget.Some? ==>
      var client := s.P(s.P(owner).dstTarget.value);
      if client.fault != NoFault then ReplyContext(client.fault, info, s.P(owner).hasBuffer).Ok?
      else !TransferFails(info, Buffered(s, s.P(owner).dstTarget.value, owner), x)
  }

  /**
   The entries after which the kernel's bookkeeping is inconsistent: an admitted message call whose
   transfer stops half way, a priority change of a queued process, a move of a process its core has been told to look
   at, and a binding of a blocked receiver to a port with pending bits.
   */
  predicate CallBreaks(s: State, owner: Pid, r: Request) {
    (IsMessage(r) ==> Normal(Info(s, owner)))
    && match r
    case ReqSend(cap, x) => DeliveryFails(s, owner, cap, Info(s, owner), x)
    case ReqCall(cap, x) => DeliveryFails(s, owner, cap, Info(s, owner), x)
    case ReqReceive(cap, x) => cap.readable && ReceiveFails(s, cap.port, owner, x)
    case ReqReplyReceive(cap, x, y) =>
      cap.readable && ReplyGoesThrough(s, owner, Info(s, owner), x) && ReceiveFails(s, cap.port, owner, y)
    case ReqPriority(p, k) => k < PRIORITY_MAX && s.P(p).inReady && k != s.P(p).priority
    case ReqAffinity(p, d) =>
      d < s.coreCount && d != s.P(p).affinity && s.P(p).status != Ready && !RunsOnAssignedCore(s, p)
      && s.C(s.P(p).affinity).pending == Some(p)
    case ReqBind(p, n) => Binds(s, p, n) && s.P(p).status == BlockedReceive && s.N(n).flag != {}
    case _ => false
  }

  predicate Breaks(s: State, e: Entry) {
    match e
    case CapabilityCall(c, r) => s.C(c).current.Some? && CallBreaks(s, s.C(c).current.value, r)
    case FaultEntry(c, fault) => s.C(c).current.Some? && FaultLost(s, s.C(c).current.value, fault)
    case _ => false
  }

  // ---------------------------------------------------------------- the invariant is kept

  lemma FinishKeeps(s: State, owner: Pid, res: Outcome)
    ensures Good(Finish(s, owner, res)) <==> Good(s)
  {
    var t := Finish(s, owner, res);
    if Good(s) {
      RegsKeep(s, {}, None, owner, t.P(owner).regs);
    }
    if Good(t) {
      RegsKeep(t, {}, None, owner, s.P(owner).regs);
      assert SetRegs(t, owner, s.P(owner).regs).procs == s.procs;
      assert SetRegs(t, owner, s.P(owner).regs) == s;
    }
  }

  lemma ReplyOutcome(s: State, owner: Pid, info: Word, x: Transfer)
    requires ReplyOk(s, owner)
    ensures CompleteReply(s, owner, info, x, true).1.Ok? <==> ReplyGoesThrough(s, owner, info, x)
  {
  }

  /** Whatever the operation, a message that claims to come from the kernel changes nothing and breaks nothing. */
  lemma KernelSourceRefused(s: State, c: CoreId, owner: Pid, r: Request)
    requires s.C(c).current == Some(owner) && IsMessage(r) && (13 in Info(s, owner) || 14 in Info(s, owner))
    ensures Execute(s, c, owner, r) == (s, Err(InvalidArgument)) && !Breaks(s, CapabilityCall(c, r))
  {
  }

  /** Releasing the old caller changes nothing about the senders waiting in a port. */
  lemma DiscardSparesSenders(s: State, c: CoreId, owner: Pid, q: PortId, x: Transfer)
    requires Good(s) && s.C(c).current == Some(owner)
    ensures ReceiveFails(DiscardCaller(s, owner), q, owner, x) == ReceiveFails(s, q, owner, x)
  {
    Running(s, c, owner);
    assert ReplyOk(s, owner) && PortOk(s, q);
    if s.P(owner).dstReady && s.Q(q).queue != [] {
      Awaiting(s, {}, None, s.P(owner).dstTarget.value);
      assert s.Q(q).queue[0] in s.Q(q).queue;
      DiscardSpares(s, owner, s.Q(q).queue[0]);
    }
    DiscardSpares(s, owner, owner);
  }

  lemma DiscardSpares(s: State, owner: Pid, p: Pid)
    requires s.P(owner).dstTarget != Some(owner) && (p != owner ==> s.P(owner).dstTarget != Some(p))
    requires p != owner && s.P(owner).dstTarget.Some? ==> s.P(s.P(owner).dstTarget.value).srcTarget != Some(p)
    ensures var t := DiscardCaller(s, owner);
      t.ports == s.ports && t.P(p).hasBuffer == s.P(p).hasBuffer && (p != owner ==> t.P(p) == s.P(p))
  {
  }

  lemma MessageKeeps(s: State, c: CoreId, owner: Pid, r: Request)
    requires Good(s) && s.C(c).current == Some(owner) && !CallBreaks(s, owner, r) && IsMessage(r)
    ensures Good(ExecuteMessage(s, owner, r).0)
  {
    if !Normal(Info(s, owner)) { return; }
    match r
    case ReqSend(cap, x) => SendKeeps(s, c, owner, cap, Info(s, owner), x);
    case ReqReceive(cap, x) =>
      DiscardSparesSenders(s, c, owner, cap.port, x);
      ReceiveKeeps(s, c, owner, cap, Info(s, owner), x);
    case ReqCall(cap, x) => CallKeeps(s, c, owner, cap, Info(s, owner), x);
    case ReqReply(x) => ReplyKeeps(s, c, owner, Info(s, owner), x);
    case ReqReplyReceive(cap, x, y) =>
      assert ReplyOk(s, owner);
      ReplyOutcome(s, owner, Info(s, owner), x);
      ReplyReceiveKeeps(s, c, owner, cap, Info(s, owner), x, y);
  }

  lemma ControlKeeps(s: State, c: CoreId, owner: Pid, r: Request)
    requires Good(s) && s.C(c).current == Some(owner) && !CallBreaks(s, owner, r) && !IsMessage(r)
    ensures Good(Execute(s, c, owner, r).0)
  {
    match r
    case ReqNotify(cap) => NotifyKeeps(s, c, cap);
    case ReqWait(cap) => WaitKeeps(s, c, owner, cap);
    case ReqPoll(cap) => PollKeeps(s, owner, cap);
    case ReqResume(p) => ResumeKeeps(s, c, p);
    case ReqSuspend(p) => SuspendKeeps(s, p);
    case ReqRevokePort(q) => RevokePortKeeps(s, q);
    case ReqRevokeNtf(n) => RevokeNtfKeeps(s, n);
    case ReqRevokeProcess(p) => RevokeProcessKeeps(s, p);
    case _ => ConfigureKeeps(s, owner, r);
  }

  lemma ConfigureKeeps(s: State, owner: Pid, r: Request)
    requires Good(s) && !CallBreaks(s, owner, r) && IsConfigure(r)
    ensures Good(ExecuteConfigure(s, owner, r).0)
  {
    match r
    case ReqPriority(p, k) => PriorityKeepsIff(s, p, k);
    case ReqAffinity(p, d) => AffinityKeepsIff(s, p, d);
    case ReqBind(p, n) => BindingKeepsIff(s, p, n);
    case ReqResolver(p, res) => OwnFieldsKeep(s, {}, None, p, s.P(p).(resolver := Some(res)));
    case ReqBuffer(p, isFrame) => OwnFieldsKeep(s, {}, None, p, s.P(p).(hasBuffer := true));
    case ReqWriteRegisters(p) => RegsKeep(s, {}, None, p, WriteRegisters(s, owner, p).0.P(p).regs);
    case ReqUnresolved =>
  }

  lemma ExecuteKeeps(s: State, c: CoreId, owner: Pid, r: Request)
    requires Good(s) && s.C(c).current == Some(owner) && !CallBreaks(s, owner, r)
    ensures Good(Execute(s, c, owner, r).0)
  {
    if IsMessage(r) { MessageKeeps(s, c, owner, r); } else { ControlKeeps(s, c, owner, r); }
  }

  // ---------------------------------------------------------------- and broken nowhere else

  /** A blocked sender, receiver or unanswered faulter that is in no port queue. */
  lemma Stranded(s: State, p: Pid)
    requires s.P(p).ipcPort.None? && s.P(p).srcTarget.None?
    requires s.P(p).status in {BlockedSend, BlockedReceive, BlockedFault}
    ensures !Good(s)
  {
    assert !PlaceOk(s, {}, None, p);
  }

  lemma SendBreaks(s: State, c: CoreId, owner: Pid, cap: Cap, info: Word, x: Transfer)
    requires Good(s) && s.C(c).current == Some(owner)
    requires DeliveryFails(s, owner, cap, info, x)
    ensures !Good(Send(s, owner, cap, info, x).0)
  {
    var q := cap.port;
    var t := Send(s, owner, cap, info, x).0;
    assert PortOk(s, q);
    var target := s.Q(q).queue[0];
    assert target in s.Q(q).queue && PlaceOk(s, {}, None, target);
    Running(s, c, owner);
    assert !PlaceOk(t, {}, None, target);
  }

  lemma CallBreaksHere(s: State, c: CoreId, owner: Pid, cap: Cap, info: Word, x: Transfer)
    requires Good(s) && s.C(c).current == Some(owner)
    requires DeliveryFails(s, owner, cap, info, x)
    ensures !Good(Call(s, owner, cap, info, x).0)
  {
    var q := cap.port;
    assert PortOk(s, q);
    var target := s.Q(q).queue[0];
    assert target in s.Q(q).queue && PlaceOk(s, {}, None, target) && ReplyOk(s, target);
    Running(s, c, owner);
    Stranded(Call(s, owner, cap, info, x).0, target);
  }

  lemma TakeSenderBreaks(s: State, f: set<Pid>, away: Option<CoreId>, q: PortId, owner: Pid, x: Transfer)
    requires Inv(s, f, away) && s.P(owner).ipcPort.None? && !s.P(owner).dstReady && ReceiveFails(s, q, owner, x)
    ensures !Good(TryReceiveFromReadySender(s, q, owner, x).0)
  {
    var sender := s.Q(q).queue[0];
    PopIpcKeeps(s, f, away, q);
    assert PlaceOk(s, f, away, sender);
    Stranded(TryReceiveFromReadySender(s, q, owner, x).0, sender);
  }

  lemma ReceiveBreaks(s: State, c: CoreId, owner: Pid, cap: Cap, info: Word, x: Transfer)
    requires Good(s) && s.C(c).current == Some(owner) && cap.readable && ReceiveFails(s, cap.port, owner, x)
    ensures !Good(Receive(s, owner, cap, info, x).0)
  {
    DiscardSparesSenders(s, c, owner, cap.port, x);
    LeaveOne(s, c, owner);
    Running(s, c, owner);
    DiscardKeeps(s, {owner}, Some(c), owner);
    TakeSenderBreaks(DiscardCaller(s, owner), {owner}, Some(c), cap.port, owner, x);
  }

  lemma ReplyReceiveBreaks(s: State, c: CoreId, owner: Pid, cap: Cap, info: Word, x: Transfer, y: Transfer)
    requires Good(s) && s.C(c).current == Some(owner) && cap.readable
    requires ReplyGoesThrough(s, owner, info, x) && ReceiveFails(s, cap.port, owner, y)
    ensures !Good(ReplyReceive(s, owner, cap, info, x, y).0)
  {
    assert ReplyOk(s, owner);
    ReplyOutcome(s, owner, info, x);
    Running(s, c, owner);
    LeaveOne(s, c, owner);
    CompleteReplyKeeps(s, {owner}, Some(c), owner, info, x);
    ReplyFrame(s, owner, info, x, true);
    SendersUntouched(s, c, owner, cap.port, info, x, y);
    TakeSenderBreaks(CompleteReply(s, owner, info, x, true).0, {owner}, Some(c), cap.port, owner, y);
  }

  lemma ExecuteBreaks(s: State, c: CoreId, owner: Pid, r: Request)
    requires Good(s) && s.C(c).current == Some(owner) && CallBreaks(s, owner, r)
    ensures !Good(Execute(s, c, owner, r).0)
  {
    match r
    case ReqSend(cap, x) => SendBreaks(s, c, owner, cap, Info(s, owner), x);
    case ReqCall(cap, x) => CallBreaksHere(s, c, owner, cap, Info(s, owner), x);
    case ReqReceive(cap, x) => ReceiveBreaks(s, c, owner, cap, Info(s, owner), x);
    case ReqReplyReceive(cap, x, y) => ReplyReceiveBreaks(s, c, owner, cap, Info(s, owner), x, y);
    case ReqPriority(p, k) => PriorityKeepsIff(s, p, k);
    case ReqAffinity(p, d) => AffinityKeepsIff(s, p, d);
    case ReqBind(p, n) => BindingKeepsIff(s, p, n);
    case _ =>
  }

  lemma FaultBreaks(s: State, c: CoreId, fault: RealFault)
    requires Good(s) && s.C(c).current.Some? && FaultLost(s, s.C(c).current.value, fault)
    ensures !Good(HandleFault(s, c, fault))
  {
    var p := s.C(c).current.value;
    var cap := s.P(p).resolver.value;
    var q := cap.port;
    Running(s, c, p);
    assert PortOk(s, q);
    var target := s.Q(q).queue[0];
    assert target in s.Q(q).queue && PlaceOk(s, {}, None, target) && ReplyOk(s, target);
    var s1 := s.SetP(p, s.P(p).(fault := fault));
    var s2 := FaultCall(s1, p, cap).0;
    assert s2.P(p).srcWait;
    LostWaiting(s2, c, p);
  }

  lemma LostWaiting(s: State, c: CoreId, p: Pid)
    requires s.P(p).srcWait
    ensures !Good(TryScheduleAndSwitch(s.SetP(p, s.P(p).(status := BlockedSuspend)), c))
  {
    var t := s.SetP(p, s.P(p).(status := BlockedSuspend));
    DispatchFrame(t, c, p);
    assert !PlaceOk(TryScheduleAndSwitch(t, c), {}, None, p);
  }

  /** Dispatching changes only the ready flag of processes. */
  lemma DispatchFrame(s: State, c: CoreId, p: Pid)
    ensures TryScheduleAndSwitch(s, c).P(p) == s.P(p).(inReady := TryScheduleAndSwitch(s, c).P(p).inReady)
  {
  }

  // ---------------------------------------------------------------- theorems

  /** One entry keeps the invariant exactly when it is not one of the breaking ones. */
  lemma StepKeepsIff(s: State, e: Entry)
    requires Good(s)
    ensures Good(Step(s, e)) <==> !Breaks(s, e)
  {
    match e
    case UserCode(c, regs) =>
      if s.C(c).current.Some? {
        RegsKeep(s, {}, None, s.C(c).current.value, regs);
      }
    case CapabilityCall(c, r) =>
      if s.C(c).current.Some? {
        var owner := s.C(c).current.value;
        var (t, res) := Execute(s, c, owner, r);
        FinishKeeps(t, owner, res);
        if CallBreaks(s, owner, r) {
          ExecuteBreaks(s, c, owner, r);
        } else {
          ExecuteKeeps(s, c, owner, r);
        }
      }
    case YieldCall(c) => YieldKeeps(s, c);
    case TimerTick(c) => TimerKeeps(s, c);
    case Reschedule(c) => RescheduleKeeps(s, c);
    case FaultEntry(c, fault) =>
      if s.C(c).current.Some? && FaultLost(s, s.C(c).current.value, fault) {
        FaultBreaks(s, c, fault);
      } else {
        HandleFaultKeeps(s, c, fault);
      }
    case Irq(c, cap) => NotifyKeeps(s, c, cap);
  }

  /** The state after each prefix of a run. */
  function After(s: State, es: seq<Entry>): State {
    if es == [] then s else Step(After(s, es[..|es| - 1]), es[|es| - 1])
  }

  lemma AfterStep(s: State, es: seq<Entry>, i: nat)
    requires i < |es|
    ensures After(s, es[..i + 1]) == Step(After(s, es[..i]), es[i])
  {
    assert es[..i + 1][..i] == es[..i];
  }

  /** No entry of the run is a breaking one at the moment it happens. */
  ghost predicate Orderly(s: State, es: seq<Entry>) {
    forall i :: 0 <= i < |es| ==> !Breaks(After(s, es[..i]), es[i])
  }

  /** The Init process as boot leaves it: the highest priority, an IPC buffer, on the boot core. */
  function InitProcess(): Proc {
    NewProc().(priority := PRIORITY_MAX - 1, hasBuffer := true)
  }

  /** Boot ends by scheduling Init on the boot core and switching to it; the other cores are idle. */
  function Boot(cores: CoreCount, init: Pid): State {
    TryScheduleAndSwitch(MarkScheduled(Blank(cores).SetP(init, InitProcess()), init), 0)
  }

  lemma BootGood(cores: CoreCount, init: Pid)
    ensures Good(Boot(cores, init))
    ensures var s := Boot(cores, init);
      && s.C(0).current == Some(init) && s.P(init) == InitProcess().(status := Ready, quantum := QUANTUM_MAX)
      && (forall c: CoreId :: s.C(c).ready == EmptyQueues() && (c != 0 ==> s.C(c) == NewCore()))
      && (forall p: Pid :: p != init ==> s.P(p) == NewProc())
      && s.ports == Blank(cores).ports && s.ntfs == Blank(cores).ntfs && s.coreCount == cores
  {
    var s := Blank(cores).SetP(init, InitProcess());
    BlankGood(cores, init);
    Lift(s, {}, None, init);
    MarkScheduledKeeps(s, {} + {init}, None, init);
    assert {} + {init} - {init} == {};
    var t := MarkScheduled(s, init);
    LeaveIdle(t, {}, 0);
    SwitchAwayKeeps(t, {}, 0);
    assert Top(t.C(0).ready, t.C(0).highest) == PRIORITY_MAX - 1;
    assert EmptyQueues()[PRIORITY_MAX - 1] + [init] == [init] && [init][1..] == [];
    assert EmptyQueues()[PRIORITY_MAX - 1 := [init]][PRIORITY_MAX - 1 := []] == EmptyQueues();
  }

  lemma BlankGood(cores: CoreCount, init: Pid)
    ensures Good(Blank(cores).SetP(init, InitProcess()))
  {
    var s := Blank(cores).SetP(init, InitProcess());
    forall c: CoreId, k: Priority ensures QueueOk(s, c, k) {}
    forall q: PortId ensures PortOk(s, q) {}
    forall n: NtfId ensures NtfOk(s, n) && FlagOk(s, n) && BoundOk(s, n) {}
    forall c: CoreId ensures CoreOk(s, None, c) {}
    forall p: Pid ensures ReadyMember(s, p) && IpcMember(s, p) && NtfMember(s, p) && BindMember(s, p) && ReplyOk(s, p) {}
    forall p: Pid ensures PlaceOk(s, {}, None, p) {}
    forall p: Pid ensures Ends(Links(s), p) {
      assert Follow(Links(s), p, 1).None?;
    }
  }

  /** Every run without breaking entries stays consistent, after every entry, on every interleaving of cores. */
  lemma {:induction false} RunsStayGood(s: State, es: seq<Entry>, i: nat)
    requires Good(s) && Orderly(s, es) && i <= |es|
    ensures Good(After(s, es[..i]))
  {
    if i > 0 {
      RunsStayGood(s, es, i - 1);
      AfterStep(s, es, i - 1);
      StepKeepsIff(After(s, es[..i - 1]), es[i - 1]);
    }
  }
}
