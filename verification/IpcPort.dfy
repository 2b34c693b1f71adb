/** The operations of an IPC port, as `ipc_port.cpp` performs them on the kernel state. */
module IpcPort {
  import opened Common
  import opened KernelState
  import opened KernelPrimitives
  import opened ProcessManager

  const MR_IS_SUCCESS: nat := 0
  const MR_ERROR_CODE: nat := 1
  const MR_MESSAGE_INFO: nat := 2
  const MR_IDENTIFIER: nat := 3
  const PAYLOAD_START: nat := 4
  const MR_REGISTER_COUNT: nat := 2
  const REGISTER_START: nat := 3
  const MESSAGE_REGISTER_COUNT: nat := 10
  const HARDWARE_CONTEXT_SIZE: nat := 35

  datatype CapError = IllegalOperation | PermissionDenied | InvalidDescriptor | InvalidArgument | FatalError
  datatype Outcome = Ok | Err(error: CapError)

  /** A slot naming an IPC or notification port: the object, the rights and the identifier. */
  datatype Cap = Cap(port: PortId, readable: bool, writable: bool, identifier: Word)

  /**
   What the capability spaces hold for the slots a message names: whether both IPC buffers are backed by
   Frames, whether the destination names a Node, and how many of the slots can be moved in turn.
   */
  datatype Transfer = Transfer(framed: bool, node: bool, movable: nat)

  // ---------------------------------------------------------------- message words

  function Field(w: Word, low: nat, width: nat): nat
    decreases width
  {
    if width == 0 then 0 else (if low in w then 1 else 0) + 2 * Field(w, low + 1, width - 1)
  }

  predicate IsBlock(info: Word) { 0 in info }

  /** The source field names a user process, not a fault or a notification. */
  predicate Normal(info: Word) { 13 !in info && 14 !in info }

  function MessageLength(info: Word): nat { Field(info, 1, 8) }
  function TransferCount(info: Word): nat { Field(info, 9, 4) }

  /** Message registers from the tenth on live in the IPC buffers, which both processes need. */
  predicate Buffered(s: State, a: Pid, b: Pid) {
    s.P(a).hasBuffer && s.P(b).hasBuffer
  }

  /** `length` payload words do not fit in the hardware registers and there is no buffer for the rest. */
  predicate Overflows(length: nat, buffered: bool) {
    PAYLOAD_START + length > MESSAGE_REGISTER_COUNT && !buffered
  }

  predicate CopyFails(info: Word, buffered: bool) {
    Overflows(MessageLength(info), buffered)
  }

  predicate MoveFails(info: Word, buffered: bool, x: Transfer) {
    TransferCount(info) > 0 && !(buffered && x.framed && x.node && x.movable >= TransferCount(info))
  }

  /** The transfer stops with an error. */
  predicate TransferFails(info: Word, buffered: bool, x: Transfer) {
    CopyFails(info, buffered) || MoveFails(info, buffered, x)
  }

  /** How many payload words are written, also by a copy that fails. */
  function CopiedWords(info: Word, buffered: bool): nat {
    if CopyFails(info, buffered) then MESSAGE_REGISTER_COUNT - PAYLOAD_START else MessageLength(info)
  }

  function CopyPayload(to: Registers, from: Registers, length: nat): Registers {
    seq(REGISTER_COUNT, i requires 0 <= i < REGISTER_COUNT =>
      if PAYLOAD_START <= i < PAYLOAD_START + length then from[i] else to[i])
  }

  /** The general register that carries message register `i`; x8 carries the number of the kernel call. */
  function ContextIndex(i: nat): nat {
    if i < 8 then i else i + 1
  }

  /** The first `count` general registers are overwritten by the message registers from `start` on. */
  function WriteContext(to: Registers, from: Registers, start: nat, count: nat): Registers
    requires start <= PAYLOAD_START
  {
    seq(REGISTER_COUNT, i requires 0 <= i < REGISTER_COUNT =>
      if i < MESSAGE_REGISTER_COUNT && ContextIndex(i) < count then from[start + ContextIndex(i)] else to[i])
  }

  function SetRegs(s: State, p: Pid, regs: Registers): State {
    s.SetP(p, s.P(p).(regs := regs))
  }

  /** What the receiver's registers hold after the attempt. */
  function Received(s: State, receiver: Pid, sender: Pid, info: Word): Registers {
    var regs := s.P(receiver).regs[MR_MESSAGE_INFO := info][MR_IDENTIFIER := s.P(sender).identifier];
    CopyPayload(regs, s.P(sender).regs, CopiedWords(info, Buffered(s, receiver, sender)))
  }

  function TransferOutcome(info: Word, buffered: bool, x: Transfer): Outcome {
    if CopyFails(info, buffered) then Err(FatalError)
    else if !MoveFails(info, buffered, x) then Ok
    else if buffered && x.framed then Err(InvalidArgument)
    else Err(IllegalOperation)
  }

  /** Through a port: a failed copy puts the port back to `Wait`. */
  function TransferMessage(s: State, q: PortId, receiver: Pid, sender: Pid, info: Word, x: Transfer): (State, Outcome) {
    var s1 := SetRegs(s, receiver, Received(s, receiver, sender, info));
    var buffered := Buffered(s, receiver, sender);
    (if CopyFails(info, buffered) then s1.SetQ(q, s1.Q(q).(state := Wait)) else s1, TransferOutcome(info, buffered, x))
  }

  function TransferDirectMessage(s: State, receiver: Pid, sender: Pid, info: Word, x: Transfer): (State, Outcome) {
    (SetRegs(s, receiver, Received(s, receiver, sender, info)), TransferOutcome(info, Buffered(s, receiver, sender), x))
  }

  /** Faults that have no message format. */
  predicate Unformatted(fault: Fault) { fault == NoFault || fault == Fatal }

  /** A fault without a format, or whose register dump needs a buffer that is not there, cannot be delivered. */
  predicate FaultTransferFails(fault: Fault, buffered: bool) {
    Unformatted(fault) || (fault == InvalidKernelCall && !buffered)
  }

  /** The info word of a fault message: the source in bit 13 and the message length from bit 1. */
  function FaultInfo(fault: Fault): Word {
    match fault
    case Memory | MemoryInstructionFetch => {4, 13}
    case InvalidKernelCall => {2, 4, 6, 13}
    case _ => {1, 2, 3, 13}
  }

  /** The header is written first, so a dump that does not fit has changed it already. */
  function TransferFaultMessage(s: State, receiver: Pid, sender: Pid): (State, bool) {
    var fault := s.P(sender).fault;
    if Unformatted(fault) then (s, false)
    else
      (SetRegs(s, receiver, s.P(receiver).regs[MR_IS_SUCCESS := {0}][MR_ERROR_CODE := {}]
                            [MR_MESSAGE_INFO := FaultInfo(fault)][MR_IDENTIFIER := s.P(sender).identifier]),
       !FaultTransferFails(fault, s.P(receiver).hasBuffer))
  }

  // ---------------------------------------------------------------- cancellation

  /** A wait that will never complete ends with an error; a faulted process stays parked. */
  function CompleteRevokedWait(s: State, p: Pid): State {
    var s1 := SetRegs(s, p, s.P(p).regs[MR_IS_SUCCESS := {}][MR_ERROR_CODE := {}]);
    if s1.P(p).fault != NoFault then s1.SetP(p, s1.P(p).(status := BlockedSuspend))
    else match s1.P(p).status
      case BlockedSend | BlockedReceive | BlockedReply | BlockedWait => MarkScheduled(s1, p)
      case _ => s1
  }

  function CancelReplyWithError(s: State, client: Pid): State {
    CompleteRevokedWait(CancelReply(s, client), client)
  }

  function Forget(s: State, owner: Pid): State {
    s.SetP(owner, s.P(owner).(dstReady := false, dstTarget := None))
  }

  // ---------------------------------------------------------------- operations

  /** The owner blocks in the queue of `q` and its core moves on. */
  function Block(s: State, q: PortId, st: PortState, owner: Pid): State {
    TryScheduleAndSwitch(PushIpc(s, q, st, owner), s.P(owner).affinity)
  }

  function Send(s: State, owner: Pid, cap: Cap, info: Word, x: Transfer): (State, Outcome) {
    var q := cap.port;
    if !cap.writable then (s, Err(PermissionDenied))
    else match s.Q(q).state
      case Wait | ReadyToSend =>
        if !IsBlock(info) then (s, Ok)
        else
          var s1 := s.SetP(owner, s.P(owner).(status := BlockedSend, identifier := cap.identifier));
          (Block(s1, q, ReadyToSend, owner), Ok)
      case ReadyToReceive =>
        if s.Q(q).queue == [] then (s, Err(FatalError))
        else
          var target := s.Q(q).queue[0];
          var s1 := PopIpc(s, q);
          var s2 := s1.SetP(target, s1.P(target).(status := Ready));
          SendReceiver(s2.SetP(owner, s2.P(owner).(identifier := cap.identifier)), owner, q, target, info, x)
  }

  function SendReceiver(s: State, owner: Pid, q: PortId, target: Pid, info: Word, x: Transfer): (State, Outcome) {
    var (s1, res) := TransferMessage(s, q, target, owner, info, x);
    (if res.Ok? then RouteMarkScheduled(s1, s1.P(owner).affinity, target) else s1, res)
  }

  function TryDeliverPending(s: State, owner: Pid): (State, bool) {
    match s.P(owner).boundPort
    case None => (s, false)
    case Some(n) =>
      if !Pending(s, n) then (s, false)
      else
        var s1 := ConsumeBits(s, n, owner);
        (SetRegs(s1, owner, s1.P(owner).regs[MR_MESSAGE_INFO := {14}][MR_IDENTIFIER := s.N(n).flag]), true)
  }

  /** Taking the first waiting sender's message would stop half way. */
  predicate ReceiveFails(s: State, q: PortId, receiver: Pid, x: Transfer) {
    s.Q(q).state == ReadyToSend && s.Q(q).queue != [] && AcceptFails(s, receiver, s.Q(q).queue[0], x)
  }

  predicate AcceptFails(s: State, receiver: Pid, sender: Pid, x: Transfer) {
    if s.P(sender).fault != NoFault then FaultTransferFails(s.P(sender).fault, s.P(receiver).hasBuffer)
    else TransferFails(s.P(sender).regs[MR_MESSAGE_INFO], Buffered(s, receiver, sender), x)
  }

  /** The receiver takes the first waiting sender. */
  function TryReceiveFromReadySender(s: State, q: PortId, receiver: Pid, x: Transfer): (State, Outcome) {
    if s.Q(q).state != ReadyToSend || s.Q(q).queue == [] then (s, Err(FatalError))
    else
      var sender := s.Q(q).queue[0];
      AcceptSender(PopIpc(s, q), q, receiver, sender, x)
  }

  /** A faulted or calling sender waits for the reply; any other sender goes on. */
  function AcceptSender(s: State, q: PortId, receiver: Pid, sender: Pid, x: Transfer): (State, Outcome) {
    if s.P(receiver).dstReady then (s, Err(FatalError))
    else if s.P(sender).fault != NoFault then
      var (s1, ok) := TransferFaultMessage(s, receiver, sender);
      if !ok then (s1, Err(FatalError))
      else
        var s2 := Link(s1, sender, receiver);
        (s2.SetP(sender, s2.P(sender).(status := BlockedReply)), Ok)
    else
      var (s1, res) := TransferMessage(s, q, receiver, sender, s.P(sender).regs[MR_MESSAGE_INFO], x);
      if res.Err? then (s1, res)
      else if s1.P(sender).srcWait then
        var s2 := Link(s1, sender, receiver);
        (s2.SetP(sender, s2.P(sender).(status := BlockedReply)), Ok)
      else
        var s2 := Forget(s1, receiver);
        var s3 := s2.SetP(sender, s2.P(sender).(status := Ready));
        (RouteMarkScheduled(s3, s3.P(receiver).affinity, sender), Ok)
  }

  /** The receiving half of RECEIVE and REPLY_RECEIVE. */
  function ReceivePart(s: State, owner: Pid, q: PortId, info: Word, x: Transfer): (State, Outcome) {
    if s.Q(q).state == ReadyToSend then TryReceiveFromReadySender(s, q, owner, x)
    else
      var (s1, delivered) := TryDeliverPending(s, owner);
      if delivered || !IsBlock(info) then (s1, Ok)
      else
        var s2 := s1.SetP(owner, s1.P(owner).(status := BlockedReceive));
        (Block(s2, q, ReadyToReceive, owner), Ok)
  }

  /** A caller that was not replied to is released with an error. */
  function DiscardCaller(s: State, owner: Pid): State {
    if !s.P(owner).dstReady then s
    else
      var s1 := if s.P(owner).dstTarget.Some? then CancelReplyWithError(s, s.P(owner).dstTarget.value) else s;
      Forget(s1, owner)
  }

  function Receive(s: State, owner: Pid, cap: Cap, info: Word, x: Transfer): (State, Outcome) {
    if !cap.readable then (s, Err(PermissionDenied))
    else ReceivePart(DiscardCaller(s, owner), owner, cap.port, info, x)
  }

  function Call(s: State, owner: Pid, cap: Cap, info: Word, x: Transfer): (State, Outcome) {
    var q := cap.port;
    if !cap.writable then (s, Err(PermissionDenied))
    else match s.Q(q).state
      case Wait | ReadyToSend =>
        if !IsBlock(info) then (s, Ok)
        else
          var (s1, delivered) := TryDeliverPending(s, owner);
          if delivered then (s1, Ok)
          else
            var s2 := s1.SetP(owner, s1.P(owner).(status := BlockedSend, srcWait := true,
                                                  identifier := cap.identifier));
            (Block(s2, q, ReadyToSend, owner), Ok)
      case ReadyToReceive =>
        if s.Q(q).queue == [] then (s, Err(FatalError))
        else
          var target := s.Q(q).queue[0];
          var s1 := PopIpc(s, q);
          CallReceiver(s1.SetP(owner, s1.P(owner).(identifier := cap.identifier)), owner, q, target, info, x)
  }

  /** The caller hands its message and its core to a receiver that was waiting. */
  function CallReceiver(s: State, owner: Pid, q: PortId, target: Pid, info: Word, x: Transfer): (State, Outcome) {
    if s.P(target).dstReady then (s, Err(FatalError))
    else
      var s1 := Link(s, owner, target);
      var s2 := s1.SetP(owner, s1.P(owner).(status := BlockedReply));
      var (s3, res) := TransferMessage(s2, q, target, owner, info, x);
      if res.Err? then (s3, res)
      else
        var s4 := s3.SetP(target, s3.P(target).(status := Ready));
        (TryDirectScheduleAndSwitch(s4, s4.P(owner).affinity, target), Ok)
  }

  /** Writing the reply of an emulated kernel call into the faulted client's context. */
  function ReplyContext(fault: Fault, info: Word, buffered: bool): Outcome {
    if fault != InvalidKernelCall then Ok
    else if MessageLength(info) > HARDWARE_CONTEXT_SIZE then Err(InvalidArgument)
    else if Overflows(MessageLength(info), buffered) then Err(FatalError)
    else Ok
  }

  /** What such a reply writes; one that stops half way has written the words before. */
  function ReplyRegisters(s: State, owner: Pid, client: Pid, info: Word): Registers {
    if s.P(client).fault != InvalidKernelCall || MessageLength(info) > HARDWARE_CONTEXT_SIZE then s.P(client).regs
    else WriteContext(s.P(client).regs, s.P(owner).regs, PAYLOAD_START, CopiedWords(info, s.P(owner).hasBuffer))
  }

  /** The faulted client goes on where it was stopped. */
  function CompleteFaultReply(s: State, owner: Pid, client: Pid): State {
    var s1 := s.SetP(client, s.P(client).(status := Ready, srcWait := false, srcTarget := None, fault := NoFault));
    RouteMarkScheduled(Forget(s1, owner), s.P(owner).affinity, client)
  }

  /** Reply to the caller; `enqueue` says whether it is made ready here. */
  function CompleteReply(s: State, owner: Pid, info: Word, x: Transfer, enqueue: bool): (State, Outcome) {
    if !s.P(owner).dstReady then (s, Ok)
    else if s.P(owner).dstTarget.None? then (s, Err(FatalError))
    else
      var client := s.P(owner).dstTarget.value;
      if s.P(client).fault != NoFault then
        var res := ReplyContext(s.P(client).fault, info, s.P(owner).hasBuffer);
        var s1 := SetRegs(s, client, ReplyRegisters(s, owner, client, info));
        if res.Err? then (s1, res) else (CompleteFaultReply(s1, owner, client), Ok)
      else
        var (s1, res) := TransferDirectMessage(s, client, owner, info, x);
        if res.Err? then (s1, res)
        else
          var s2 := s1.SetP(client, s1.P(client).(status := Ready, srcWait := false, srcTarget := None));
          var s3 := Forget(s2, owner);
          (if enqueue then RouteMarkScheduled(s3, s3.P(owner).affinity, client) else s3, Ok)
  }

  function Reply(s: State, owner: Pid, info: Word, x: Transfer): (State, Outcome) {
    if !s.P(owner).dstReady then (s, Ok)
    else
      var (s1, res) := CompleteReply(s, owner, info, x, true);
      if res.Err? then (s1, res)
      else
        var s2 := s1.SetP(owner, s1.P(owner).(status := Ready));
        (TryDirectScheduleAndSwitch(s2, s2.P(owner).affinity, owner), Ok)
  }

  /** When REPLY_RECEIVE hands the core straight to the caller it replies to. */
  predicate FastReply(s: State, owner: Pid, q: PortId, info: Word) {
    var r := s.P(owner);
    && r.dstReady && r.dstTarget.Some? && s.P(r.dstTarget.value).fault == NoFault
    && IsBlock(info) && s.Q(q).state != ReadyToSend
    && s.P(r.dstTarget.value).affinity == r.affinity
    && !(r.boundPort.Some? && Pending(s, r.boundPort.value))
  }

  function ReplyReceiveFast(s: State, owner: Pid, q: PortId, info: Word, x: Transfer): (State, Outcome)
    requires s.P(owner).dstTarget.Some?
  {
    var client := s.P(owner).dstTarget.value;
    var (s1, res) := CompleteReply(s, owner, info, x, false);
    if res.Err? then (s1, res)
    else
      var s2 := s1.SetP(owner, s1.P(owner).(status := BlockedReceive));
      var s3 := PushIpc(s2, q, ReadyToReceive, owner);
      var (s4, next) := TryDirectSchedule(s3, s3.P(owner).affinity, client);
      if next.Some? then (SwitchTo(s4, s3.P(owner).affinity, next), Ok) else (s4, Err(FatalError))
  }

  function ReplyReceiveSlow(s: State, owner: Pid, q: PortId, info: Word, x: Transfer, y: Transfer): (State, Outcome) {
    var (s1, res) := CompleteReply(s, owner, info, x, true);
    if res.Err? then (s1, res) else ReceivePart(s1, owner, q, info, y)
  }

  /** `x` is what the reply's transfer meets, `y` what the next message's transfer meets. */
  function ReplyReceive(s: State, owner: Pid, cap: Cap, info: Word, x: Transfer, y: Transfer): (State, Outcome) {
    if !cap.readable then (s, Err(PermissionDenied))
    else if FastReply(s, owner, cap.port, info) then ReplyReceiveFast(s, owner, cap.port, info, x)
    else ReplyReceiveSlow(s, owner, cap.port, info, x, y)
  }

  /** Delivery of a fault to the resolver port. */
  function FaultCall(s: State, owner: Pid, cap: Resolver): (State, Outcome) {
    var q := cap.port;
    if !cap.writable || !cap.readable then
      (s.SetP(owner, s.P(owner).(status := BlockedFault)), Err(PermissionDenied))
    else match s.Q(q).state
      case Wait | ReadyToSend =>
        var s1 := s.SetP(owner, s.P(owner).(status := BlockedFault, srcWait := true, identifier := cap.identifier));
        (Block(s1, q, ReadyToSend, owner), Ok)
      case ReadyToReceive =>
        if s.Q(q).queue == [] then (s.SetP(owner, s.P(owner).(identifier := cap.identifier)), Err(FatalError))
        else
          var target := s.Q(q).queue[0];
          var s1 := PopIpc(s, q);
          FaultReceiver(s1.SetP(owner, s1.P(owner).(identifier := cap.identifier, status := BlockedFault)), owner, q, target)
  }

  /** The fault goes to a receiver that was waiting at the resolver port. */
  function FaultReceiver(s: State, owner: Pid, q: PortId, target: Pid): (State, Outcome) {
    if s.P(target).dstReady then
      var s1 := s.SetP(owner, s.P(owner).(srcWait := true));
      (Block(s1, q, s1.Q(q).state, owner), Ok)
    else
      var s1 := Link(s, owner, target);
      var (s2, ok) := TransferFaultMessage(s1, target, owner);
      if !ok then (s2, Err(FatalError))
      else
        var s3 := s2.SetP(target, s2.P(target).(status := Ready));
        (TryDirectScheduleAndSwitch(s3, s3.P(owner).affinity, target), Ok)
  }

  /** Entry on a fault of the process that core `c` runs. */
  function HandleFault(s: State, c: CoreId, fault: Fault): State {
    match s.C(c).current
    case None => s
    case Some(p) =>
      var s1 := s.SetP(p, s.P(p).(fault := fault));
      match s1.P(p).resolver
      case None => TryScheduleAndSwitch(s1.SetP(p, s1.P(p).(status := BlockedSuspend)), c)
      case Some(cap) =>
        var (s2, res) := FaultCall(s1, p, cap);
        if res.Ok? then s2
        else TryScheduleAndSwitch(s2.SetP(p, s2.P(p).(status := BlockedSuspend)), c)
  }

  /** Every queued process is released in order, then the port is idle. */
  function DrainPort(s: State, q: PortId): State
    decreases |s.Q(q).queue|
  {
    if s.Q(q).queue == [] then s
    else
      var p := s.Q(q).queue[0];
      var s1 := PopIpc(s, q);
      var s2 := s1.SetP(p, s1.P(p).(srcWait := false, srcTarget := None));
      DrainPort(CompleteRevokedWait(s2, p), q)
  }

  function RevokePort(s: State, q: PortId): State {
    var s1 := DrainPort(s, q);
    s1.SetQ(q, s1.Q(q).(state := Wait))
  }
}
