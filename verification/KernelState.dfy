/**
 The kernel objects that IPC, notification and scheduling change together: processes, IPC ports,
 notification ports and per-core scheduling state. Objects are identified by their 64-bit addresses,
 and every address denotes an object.
 */
module KernelState {
  import opened Common

  const ADDRESSES: nat := 0x1_0000_0000_0000_0000
  const CPU_COUNT_MAX: nat := 64
  type Pid = p: nat | p < ADDRESSES
  type PortId = p: nat | p < ADDRESSES
  type NtfId = p: nat | p < ADDRESSES
  type CoreId = c: nat | c < CPU_COUNT_MAX
  /** A machine word, as the set of its one bits. */
  type Word = set<nat>

  const PRIORITY_MAX: nat := 32
  const QUANTUM_MAX: int := 10
  const REGISTER_COUNT: nat := 260

  type Priority = p: nat | p < PRIORITY_MAX
  type Queues = q: seq<seq<Pid>> | |q| == PRIORITY_MAX witness seq(PRIORITY_MAX, i => [])
  type Registers = r: seq<Word> | |r| == REGISTER_COUNT witness seq(REGISTER_COUNT, i => {})

  datatype Status =
    | Unused | Ready
    | BlockedSend | BlockedReceive | BlockedReply | BlockedWait
    | BlockedSuspend | BlockedFault

  datatype Fault =
    | NoFault | Memory | MemoryInstructionFetch | InvalidInstruction | InvalidArithmetic
    | InvalidKernelCall | Fatal | Architecture

  /** The resolver port a process was configured with: its rights and slot-local identifier. */
  datatype Resolver = Resolver(port: PortId, readable: bool, writable: bool, identifier: Word)

  datatype Proc = Proc(
    status: Status,
    priority: Priority,
    quantum: int,
    affinity: CoreId,
    inReady: bool,
    fault: Fault,
    ipcPort: Option<PortId>,
    ntfPort: Option<NtfId>,
    identifier: Word,
    srcWait: bool,
    srcTarget: Option<Pid>,
    dstReady: bool,
    dstTarget: Option<Pid>,
    boundPort: Option<NtfId>,
    resolver: Option<Resolver>,
    hasBuffer: bool,
    regs: Registers)

  datatype PortState = Wait | ReadyToSend | ReadyToReceive

  datatype Port = Port(state: PortState, queue: seq<Pid>)

  /** What happened to the flag word of a notification port, oldest first. */
  datatype NtfEvent = Notified(bits: Word) | Consumed(bits: Word, taker: Pid) | Discarded(bits: Word)

  datatype Ntf = Ntf(
    hasFlag: bool,
    flag: Word,
    readyToWake: bool,
    queue: seq<Pid>,
    bound: Option<Pid>,
    history: seq<NtfEvent>)

  /** `current` is `None` while the core runs its idle process. */
  datatype Core = Core(
    current: Option<Pid>,
    idleQuantum: int,
    ready: Queues,
    highest: Priority,
    pending: Option<Pid>)

  function EmptyQueues(): Queues { seq(PRIORITY_MAX, i => []) }
  function ZeroRegisters(): Registers { seq(REGISTER_COUNT, i => {}) }
  function NewProc(): Proc {
    Proc(Unused, 0, 0, 0, false, NoFault, None, None, {}, false, None, false, None, None, None, false, ZeroRegisters())
  }
  function NewPort(): Port { Port(Wait, []) }
  function NewNtf(): Ntf { Ntf(false, {}, false, [], None, []) }
  function NewCore(): Core { Core(None, QUANTUM_MAX, EmptyQueues(), PRIORITY_MAX - 1, None) }

  type Procs = q: seq<Proc> | |q| == ADDRESSES ghost witness seq(ADDRESSES, i => NewProc())
  type Ports = q: seq<Port> | |q| == ADDRESSES ghost witness seq(ADDRESSES, i => NewPort())
  type Ntfs = q: seq<Ntf> | |q| == ADDRESSES ghost witness seq(ADDRESSES, i => NewNtf())
  type CoreCount = n: nat | n <= CPU_COUNT_MAX
  type Cores = q: seq<Core> | |q| == CPU_COUNT_MAX ghost witness seq(CPU_COUNT_MAX, i => NewCore())
  datatype State = State(procs: Procs, ports: Ports, ntfs: Ntfs, cores: Cores, coreCount: CoreCount)
  {
    function P(p: Pid): Proc { procs[p] }
    function Q(q: PortId): Port { ports[q] }
    function N(n: NtfId): Ntf { ntfs[n] }
    function C(c: CoreId): Core { cores[c] }
    function SetP(p: Pid, r: Proc): State { this.(procs := procs[p := r]) }
    function SetQ(q: PortId, r: Port): State { this.(ports := ports[q := r]) }
    function SetN(n: NtfId, r: Ntf): State { this.(ntfs := ntfs[n := r]) }
    function SetC(c: CoreId, r: Core): State { this.(cores := cores[c := r]) }
  }

  /** Freshly constructed objects on idle cores. */
  function Blank(cores: CoreCount): State {
    State(seq(ADDRESSES, i => NewProc()), seq(ADDRESSES, i => NewPort()), seq(ADDRESSES, i => NewNtf()),
          seq(CPU_COUNT_MAX, i => NewCore()), cores)
  }

  // ---------------------------------------------------------------- notification history

  /** The bits notified since the last consumption. */
  function Outstanding(h: seq<NtfEvent>): Word {
    if h == [] then {}
    else match h[|h| - 1]
      case Notified(b) => Outstanding(h[..|h| - 1]) + b
      case _ => {}
  }

  /** Every consumption took exactly the bits outstanding at that moment. */
  ghost predicate Faithful(h: seq<NtfEvent>) {
    forall i :: 0 <= i < |h| && !h[i].Notified? ==> h[i].bits == Outstanding(h[..i])
  }

  // ---------------------------------------------------------------- reply graph

  /** Who waits for whom: an edge from each caller to the server that owes it a reply. */
  ghost function Links(s: State): imap<Pid, Pid> {
    imap p: Pid | s.P(p).srcTarget.Some? :: s.P(p).srcTarget.value
  }

  /** The process reached from `p` after `n` edges, if the chain is that long. */
  ghost function Follow(g: imap<Pid, Pid>, p: Pid, n: nat): Option<Pid>
    decreases n
  {
    if n == 0 then Some(p)
    else if p in g then Follow(g, g[p], n - 1)
    else None
  }

  ghost predicate Ends(g: imap<Pid, Pid>, p: Pid) {
    exists n: nat :: Follow(g, p, n).None?
  }

  ghost predicate Acyclic(g: imap<Pid, Pid>) {
    forall p: Pid :: Ends(g, p)
  }

  // ---------------------------------------------------------------- the invariant

  // During a kernel entry some processes are in no queue and run on no core, and the core that
  // entered the kernel is about to switch away. `floating` holds those processes and `away` that
  // core, whose `current` field does not count. Between entries both are empty.

  ghost function Cur(s: State, away: Option<CoreId>, c: CoreId): Option<Pid> {
    if away == Some(c) then None else s.C(c).current
  }

  /** Where a process is, what it waits for and what it owes. */
  datatype Place = Place(
    ready: bool,
    core: bool,
    port: Option<PortState>,
    ntf: bool,
    srcWait: bool,
    awaits: bool,
    owes: bool,
    faulted: bool,
    missed: bool)

  ghost function PlaceOf(s: State, away: Option<CoreId>, p: Pid): Place {
    Place(
      s.P(p).inReady,
      Cur(s, away, s.P(p).affinity) == Some(p),
      if s.P(p).ipcPort.Some? then Some(s.Q(s.P(p).ipcPort.value).state) else None,
      s.P(p).ntfPort.Some?,
      s.P(p).srcWait,
      s.P(p).srcTarget.Some?,
      s.P(p).dstTarget.Some?,
      s.P(p).fault != NoFault,
      s.P(p).boundPort.Some? && s.N(s.P(p).boundPort.value).flag != {})
  }

  /** In no queue and on no core. */
  ghost predicate Nowhere(w: Place) {
    !w.ready && !w.core && w.port.None? && !w.ntf
  }

  /** A status says exactly where a process is, what it waits for and what it owes. */
  ghost predicate Fits(status: Status, w: Place) {
    match status
    case Unused => Nowhere(w) && !w.srcWait && !w.faulted
    case Ready => (w.ready <==> !w.core) && w.port.None? && !w.ntf && !w.srcWait && !w.faulted
    case BlockedSend =>
      !w.ready && !w.core && w.port == Some(ReadyToSend) && !w.ntf && !w.awaits && !w.faulted
    case BlockedReceive =>
      !w.ready && !w.core && w.port == Some(ReadyToReceive) && !w.ntf
      && !w.srcWait && !w.owes && !w.faulted && !w.missed
    case BlockedReply => Nowhere(w) && w.awaits
    case BlockedWait => !w.ready && !w.core && w.port.None? && w.ntf && !w.srcWait && !w.faulted
    case BlockedSuspend => Nowhere(w) && !w.srcWait
    case BlockedFault =>
      !w.ready && !w.core && !w.ntf && w.srcWait && w.faulted
      && w.port == if w.awaits then None else Some(ReadyToSend)
  }

  /** One ready queue holds the ready processes of one core and priority, each once. */
  ghost predicate QueueOk(s: State, c: CoreId, k: Priority) {
    && Distinct(s.C(c).ready[k])
    && (forall p {:trigger p in s.C(c).ready[k]} :: p in s.C(c).ready[k] ==>
          s.P(p).inReady && s.P(p).affinity == c && s.P(p).priority == k)
    && (k > s.C(c).highest ==> s.C(c).ready[k] == [])
  }

  ghost predicate ReadyMember(s: State, p: Pid) {
    s.P(p).inReady ==> p in s.C(s.P(p).affinity).ready[s.P(p).priority]
  }

  ghost predicate ReadySeats(s: State) {
    && (forall c: CoreId, k: Priority :: QueueOk(s, c, k))
    && (forall p: Pid :: ReadyMember(s, p))
  }

  ghost predicate PortOk(s: State, q: PortId) {
    && Distinct(s.Q(q).queue)
    && (forall p {:trigger p in s.Q(q).queue} :: p in s.Q(q).queue ==> s.P(p).ipcPort == Some(q))
    && (s.Q(q).state == Wait <==> s.Q(q).queue == [])
  }

  ghost predicate IpcMember(s: State, p: Pid) {
    s.P(p).ipcPort.Some? ==> p in s.Q(s.P(p).ipcPort.value).queue
  }

  ghost predicate IpcSeats(s: State) {
    && (forall q: PortId :: PortOk(s, q))
    && (forall p: Pid :: IpcMember(s, p))
  }

  ghost predicate NtfOk(s: State, n: NtfId) {
    && Distinct(s.N(n).queue)
    && (forall p {:trigger p in s.N(n).queue} :: p in s.N(n).queue ==> s.P(p).ntfPort == Some(n))
    && (s.N(n).readyToWake <==> s.N(n).queue != [])
  }

  ghost predicate NtfMember(s: State, p: Pid) {
    s.P(p).ntfPort.Some? ==> p in s.N(s.P(p).ntfPort.value).queue
  }

  ghost predicate NtfSeats(s: State) {
    && (forall n: NtfId :: NtfOk(s, n))
    && (forall p: Pid :: NtfMember(s, p))
  }

  /** Nobody waits while bits are pending, and the flag word is what its history says. */
  ghost predicate FlagOk(s: State, n: NtfId) {
    && (s.N(n).queue != [] ==> s.N(n).flag == {})
    && (s.N(n).flag != {} ==> s.N(n).hasFlag)
    && s.N(n).flag == Outstanding(s.N(n).history)
    && Faithful(s.N(n).history)
  }

  ghost predicate Flags(s: State) {
    forall n: NtfId :: FlagOk(s, n)
  }

  ghost predicate BoundOk(s: State, n: NtfId) {
    s.N(n).bound.Some? ==> s.P(s.N(n).bound.value).boundPort == Some(n)
  }

  ghost predicate BindMember(s: State, p: Pid) {
    s.P(p).boundPort.Some? ==> s.N(s.P(p).boundPort.value).bound == Some(p)
  }

  /** Bindings are mutual inverses. */
  ghost predicate Bindings(s: State) {
    && (forall n: NtfId :: BoundOk(s, n))
    && (forall p: Pid :: BindMember(s, p))
  }

  /** Reply links are mutual inverses. */
  ghost predicate ReplyOk(s: State, p: Pid) {
    && (s.P(p).srcTarget.Some? ==> s.P(p).srcWait && s.P(s.P(p).srcTarget.value).dstTarget == Some(p))
    && (s.P(p).dstTarget.Some? ==> s.P(s.P(p).dstTarget.value).srcTarget == Some(p))
    && (s.P(p).dstReady <==> s.P(p).dstTarget.Some?)
  }

  ghost predicate Replies(s: State) {
    && (forall p: Pid :: ReplyOk(s, p))
    && Acyclic(Links(s))
  }

  ghost predicate CoreOk(s: State, away: Option<CoreId>, c: CoreId) {
    && (Cur(s, away, c).Some? ==> s.P(Cur(s, away, c).value).affinity == c)
    && (s.C(c).pending.Some? ==> s.P(s.C(c).pending.value).affinity == c)
  }

  ghost predicate PlaceOk(s: State, floating: set<Pid>, away: Option<CoreId>, p: Pid) {
    if p in floating then Nowhere(PlaceOf(s, away, p)) else Fits(s.P(p).status, PlaceOf(s, away, p))
  }

  ghost predicate Places(s: State, floating: set<Pid>, away: Option<CoreId>) {
    && (forall c: CoreId :: CoreOk(s, away, c))
    && (forall p: Pid :: PlaceOk(s, floating, away, p))
  }

  /** Queues and bindings hold exactly the processes whose fields say so. */
  ghost predicate Seats(s: State) {
    ReadySeats(s) && IpcSeats(s) && NtfSeats(s) && Bindings(s)
  }

  ghost predicate Inv(s: State, floating: set<Pid>, away: Option<CoreId>) {
    Seats(s) && Flags(s) && Replies(s) && Places(s, floating, away)
  }

  /** The invariant of every state between two kernel entries. */
  ghost predicate Good(s: State) {
    Inv(s, {}, None)
  }
}
