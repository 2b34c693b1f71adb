/**
 Stopping a process that runs on another core. Cores interleave step by step: they enter the kernel,
 contend for the giant lock, and a core that spins for it serves the stop request addressed to it.
 */
module StopProtocol {
  import opened Common
  import KS = KernelState

  type Pid = KS.Pid
  type CoreId = KS.CoreId

  datatype Cause = Syscall | Interrupt

  datatype Completion = Idle | Pending | Stopped | Failed

  /** What one core asks of another. */
  datatype Request = Request(target: Pid, state: Completion)

  /** The point a core has reached; `ran` says that the call it entered for has been executed. */
  datatype Phase =
    | User
    | FirstTry(cause: Cause)
    | Spinning(cause: Cause)
    | Serving(cause: Cause, target: Pid)
    | Restarting(cause: Cause, target: Pid)
    | Clearing(cause: Cause, target: Pid, outcome: Completion)
    | Publishing(cause: Cause, target: Pid, outcome: Completion)
    | Retrying(cause: Cause)
    | Inside(cause: Cause, ran: bool, stopped: Option<Pid>)
    | Comparing(cause: Cause, ran: bool, target: Pid)
    | Sending(cause: Cause, ran: bool, target: Pid)
    | Naming(cause: Cause, ran: bool, target: Pid)
    | Requesting(cause: Cause, ran: bool, target: Pid)
    | Awaiting(cause: Cause, ran: bool, target: Pid)
    | Resetting(cause: Cause, ran: bool, target: Pid, outcome: Completion)

  /** `current` is `None` while the core runs its idle process; `request` is addressed to this core. */
  datatype Core = Core(phase: Phase, current: Option<Pid>, pending: Option<Pid>, request: Request)

  /** `pc` counts the call instructions passed, in bytes; `executed` the calls that took effect. */
  datatype Process = Process(affinity: CoreId, ready: bool, pc: int, executed: int)

  const CALL_SIZE: int := 4

  function NewCore(): Core { Core(User, None, None, Request(0, Idle)) }

  type Processes = q: seq<Process> | |q| == KS.ADDRESSES ghost witness seq(KS.ADDRESSES, i => Process(0, false, 0, 0))
  type Cores = q: seq<Core> | |q| == KS.CPU_COUNT_MAX ghost witness seq(KS.CPU_COUNT_MAX, i => NewCore())

  datatype Machine = Machine(holder: Option<CoreId>, cores: Cores, procs: Processes)
  {
    function C(c: CoreId): Core { cores[c] }
    function P(p: Pid): Process { procs[p] }
    function SetC(c: CoreId, r: Core): Machine { this.(cores := cores[c := r]) }
    function SetP(p: Pid, r: Process): Machine { this.(procs := procs[p := r]) }
    function At(c: CoreId, w: Phase): Machine { SetC(c, C(c).(phase := w)) }
  }

  datatype Action =
    | EnterCall | EnterInterrupt
    | TryLock | Check | Serve(switched: bool) | Restart | Clear | Publish
    | Execute | Dispatch(next: Option<Pid>, requeue: bool) | Wake(p: Pid) | Nudge(p: Pid)
    | Stop(p: Pid) | Compare | Send(sent: bool) | Name | Ask | Poll | Reset
    | Leave

  /** Only a call of the idle process, or an interrupt, has nothing to execute. */
  predicate Served(w: Phase) {
    w.Inside? && (w.ran || w.cause == Interrupt)
  }

  // ---------------------------------------------------------------- steps

  function Acquire(m: Machine, c: CoreId, cause: Cause): Machine {
    if m.holder.None? then m.At(c, Inside(cause, false, None)).(holder := Some(c))
    else m.At(c, Spinning(cause))
  }

  /** A spinning core switches away from the process it is asked to stop. */
  function ServeStep(m: Machine, c: CoreId, switched: bool): Machine {
    var w := m.C(c).phase;
    if !w.Serving? then m
    else if m.C(c).current != Some(w.target) then m.At(c, Clearing(w.cause, w.target, Stopped))
    else if !switched then m.At(c, Clearing(w.cause, w.target, Failed))
    else
      var away := m.SetC(c, m.C(c).(current := None));
      away.At(c, if w.cause == Syscall then Restarting(w.cause, w.target) else Clearing(w.cause, w.target, Stopped))
  }

  function RestartStep(m: Machine, c: CoreId): Machine {
    var w := m.C(c).phase;
    if !w.Restarting? then m
    else m.SetP(w.target, m.P(w.target).(pc := m.P(w.target).pc - CALL_SIZE)).At(c, Clearing(w.cause, w.target, Stopped))
  }

  function ClearStep(m: Machine, c: CoreId): Machine {
    var w := m.C(c).phase;
    if !w.Clearing? then m
    else
      var clear := if m.C(c).pending == Some(w.target) then m.SetC(c, m.C(c).(pending := None)) else m;
      clear.At(c, Publishing(w.cause, w.target, w.outcome))
  }

  function PublishStep(m: Machine, c: CoreId): Machine {
    var w := m.C(c).phase;
    if !w.Publishing? then m
    else m.SetC(c, m.C(c).(request := m.C(c).request.(state := w.outcome))).At(c, Retrying(w.cause))
  }

  /** The kernel leaves `p`, if any, and dispatches a ready process of this core or idles. */
  function DispatchStep(m: Machine, c: CoreId, next: Option<Pid>, requeue: bool): Machine {
    if !Served(m.C(c).phase) || (next.Some? && !(m.P(next.value).ready && m.P(next.value).affinity == c)) then m
    else
      var left := if requeue && m.C(c).current.Some?
                  then m.SetP(m.C(c).current.value, m.P(m.C(c).current.value).(ready := true)) else m;
      var taken := if next.Some? then left.SetP(next.value, left.P(next.value).(ready := false)) else left;
      taken.SetC(c, taken.C(c).(current := next)).At(c, m.C(c).phase.(stopped := None))
  }

  /** The target leaves scheduling before its context is retired. */
  function StopStep(m: Machine, c: CoreId, p: Pid): Machine {
    var w := m.C(c).phase;
    if !Served(w) then m
    else
      var d := m.P(p).affinity;
      var off := m.SetP(p, m.P(p).(ready := false));
      var clear := if off.C(d).pending == Some(p) then off.SetC(d, off.C(d).(pending := None)) else off;
      clear.At(c, Comparing(w.cause, w.ran, p))
  }

  function CompareStep(m: Machine, c: CoreId): Machine {
    var w := m.C(c).phase;
    if !w.Comparing? then m
    else
      var d := m.P(w.target).affinity;
      if m.C(d).current != Some(w.target) then m.At(c, Inside(w.cause, w.ran, Some(w.target)))
      else if d == c then m.SetC(c, m.C(c).(current := None)).At(c, Inside(w.cause, w.ran, Some(w.target)))
      else m.At(c, Sending(w.cause, w.ran, w.target))
  }

  function AskStep(m: Machine, c: CoreId): Machine {
    var w := m.C(c).phase;
    match w
    case Naming(cause, ran, p) =>
      var d := m.P(p).affinity;
      m.SetC(d, m.C(d).(request := m.C(d).request.(target := p))).At(c, Requesting(cause, ran, p))
    case Requesting(cause, ran, p) =>
      var d := m.P(p).affinity;
      m.SetC(d, m.C(d).(request := m.C(d).request.(state := Pending))).At(c, Awaiting(cause, ran, p))
    case _ => m
  }

  function PollStep(m: Machine, c: CoreId): Machine {
    var w := m.C(c).phase;
    match w
    case Awaiting(cause, ran, p) =>
      var state := m.C(m.P(p).affinity).request.state;
      if state == Pending then m else m.At(c, Resetting(cause, ran, p, state))
    case Resetting(cause, ran, p, outcome) =>
      var d := m.P(p).affinity;
      m.SetC(d, m.C(d).(request := m.C(d).request.(state := Idle)))
       .At(c, Inside(cause, ran, if outcome == Stopped then Some(p) else None))
    case _ => m
  }

  /** One step of core `c`; an action that does not fit its phase does nothing. */
  function Step(m: Machine, c: CoreId, a: Action): Machine {
    var w := m.C(c).phase;
    match a
    case EnterCall =>
      if w.User? && m.C(c).current.Some? then
        var p := m.C(c).current.value;
        m.SetP(p, m.P(p).(pc := m.P(p).pc + CALL_SIZE)).At(c, FirstTry(Syscall))
      else m
    case EnterInterrupt => if w.User? then m.At(c, FirstTry(Interrupt)) else m
    case TryLock => if w.FirstTry? || w.Retrying? then Acquire(m, c, w.cause) else m
    case Check =>
      if !w.Spinning? then m
      else if m.C(c).request.state == Pending then m.At(c, Serving(w.cause, m.C(c).request.target))
      else m.At(c, Retrying(w.cause))
    case Serve(switched) => ServeStep(m, c, switched)
    case Restart => RestartStep(m, c)
    case Clear => ClearStep(m, c)
    case Publish => PublishStep(m, c)
    case Execute =>
      if w.Inside? && w.cause == Syscall && !w.ran then
        var ran := m.At(c, Inside(Syscall, true, None));
        if m.C(c).current.None? then ran
        else var p := m.C(c).current.value; ran.SetP(p, ran.P(p).(executed := ran.P(p).executed + 1))
      else m
    case Dispatch(next, requeue) => DispatchStep(m, c, next, requeue)
    case Wake(p) =>
      if Served(w) && m.C(m.P(p).affinity).current != Some(p)
      then m.SetP(p, m.P(p).(ready := true)).At(c, w.(stopped := None)) else m
    case Nudge(p) =>
      if Served(w) then
        var d := m.P(p).affinity;
        m.SetC(d, m.C(d).(pending := Some(p))).At(c, Inside(w.cause, w.ran, None))
      else m
    case Stop(p) => StopStep(m, c, p)
    case Compare => CompareStep(m, c)
    case Send(sent) =>
      if !w.Sending? then m
      else if sent then m.At(c, Naming(w.cause, w.ran, w.target))
      else m.At(c, Inside(w.cause, w.ran, None))
    case Name => if w.Naming? then AskStep(m, c) else m
    case Ask => if w.Requesting? then AskStep(m, c) else m
    case Poll => if w.Awaiting? then PollStep(m, c) else m
    case Reset => if w.Resetting? then PollStep(m, c) else m
    case Leave => if Served(w) then m.At(c, User).(holder := None) else m
  }

  // ---------------------------------------------------------------- invariant

  /** The phases of a core that holds the giant lock. */
  predicate Holding(w: Phase) {
    w.Inside? || w.Comparing? || w.Sending? || w.Naming? || w.Requesting? || w.Awaiting? || w.Resetting?
  }

  /** The phases of a core that acts on a stop request. */
  predicate Acting(w: Phase) {
    w.Serving? || w.Restarting? || w.Clearing? || w.Publishing?
  }

  predicate Stopping(w: Phase) {
    w.Comparing? || w.Sending? || w.Naming? || w.Requesting? || w.Awaiting? || w.Resetting?
  }

  /** Off its core, in no ready queue and announced nowhere. */
  ghost predicate Off(m: Machine, p: Pid) {
    m.C(m.P(p).affinity).current != Some(p) && !m.P(p).ready && m.C(m.P(p).affinity).pending != Some(p)
  }

  /** Core `c` waits for core `d` to stop `p`. */
  ghost predicate Waits(m: Machine, d: CoreId, p: Pid) {
    && m.holder.Some? && m.holder.value != d
    && m.C(m.holder.value).phase.Awaiting? && m.C(m.holder.value).phase.target == p && m.P(p).affinity == d
  }

  ghost predicate HolderOk(m: Machine, c: CoreId) {
    Holding(m.C(c).phase) <==> m.holder == Some(c)
  }

  /** A request is open only while the holder of the lock waits for it. */
  ghost predicate RequestOk(m: Machine, d: CoreId) {
    var r := m.C(d).request;
    && (r.state == Pending ==> Waits(m, d, r.target))
    && (r.state == Stopped || r.state == Failed ==>
          && m.holder.Some? && m.holder.value != d
          && var w := m.C(m.holder.value).phase;
             && (w.Awaiting? || w.Resetting?) && w.target == r.target && m.P(r.target).affinity == d
             && (w.Resetting? ==> w.outcome == r.state))
    && (r.state == Stopped ==> Off(m, r.target))
  }

  /** What a core serving a request knows. */
  ghost predicate ActorOk(m: Machine, c: CoreId) {
    var w := m.C(c).phase;
    && (Acting(w) ==> m.C(c).request == Request(w.target, Pending))
    && (w.Restarting? ==> w.cause == Syscall)
    && (w.Restarting? ==> m.C(c).current.None?)
    && ((w.Clearing? || w.Publishing?) && w.outcome == Stopped ==> m.C(c).current != Some(w.target))
    && (w.Publishing? ==> m.C(c).pending != Some(w.target))
    && (w.Clearing? || w.Publishing? ==> w.outcome == Stopped || w.outcome == Failed)
  }

  /** What a core stopping a process knows. */
  ghost predicate StopperOk(m: Machine, c: CoreId) {
    var w := m.C(c).phase;
    && (Stopping(w) ==> !m.P(w.target).ready && m.C(m.P(w.target).affinity).pending != Some(w.target) && (w.ran || w.cause == Interrupt))
    && (w.Sending? || w.Naming? || w.Requesting? || w.Awaiting? || w.Resetting? ==> m.P(w.target).affinity != c)
    && (w.Sending? || w.Naming? || w.Requesting? ==> m.C(m.P(w.target).affinity).request.state == Idle)
    && (w.Requesting? ==> m.C(m.P(w.target).affinity).request.target == w.target)
    && (w.Awaiting? ==> m.C(m.P(w.target).affinity).request.state != Idle && m.C(m.P(w.target).affinity).request.target == w.target)
    && (w.Resetting? ==> m.C(m.P(w.target).affinity).request == Request(w.target, w.outcome) && w.outcome != Idle && w.outcome != Pending)
    && (w.Inside? && w.stopped.Some? ==> Off(m, w.stopped.value))
  }

  /** A process runs only on its own core, and not while it is ready. */
  ghost predicate CurrentOk(m: Machine, c: CoreId) {
    m.C(c).current.Some? ==> m.P(m.C(c).current.value).affinity == c && !m.P(m.C(c).current.value).ready
  }

  /** A call of the current process has been entered but not executed. */
  ghost predicate Open(m: Machine, p: Pid) {
    var core := m.C(m.P(p).affinity);
    var w := core.phase;
    || (core.current == Some(p) && !w.User? && w.cause == Syscall && (Holding(w) ==> !w.ran))
    || (w.Restarting? && w.target == p)
  }

  /** The program counter has passed exactly the executed calls and an open one. */
  ghost predicate CounterOk(m: Machine, p: Pid) {
    m.P(p).pc == CALL_SIZE * m.P(p).executed + if Open(m, p) then CALL_SIZE else 0
  }

  ghost predicate CoreOk(m: Machine, c: CoreId) {
    HolderOk(m, c) && RequestOk(m, c) && ActorOk(m, c) && StopperOk(m, c) && CurrentOk(m, c)
  }

  ghost predicate Good(m: Machine) {
    && (forall c: CoreId :: CoreOk(m, c))
    && (forall p: Pid :: CounterOk(m, p))
  }

  // ---------------------------------------------------------------- every step keeps it

  lemma EnterCallKeeps(m: Machine, c: CoreId)
    requires Good(m)
    ensures Good(Step(m, c, EnterCall))
  {
    var t := Step(m, c, EnterCall);
    assert CoreOk(m, c);
    forall d: CoreId ensures CoreOk(t, d) { assert CoreOk(m, d); }
    forall p: Pid ensures CounterOk(t, p) { assert CounterOk(m, p); }
  }

  lemma EnterInterruptKeeps(m: Machine, c: CoreId)
    requires Good(m)
    ensures Good(Step(m, c, EnterInterrupt))
  {
    var t := Step(m, c, EnterInterrupt);
    assert CoreOk(m, c);
    forall d: CoreId ensures CoreOk(t, d) { assert CoreOk(m, d); }
    forall p: Pid ensures CounterOk(t, p) { assert CounterOk(m, p); }
  }

  lemma TryLockKeeps(m: Machine, c: CoreId)
    requires Good(m)
    ensures Good(Step(m, c, TryLock))
  {
    var t := Step(m, c, TryLock);
    assert CoreOk(m, c);
    forall d: CoreId ensures CoreOk(t, d) { assert CoreOk(m, d); }
    forall p: Pid ensures CounterOk(t, p) { assert CounterOk(m, p); }
  }

  lemma CheckKeeps(m: Machine, c: CoreId)
    requires Good(m)
    ensures Good(Step(m, c, Check))
  {
    var t := Step(m, c, Check);
    assert CoreOk(m, c);
    forall d: CoreId ensures CoreOk(t, d) { assert CoreOk(m, d); }
    forall p: Pid ensures CounterOk(t, p) { assert CounterOk(m, p); }
  }

  lemma LeaveKeeps(m: Machine, c: CoreId)
    requires Good(m)
    ensures Good(Step(m, c, Leave))
  {
    var t := Step(m, c, Leave);
    assert CoreOk(m, c);
    forall d: CoreId ensures CoreOk(t, d) { assert CoreOk(m, d); }
    forall p: Pid ensures CounterOk(t, p) { assert CounterOk(m, p); }
  }

  lemma ServeKeeps(m: Machine, c: CoreId, switched: bool)
    requires Good(m)
    ensures Good(ServeStep(m, c, switched))
  {
    var t := ServeStep(m, c, switched);
    assert CoreOk(m, c);
    forall d: CoreId ensures CoreOk(t, d) { assert CoreOk(m, d); }
    forall p: Pid ensures CounterOk(t, p) { assert CounterOk(m, p); }
  }

  lemma RestartKeeps(m: Machine, c: CoreId)
    requires Good(m)
    ensures Good(RestartStep(m, c))
  {
    var t := RestartStep(m, c);
    assert CoreOk(m, c);
    forall d: CoreId ensures CoreOk(t, d) { assert CoreOk(m, d); }
    forall p: Pid ensures CounterOk(t, p) { assert CounterOk(m, p); }
  }

  lemma ClearKeeps(m: Machine, c: CoreId)
    requires Good(m)
    ensures Good(ClearStep(m, c))
  {
    var t := ClearStep(m, c);
    assert CoreOk(m, c);
    forall d: CoreId ensures CoreOk(t, d) { assert CoreOk(m, d); }
    forall p: Pid ensures CounterOk(t, p) { assert CounterOk(m, p); }
  }

  lemma PublishKeeps(m: Machine, c: CoreId)
    requires Good(m)
    ensures Good(PublishStep(m, c))
  {
    var t := PublishStep(m, c);
    assert CoreOk(m, c);
    if m.C(c).phase.Publishing? { assert CoreOk(m, m.holder.value); }
    forall d: CoreId ensures CoreOk(t, d) { assert CoreOk(m, d); }
    forall p: Pid ensures CounterOk(t, p) { assert CounterOk(m, p); }
  }

  lemma ExecuteKeeps(m: Machine, c: CoreId)
    requires Good(m)
    ensures Good(Step(m, c, Execute))
  {
    var t := Step(m, c, Execute);
    assert CoreOk(m, c);
    forall d: CoreId ensures CoreOk(t, d) { assert CoreOk(m, d); }
    forall p: Pid ensures CounterOk(t, p) { assert CounterOk(m, p); }
  }

  lemma DispatchKeeps(m: Machine, c: CoreId, next: Option<Pid>, requeue: bool)
    requires Good(m)
    ensures Good(DispatchStep(m, c, next, requeue))
  {
    var t := DispatchStep(m, c, next, requeue);
    assert CoreOk(m, c);
    forall d: CoreId ensures CoreOk(t, d) { assert CoreOk(m, d); }
    forall p: Pid ensures CounterOk(t, p) { assert CounterOk(m, p); }
  }

  lemma WakeKeeps(m: Machine, c: CoreId, a: Action)
    requires Good(m) && (a.Wake? || a.Nudge?)
    ensures Good(Step(m, c, a))
  {
    var t := Step(m, c, a);
    assert CoreOk(m, c);
    forall d: CoreId ensures CoreOk(t, d) { assert CoreOk(m, d); }
    forall p: Pid ensures CounterOk(t, p) { assert CounterOk(m, p); }
  }

  lemma StopKeeps(m: Machine, c: CoreId, p: Pid)
    requires Good(m)
    ensures Good(StopStep(m, c, p))
  {
    var t := StopStep(m, c, p);
    assert CoreOk(m, c);
    forall d: CoreId ensures CoreOk(t, d) { assert CoreOk(m, d); }
    forall o: Pid ensures CounterOk(t, o) { assert CounterOk(m, o); }
  }

  lemma CompareKeeps(m: Machine, c: CoreId)
    requires Good(m)
    ensures Good(CompareStep(m, c))
  {
    var t := CompareStep(m, c);
    assert CoreOk(m, c);
    if m.C(c).phase.Comparing? { assert CoreOk(m, m.P(m.C(c).phase.target).affinity); }
    forall d: CoreId ensures CoreOk(t, d) { assert CoreOk(m, d); }
    forall p: Pid ensures CounterOk(t, p) { assert CounterOk(m, p); }
  }

  lemma SendKeeps(m: Machine, c: CoreId, sent: bool)
    requires Good(m)
    ensures Good(Step(m, c, Send(sent)))
  {
    var t := Step(m, c, Send(sent));
    assert CoreOk(m, c);
    forall d: CoreId ensures CoreOk(t, d) { assert CoreOk(m, d); }
    forall p: Pid ensures CounterOk(t, p) { assert CounterOk(m, p); }
  }

  lemma AskKeeps(m: Machine, c: CoreId)
    requires Good(m)
    ensures Good(AskStep(m, c))
  {
    var t := AskStep(m, c);
    assert CoreOk(m, c);
    forall d: CoreId ensures CoreOk(t, d) { assert CoreOk(m, d); }
    forall p: Pid ensures CounterOk(t, p) { assert CounterOk(m, p); }
  }

  lemma PollKeeps(m: Machine, c: CoreId)
    requires Good(m)
    ensures Good(PollStep(m, c))
  {
    var t := PollStep(m, c);
    assert CoreOk(m, c);
    if Stopping(m.C(c).phase) { assert CoreOk(m, m.P(m.C(c).phase.target).affinity); }
    forall d: CoreId ensures CoreOk(t, d) { assert CoreOk(m, d); }
    forall p: Pid ensures CounterOk(t, p) { assert CounterOk(m, p); }
  }

  lemma StepKeeps(m: Machine, c: CoreId, a: Action)
    requires Good(m)
    ensures Good(Step(m, c, a))
  {
    match a
    case EnterCall => EnterCallKeeps(m, c);
    case EnterInterrupt => EnterInterruptKeeps(m, c);
    case TryLock => TryLockKeeps(m, c);
    case Check => CheckKeeps(m, c);
    case Serve(switched) => ServeKeeps(m, c, switched);
    case Restart => RestartKeeps(m, c);
    case Clear => ClearKeeps(m, c);
    case Publish => PublishKeeps(m, c);
    case Execute => ExecuteKeeps(m, c);
    case Dispatch(next, requeue) => DispatchKeeps(m, c, next, requeue);
    case Wake(p) => WakeKeeps(m, c, a);
    case Nudge(p) => WakeKeeps(m, c, a);
    case Stop(p) => StopKeeps(m, c, p);
    case Compare => CompareKeeps(m, c);
    case Send(sent) => SendKeeps(m, c, sent);
    case Name => AskKeeps(m, c);
    case Ask => AskKeeps(m, c);
    case Poll => PollKeeps(m, c);
    case Reset => PollKeeps(m, c);
    case Leave => LeaveKeeps(m, c);
  }

  // ---------------------------------------------------------------- every interleaving

  datatype Move = Move(core: CoreId, action: Action)

  /** Nobody is in the kernel, and every current process belongs to its core. */
  ghost predicate Boot(m: Machine) {
    && m.holder.None?
    && (forall c: CoreId :: m.C(c).phase == User && m.C(c).request.state == Idle && CurrentOk(m, c))
    && (forall p: Pid :: m.P(p).pc == 0 && m.P(p).executed == 0)
  }

  function Run(m: Machine, run: seq<Move>): Machine {
    if run == [] then m else Step(Run(m, run[..|run| - 1]), run[|run| - 1].core, run[|run| - 1].action)
  }

  lemma BootGood(m: Machine)
    requires Boot(m)
    ensures Good(m)
  {
    forall c: CoreId ensures CoreOk(m, c) { assert CurrentOk(m, c); }
    forall p: Pid ensures CounterOk(m, p) { assert m.P(p).pc == 0; }
  }

  lemma {:induction false} EveryInterleavingIsGood(m: Machine, run: seq<Move>)
    requires Boot(m)
    ensures Good(Run(m, run))
    decreases |run|
  {
    if run == [] {
      BootGood(m);
    } else {
      EveryInterleavingIsGood(m, run[..|run| - 1]);
      StepKeeps(Run(m, run[..|run| - 1]), run[|run| - 1].core, run[|run| - 1].action);
    }
  }

  // ---------------------------------------------------------------- what that means

  /** The data the giant lock protects is the same. */
  ghost predicate SameData(m: Machine, t: Machine) {
    && (forall c: CoreId :: t.C(c).current == m.C(c).current && t.C(c).pending == m.C(c).pending)
    && (forall p: Pid :: t.P(p).ready == m.P(p).ready && t.P(p).executed == m.P(p).executed)
  }

  /** The lock is held and not waiting, or its holder waits for exactly this core. */
  ghost predicate MayWrite(m: Machine, c: CoreId) {
    if m.holder == Some(c) then !m.C(c).phase.Awaiting?
    else Acting(m.C(c).phase) && m.C(c).request.state == Pending && Waits(m, c, m.C(c).phase.target)
  }

  /** The saved contexts are the same. */
  ghost predicate SameContexts(m: Machine, t: Machine) {
    forall p: Pid :: t.P(p).pc == m.P(p).pc
  }

  /**
   Protected data and saved contexts change only in the hands of a core that may write, and only one
   core may; a process that enters the kernel by a call advances its own program counter only.
   */
  lemma OneWriter(m: Machine, c: CoreId, a: Action)
    requires Good(m)
    ensures SameData(m, Step(m, c, a)) || MayWrite(m, c)
    ensures a != EnterCall ==> SameContexts(m, Step(m, c, a)) || MayWrite(m, c)
    ensures a == EnterCall ==> forall p: Pid :: m.C(c).current != Some(p) ==> Step(m, c, a).P(p) == m.P(p)
    ensures forall e: CoreId :: MayWrite(m, c) && MayWrite(m, e) ==> c == e
  {
    assert CoreOk(m, c);
    forall e: CoreId | MayWrite(m, c) && MayWrite(m, e) ensures c == e {
      assert CoreOk(m, e);
    }
  }

  /** No core enters the kernel proper with a request to itself still open. */
  lemma NoEntryWithOpenRequest(m: Machine, c: CoreId, a: Action)
    requires Good(m) && m.holder != Some(c) && Step(m, c, a).holder == Some(c)
    ensures m.C(c).request.state == Idle && Step(m, c, a).C(c).request.state == Idle
  {
    assert CoreOk(m, c);
  }

  /** A stop that reported success left the process off its core, out of scheduling and between calls. */
  lemma StoppedCleanly(m: Machine, c: CoreId)
    requires Good(m) && m.C(c).phase.Inside? && m.C(c).phase.stopped.Some?
    ensures var p := m.C(c).phase.stopped.value;
      && Off(m, p) && (forall d: CoreId :: m.C(d).current != Some(p))
      && m.P(p).pc == CALL_SIZE * m.P(p).executed
  {
    var p := m.C(c).phase.stopped.value;
    assert CoreOk(m, c) && CounterOk(m, p);
    assert CoreOk(m, m.P(p).affinity);
    forall d: CoreId ensures m.C(d).current != Some(p) { assert CoreOk(m, d); }
  }

  /** A call whose process was stopped while its core waited for the lock takes no effect. */
  lemma AbandonedCallIsNotExecuted(m: Machine, c: CoreId, p: Pid, switched: bool)
    requires Good(m) && m.C(c).phase == Serving(Syscall, p) && m.C(c).current == Some(p) && switched
    ensures var t := Step(Step(m, c, Serve(switched)), c, Restart);
      && t.P(p).pc == m.P(p).pc - CALL_SIZE == CALL_SIZE * m.P(p).executed
      && t.C(c).current.None? && t.P(p).executed == m.P(p).executed
  {
    assert CoreOk(m, c) && CounterOk(m, p);
  }

  // ---------------------------------------------------------------- the request is answered

  /** What a core does next on its way to the request, once it has been interrupted. */
  function Reaction(w: Phase): Action {
    match w
    case User => EnterInterrupt
    case FirstTry(_) | Retrying(_) => TryLock
    case Spinning(_) => Check
    case Serving(_, _) => Serve(true)
    case Restarting(_, _) => Restart
    case Clearing(_, _, _) => Clear
    case Publishing(_, _, _) => Publish
    case _ => Leave
  }

  function Distance(w: Phase): nat {
    match w
    case User => 7
    case FirstTry(_) | Retrying(_) => 6
    case Spinning(_) => 5
    case Serving(_, _) => 4
    case Restarting(_, _) => 3
    case Clearing(_, _, _) => 2
    case Publishing(_, _, _) => 1
    case _ => 0
  }

  lemma OneReaction(m: Machine, d: CoreId)
    requires Good(m) && m.C(d).request.state == Pending
    ensures var t := Step(m, d, Reaction(m.C(d).phase));
      if Distance(m.C(d).phase) <= 1 then t.C(d).request.state == Stopped || t.C(d).request.state == Failed
      else t.C(d).request.state == Pending && Distance(t.C(d).phase) < Distance(m.C(d).phase)
  {
    assert CoreOk(m, d);
  }

  /** While a core's request is open, no other core touches the request or the core. */
  lemma OthersLeaveRequest(m: Machine, d: CoreId, c: CoreId, a: Action)
    requires Good(m) && m.C(d).request.state == Pending && c != d
    ensures Step(m, c, a).C(d).request == m.C(d).request && Step(m, c, a).C(d).phase == m.C(d).phase
  {
    assert CoreOk(m, d) && CoreOk(m, c) && CoreOk(m, m.holder.value);
  }

  /** How many moves of the run are by core `d`. */
  function Turns(run: seq<Move>, d: CoreId): nat {
    if run == [] then 0 else Turns(run[..|run| - 1], d) + if run[|run| - 1].core == d then 1 else 0
  }

  /** Whenever it is its turn, core `d` takes the next step towards the request. */
  ghost predicate Reacts(m: Machine, run: seq<Move>, d: CoreId) {
    forall i :: 0 <= i < |run| && run[i].core == d ==> run[i].action == Reaction(Run(m, run[..i]).C(d).phase)
  }

  ghost predicate Answered(m: Machine, d: CoreId) {
    m.C(d).request.state == Stopped || m.C(d).request.state == Failed
  }

  lemma OneMove(s: Machine, v: Move, d: CoreId)
    requires Good(s) && s.C(d).request.state == Pending && (v.core == d ==> v.action == Reaction(s.C(d).phase))
    ensures var t := Step(s, v.core, v.action);
      || Answered(t, d)
      || (Good(t) && t.C(d).request.state == Pending
          && Distance(t.C(d).phase) + (if v.core == d then 1 else 0) <= Distance(s.C(d).phase))
  {
    StepKeeps(s, v.core, v.action);
    if v.core == d {
      OneReaction(s, d);
    } else {
      OthersLeaveRequest(s, d, v.core, v.action);
    }
  }

  /** After `i` moves the request is answered already, or each turn of `d` has brought it closer. */
  lemma {:induction false} EachTurnCounts(m: Machine, run: seq<Move>, d: CoreId, i: nat)
    requires Good(m) && m.C(d).request.state == Pending && Reacts(m, run, d) && i <= |run|
    ensures (exists j :: 0 <= j <= i && Answered(Run(m, run[..j]), d))
      || (var t := Run(m, run[..i]);
          && Good(t) && t.C(d).request.state == Pending
          && Distance(t.C(d).phase) + Turns(run[..i], d) <= Distance(m.C(d).phase))
    decreases i
  {
    if i == 0 {
      assert run[..0] == [];
    } else {
      EachTurnCounts(m, run, d, i - 1);
      if !(exists j :: 0 <= j <= i - 1 && Answered(Run(m, run[..j]), d)) {
        var s := Run(m, run[..i - 1]);
        var v := run[i - 1];
        assert run[..i][..i - 1] == run[..i - 1];
        assert Run(m, run[..i]) == Step(s, v.core, v.action);
        OneMove(s, v, d);
        if Answered(Run(m, run[..i]), d) { assert Answered(Run(m, run[..i]), d); }
      }
    }
  }

  /**
   In every interleaving in which the addressed core gets seven turns and uses them to react, whatever
   the other cores do meanwhile, its open request is answered: the waiter is not stuck.
   */
  lemma RequestIsAnswered(m: Machine, run: seq<Move>, d: CoreId)
    requires Good(m) && m.C(d).request.state == Pending && Reacts(m, run, d) && Turns(run, d) >= 7
    ensures exists j :: 0 <= j <= |run| && Answered(Run(m, run[..j]), d)
  {
    EachTurnCounts(m, run, d, |run|);
    assert run[..|run|] == run;
    var t := Run(m, run);
    if Good(t) && t.C(d).request.state == Pending { assert CoreOk(t, d); }
  }
}
