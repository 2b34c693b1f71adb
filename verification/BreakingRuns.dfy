/**
 Every kind of breaking entry is reached from boot: concrete runs of two cores, orderly up to their
 last entry, after which the kernel is inconsistent.
 */
module BreakingRuns {
  import opened Common
  import opened KernelState
  import opened ReadyQueues
  import opened IpcPort
  import opened KernelRun

  const INIT: Pid := 0
  const PEER: Pid := 1
  const TOP: Priority := PRIORITY_MAX - 1

  /** A capability to port 0 with all rights. */
  const ZERO: Cap := Cap(0, true, true, {0})
  const NO_MOVES: Transfer := Transfer(true, true, 0)

  function Start(): State { Boot(2, INIT) }

  /** The run is orderly and leads to `s`. */
  ghost predicate Reaches(es: seq<Entry>, s: State) {
    Orderly(Start(), es) && After(Start(), es) == s
  }

  /** The run is orderly and consistent up to its last entry, which leaves an inconsistent kernel. */
  ghost predicate BreaksLast(es: seq<Entry>) {
    && es != [] && Orderly(Start(), es[..|es| - 1])
    && Good(After(Start(), es[..|es| - 1])) && !Good(After(Start(), es))
  }

  lemma Then(es: seq<Entry>, s: State, e: Entry)
    requires Reaches(es, s) && !Breaks(s, e)
    ensures Reaches(es + [e], Step(s, e))
  {
    var fs := es + [e];
    assert fs[..|fs| - 1] == es;
    forall i | 0 <= i < |fs| ensures !Breaks(After(Start(), fs[..i]), fs[i]) {
      if i < |es| { assert fs[..i] == es[..i]; } else { assert fs[..i] == es; }
    }
  }

  lemma Finally(es: seq<Entry>, s: State, e: Entry)
    requires Reaches(es, s) && Breaks(s, e)
    ensures BreaksLast(es + [e])
  {
    var fs := es + [e];
    assert fs[..|fs| - 1] == es && es[..|es|] == es;
    BootGood(2, INIT);
    RunsStayGood(Start(), es, |es|);
    StepKeepsIff(s, e);
  }

  // ---------------------------------------------------------------- message words

  /** Registers that ask for a blocking transfer of `length` words, with 7 or none. */
  function Asks(long: bool): Registers {
    ZeroRegisters()[MR_MESSAGE_INFO := if long then {0, 1, 2, 3} else {0}]
  }

  lemma FieldZero(w: Word, low: nat, width: nat)
    requires forall i :: low <= i < low + width ==> i !in w
    ensures Field(w, low, width) == 0
    decreases width
  {
  }

  lemma LongWords()
    ensures MessageLength({0, 1, 2, 3}) == 7 && TransferCount({0, 1, 2, 3}) == 0
    ensures MessageLength({0}) == 0 && TransferCount({0}) == 0
  {
    var w: Word := {0, 1, 2, 3};
    FieldZero(w, 4, 5);
    FieldZero(w, 9, 4);
    assert Field(w, 3, 6) == 1 && Field(w, 2, 7) == 3 && Field(w, 1, 8) == 7;
    FieldZero({0}, 1, 8);
    FieldZero({0}, 9, 4);
  }

  // ---------------------------------------------------------------- scenes

  /** Init runs on core 0, and `peer` and `core` describe its peer and the other core. */
  ghost predicate Scene(s: State, peer: Proc, core: Core) {
    && s.coreCount == 2 && s.C(0).current == Some(INIT) && s.C(0).pending == None
    && s.P(INIT).hasBuffer && s.P(INIT).affinity == 0 && !s.P(INIT).dstReady && s.P(INIT).fault == NoFault
    && s.P(PEER) == peer && s.C(1) == core && Normal(Info(s, INIT))
  }

  /** Port 0 and notification port 0 were never used. */
  ghost predicate Unused(s: State) {
    s.Q(0) == NewPort() && s.N(0) == NewNtf()
  }

  ghost predicate SameObjects(s: State, t: State) {
    t.ports == s.ports && t.ntfs == s.ntfs
  }

  lemma Booted()
    ensures Reaches([], Start()) && Scene(Start(), NewProc(), NewCore()) && Unused(Start())
  {
    BootGood(2, INIT);
  }

  /** The idle process of the other core has `quantum` ticks left. */
  function Idle(quantum: int): Core { NewCore().(idleQuantum := quantum) }

  lemma Ticked(s: State, peer: Proc, quantum: int) returns (t: State)
    requires Scene(s, peer, Idle(quantum)) && quantum > 1
    ensures t == Step(s, TimerTick(1)) && !Breaks(s, TimerTick(1))
    ensures Scene(t, peer, Idle(quantum - 1)) && SameObjects(s, t)
  {
    t := Step(s, TimerTick(1));
  }

  /** The peer gets the highest priority and the other core. */
  function Assigned(): Proc { NewProc().(priority := TOP, affinity := 1) }

  const PRIORITISE: Entry := CapabilityCall(0, ReqPriority(PEER, TOP))
  const PLACE: Entry := CapabilityCall(0, ReqAffinity(PEER, 1))
  const RESUME: Entry := CapabilityCall(0, ReqResume(PEER))

  lemma Prioritised(s: State, core: Core) returns (t: State)
    requires Scene(s, NewProc(), core)
    ensures t == Step(s, PRIORITISE) && !Breaks(s, PRIORITISE)
    ensures Scene(t, NewProc().(priority := TOP), core) && SameObjects(s, t)
  {
    t := Step(s, PRIORITISE);
  }

  lemma Placed(s: State, core: Core) returns (t: State)
    requires Scene(s, NewProc().(priority := TOP), core)
    ensures t == Step(s, PLACE) && !Breaks(s, PLACE)
    ensures Scene(t, Assigned(), core) && SameObjects(s, t)
  {
    t := Step(s, PLACE);
  }

  function Queued(): Proc { Assigned().(status := Ready, quantum := QUANTUM_MAX, inReady := true) }
  function Told(quantum: int): Core { Idle(quantum).(ready := EmptyQueues()[TOP := [PEER]], pending := Some(PEER)) }

  lemma Resumed(s: State, quantum: int) returns (t: State)
    requires Scene(s, Assigned(), Idle(quantum))
    ensures t == Step(s, RESUME) && !Breaks(s, RESUME)
    ensures Scene(t, Queued(), Told(quantum)) && SameObjects(s, t)
  {
    t := Step(s, RESUME);
    assert EmptyQueues()[TOP] + [PEER] == [PEER];
  }

  /** The peer has its core to itself. */
  ghost predicate Alone(core: Core) {
    core.current == Some(PEER) && core.ready == EmptyQueues()
  }

  /** The other core takes the announced process. */
  lemma Interrupted(s: State) returns (t: State)
    requires Scene(s, Queued(), Told(QUANTUM_MAX))
    ensures t == Step(s, Reschedule(1)) && !Breaks(s, Reschedule(1))
    ensures Scene(t, Queued().(inReady := false), t.C(1)) && Alone(t.C(1)) && SameObjects(s, t)
  {
    t := Step(s, Reschedule(1));
    var q := EmptyQueues()[TOP := [PEER]];
    assert PEER in q[TOP] && forall k: Priority :: k != TOP ==> PEER !in q[k];
    assert Find(q, PEER, 0) == TOP;
    assert Without([PEER], PEER) == [];
    assert q[TOP := []] == EmptyQueues();
  }

  /** The idle process of the other core uses up its time just before the interrupt arrives. */
  lemma TimedOut(s: State) returns (t: State)
    requires Scene(s, Queued(), Told(1))
    ensures t == Step(s, TimerTick(1)) && !Breaks(s, TimerTick(1))
    ensures Scene(t, Queued().(inReady := false), t.C(1)) && Alone(t.C(1)) && t.C(1).pending == Some(PEER)
    ensures SameObjects(s, t)
  {
    t := Step(s, TimerTick(1));
    var q := EmptyQueues()[TOP := [PEER]];
    assert Top(q, TOP) == TOP;
    assert [PEER][1..] == [];
    assert q[TOP := []] == EmptyQueues();
  }

  /** The peer as its code left it, about to block. */
  function Asking(long: bool): Proc { Queued().(inReady := false, regs := Asks(long)) }

  lemma Asked(s: State, core: Core, long: bool) returns (t: State)
    requires Scene(s, Queued().(inReady := false), core) && Alone(core)
    ensures t == Step(s, UserCode(1, Asks(long))) && !Breaks(s, UserCode(1, Asks(long)))
    ensures Scene(t, Asking(long), core) && SameObjects(s, t)
  {
    t := Step(s, UserCode(1, Asks(long)));
  }

  /** The peer waits at port 0, its core is idle, and notification port 0 was never used. */
  ghost predicate Waits(s: State, peer: Proc, st: PortState) {
    && Scene(s, peer, s.C(1)) && s.C(1).current.None?
    && s.Q(0) == Port(st, [PEER]) && s.N(0) == NewNtf() && !peer.hasBuffer && peer.fault == NoFault
  }

  lemma {:induction false} NothingReady(k: int)
    requires -1 <= k <= TOP
    ensures Top(EmptyQueues(), k) == -1
    decreases k + 1
  {
    if k >= 0 { NothingReady(k - 1); }
  }

  const RECEIVE: Entry := CapabilityCall(1, ReqReceive(ZERO, NO_MOVES))
  const SEND: Entry := CapabilityCall(1, ReqSend(ZERO, NO_MOVES))

  lemma Received(s: State, core: Core) returns (t: State)
    requires Scene(s, Asking(false), core) && Alone(core) && Unused(s)
    ensures t == Step(s, RECEIVE) && !Breaks(s, RECEIVE)
    ensures Waits(t, t.P(PEER), ReadyToReceive) && t.P(PEER).status == BlockedReceive && t.P(PEER).affinity == 1
    ensures t.C(1).pending == core.pending
  {
    NothingReady(core.highest);
    t := Step(s, RECEIVE);
    assert [] + [PEER] == [PEER];
  }

  lemma Sent(s: State, core: Core, long: bool) returns (t: State)
    requires Scene(s, Asking(long), core) && Alone(core) && Unused(s)
    ensures t == Step(s, SEND) && !Breaks(s, SEND)
    ensures Waits(t, t.P(PEER), ReadyToSend) && t.P(PEER).status == BlockedSend
    ensures t.P(PEER).regs[MR_MESSAGE_INFO] == Asks(long)[MR_MESSAGE_INFO]
  {
    NothingReady(core.highest);
    assert IsBlock(Info(s, PEER)) && Normal(Info(s, PEER));
    t := Step(s, SEND);
    assert [] + [PEER] == [PEER];
  }

  // ---------------------------------------------------------------- the common start

  function Opening(): seq<Entry> { [PRIORITISE] + [PLACE] + [RESUME] }

  lemma {:induction false} OpeningReaches(es: seq<Entry>, s: State, quantum: int) returns (t: State)
    requires Reaches(es, s) && Scene(s, NewProc(), Idle(quantum)) && Unused(s)
    ensures Reaches(es + [PRIORITISE] + [PLACE] + [RESUME], t) && Scene(t, Queued(), Told(quantum)) && Unused(t)
  {
    var u := PrioritisedReaches(es, s, Idle(quantum));
    var v := PlacedReaches(es + [PRIORITISE], u, Idle(quantum));
    t := Resumed(v, quantum);
    Then(es + [PRIORITISE] + [PLACE], v, RESUME);
  }

  lemma PrioritisedReaches(es: seq<Entry>, s: State, core: Core) returns (t: State)
    requires Reaches(es, s) && Scene(s, NewProc(), core) && Unused(s)
    ensures Reaches(es + [PRIORITISE], t) && Scene(t, NewProc().(priority := TOP), core) && Unused(t)
  {
    t := Prioritised(s, core);
    Then(es, s, PRIORITISE);
  }

  lemma PlacedReaches(es: seq<Entry>, s: State, core: Core) returns (t: State)
    requires Reaches(es, s) && Scene(s, NewProc().(priority := TOP), core) && Unused(s)
    ensures Reaches(es + [PLACE], t) && Scene(t, Assigned(), core) && Unused(t)
  {
    t := Placed(s, core);
    Then(es, s, PLACE);
  }

  lemma FromBoot() returns (s: State)
    ensures Reaches(Opening(), s) && Scene(s, Queued(), Told(QUANTUM_MAX)) && Unused(s)
  {
    Booted();
    assert Idle(QUANTUM_MAX) == NewCore();
    s := OpeningReaches([], Start(), QUANTUM_MAX);
    assert [] + [PRIORITISE] + [PLACE] + [RESUME] == Opening();
  }

  function Dispatching(long: bool): seq<Entry> {
    Opening() + [Reschedule(1)] + [UserCode(1, Asks(long))]
  }

  lemma DispatchingReaches(long: bool) returns (s: State)
    ensures Reaches(Dispatching(long), s) && Scene(s, Asking(long), s.C(1)) && Alone(s.C(1)) && Unused(s)
  {
    s := FromBoot();
    var u := Interrupted(s);
    Then(Opening(), s, Reschedule(1));
    s := Asked(u, u.C(1), long);
    Then(Opening() + [Reschedule(1)], u, UserCode(1, Asks(long)));
  }

  /** The peer blocks in RECEIVE, without an IPC buffer. */
  function Listening(): seq<Entry> { Dispatching(false) + [RECEIVE] }

  lemma ListeningReaches() returns (s: State)
    ensures Reaches(Listening(), s) && Waits(s, s.P(PEER), ReadyToReceive) && s.P(PEER).status == BlockedReceive
  {
    var u := DispatchingReaches(false);
    s := Received(u, u.C(1));
    Then(Dispatching(false), u, RECEIVE);
  }

  /** The peer blocks in SEND, of seven words or none, without an IPC buffer. */
  function Talking(long: bool): seq<Entry> { Dispatching(long) + [SEND] }

  lemma TalkingReaches(long: bool) returns (s: State)
    ensures Reaches(Talking(long), s) && Waits(s, s.P(PEER), ReadyToSend) && s.P(PEER).status == BlockedSend
    ensures s.P(PEER).regs[MR_MESSAGE_INFO] == Asks(long)[MR_MESSAGE_INFO]
  {
    var u := DispatchingReaches(long);
    s := Sent(u, u.C(1), long);
    Then(Dispatching(long), u, SEND);
  }

  /** `es` and three timer ticks on the other core. */
  function Ticks(es: seq<Entry>): seq<Entry> { es + [TimerTick(1)] + [TimerTick(1)] + [TimerTick(1)] }

  ghost predicate Ticking(es: seq<Entry>, s: State, quantum: int) {
    Reaches(es, s) && Scene(s, NewProc(), Idle(quantum)) && Unused(s)
  }

  lemma TickReaches(es: seq<Entry>, s: State, quantum: int) returns (t: State)
    requires Ticking(es, s, quantum) && quantum > 1
    ensures Ticking(es + [TimerTick(1)], t, quantum - 1)
  {
    t := Ticked(s, NewProc(), quantum);
    Then(es, s, TimerTick(1));
  }

  lemma ThreeTicks(es: seq<Entry>, s: State, quantum: int) returns (t: State)
    requires Ticking(es, s, quantum) && quantum > 3
    ensures Ticking(Ticks(es), t, quantum - 3)
  {
    t := TickReaches(es, s, quantum);
    t := TickReaches(es + [TimerTick(1)], t, quantum - 1);
    t := TickReaches(es + [TimerTick(1)] + [TimerTick(1)], t, quantum - 2);
  }

  /** The idle process of the other core is about to use up its time. */
  lemma NineTicks() returns (s: State)
    ensures Ticking(Ticks(Ticks(Ticks([]))), s, 1)
  {
    Booted();
    assert Idle(QUANTUM_MAX) == NewCore();
    s := ThreeTicks([], Start(), QUANTUM_MAX);
    s := ThreeTicks(Ticks([]), s, QUANTUM_MAX - 3);
    s := ThreeTicks(Ticks(Ticks([])), s, QUANTUM_MAX - 6);
  }

  /** The peer blocks in RECEIVE while its core has still not taken the interrupt that announced it. */
  function Overtaking(): seq<Entry> {
    Ticks(Ticks(Ticks([]))) + [PRIORITISE] + [PLACE] + [RESUME] + [TimerTick(1)] + [UserCode(1, Asks(false))] + [RECEIVE]
  }

  lemma OvertakingReaches() returns (s: State)
    ensures Reaches(Overtaking(), s) && Waits(s, s.P(PEER), ReadyToReceive) && s.P(PEER).status == BlockedReceive
    ensures s.C(1).pending == Some(PEER) && s.P(PEER).affinity == 1
  {
    var es := Ticks(Ticks(Ticks([])));
    s := NineTicks();
    s := OpeningReaches(es, s, 1);
    es := es + [PRIORITISE] + [PLACE] + [RESUME];
    var u := TimedOut(s);
    Then(es, s, TimerTick(1));
    s := OvertakenReaches(es + [TimerTick(1)], u);
  }

  lemma OvertakenReaches(es: seq<Entry>, s: State) returns (t: State)
    requires Reaches(es, s) && Scene(s, Queued().(inReady := false), s.C(1)) && Alone(s.C(1)) && Unused(s)
    requires s.C(1).pending == Some(PEER)
    ensures Reaches(es + [UserCode(1, Asks(false))] + [RECEIVE], t)
    ensures Waits(t, t.P(PEER), ReadyToReceive) && t.P(PEER).status == BlockedReceive
    ensures t.C(1).pending == Some(PEER) && t.P(PEER).affinity == 1
  {
    var u := Asked(s, s.C(1), false);
    Then(es, s, UserCode(1, Asks(false)));
    t := Received(u, s.C(1));
    Then(es + [UserCode(1, Asks(false))], u, RECEIVE);
  }

  // ---------------------------------------------------------------- the breaking entries

  /** Init asks to hand over seven words; the waiting peer has room for six. */
  lemma TooLong(s: State)
    requires Waits(s, s.P(PEER), ReadyToReceive)
    ensures var t := Step(s, UserCode(0, Asks(true)));
      && Breaks(t, CapabilityCall(0, ReqSend(ZERO, NO_MOVES))) && Breaks(t, CapabilityCall(0, ReqCall(ZERO, NO_MOVES)))
  {
    LongWords();
    var t := Step(s, UserCode(0, Asks(true)));
    assert t.C(0).current == Some(INIT) && Info(t, INIT) == {0, 1, 2, 3} && t.Q(0) == s.Q(0) && !t.P(PEER).hasBuffer;
  }

  lemma SendBreaks()
    ensures BreaksLast(Listening() + [UserCode(0, Asks(true))] + [CapabilityCall(0, ReqSend(ZERO, NO_MOVES))])
  {
    var s := ListeningReaches();
    Then(Listening(), s, UserCode(0, Asks(true)));
    TooLong(s);
    Finally(Listening() + [UserCode(0, Asks(true))], Step(s, UserCode(0, Asks(true))), CapabilityCall(0, ReqSend(ZERO, NO_MOVES)));
  }

  lemma CallBreaks()
    ensures BreaksLast(Listening() + [UserCode(0, Asks(true))] + [CapabilityCall(0, ReqCall(ZERO, NO_MOVES))])
  {
    var s := ListeningReaches();
    Then(Listening(), s, UserCode(0, Asks(true)));
    TooLong(s);
    Finally(Listening() + [UserCode(0, Asks(true))], Step(s, UserCode(0, Asks(true))), CapabilityCall(0, ReqCall(ZERO, NO_MOVES)));
  }

  lemma ReceiveBreaks()
    ensures BreaksLast(Talking(true) + [CapabilityCall(0, ReqReceive(ZERO, NO_MOVES))])
  {
    var s := TalkingReaches(true);
    LongWords();
    Finally(Talking(true), s, CapabilityCall(0, ReqReceive(ZERO, NO_MOVES)));
  }

  lemma ReplyReceiveBreaks()
    ensures BreaksLast(Talking(true) + [CapabilityCall(0, ReqReplyReceive(ZERO, NO_MOVES, NO_MOVES))])
  {
    var s := TalkingReaches(true);
    LongWords();
    Finally(Talking(true), s, CapabilityCall(0, ReqReplyReceive(ZERO, NO_MOVES, NO_MOVES)));
  }

  lemma Resolved(s: State)
    requires Waits(s, s.P(PEER), ReadyToReceive) && !s.P(PEER).hasBuffer
    ensures var e := CapabilityCall(0, ReqResolver(INIT, Resolver(0, true, true, {})));
      !Breaks(s, e) && Breaks(Step(s, e), FaultEntry(0, InvalidKernelCall))
  {
    var t := Step(s, CapabilityCall(0, ReqResolver(INIT, Resolver(0, true, true, {}))));
    assert t.C(0).current == Some(INIT) && t.P(INIT).resolver == Some(Resolver(0, true, true, {}));
    assert t.Q(0) == Port(ReadyToReceive, [PEER]) && !t.P(PEER).hasBuffer;
  }

  /** Init's resolver port is the one its peer listens at; the register dump does not fit. */
  lemma FaultBreaks()
    ensures BreaksLast(Listening() + [CapabilityCall(0, ReqResolver(INIT, Resolver(0, true, true, {})))]
                       + [FaultEntry(0, InvalidKernelCall)])
  {
    var s := ListeningReaches();
    var e := CapabilityCall(0, ReqResolver(INIT, Resolver(0, true, true, {})));
    Resolved(s);
    Then(Listening(), s, e);
    Finally(Listening() + [e], Step(s, e), FaultEntry(0, InvalidKernelCall));
  }

  lemma PriorityBreaks()
    ensures BreaksLast(Opening() + [CapabilityCall(0, ReqPriority(PEER, 0))])
  {
    var s := FromBoot();
    Finally(Opening(), s, CapabilityCall(0, ReqPriority(PEER, 0)));
  }

  lemma AffinityBreaks()
    ensures BreaksLast(Overtaking() + [CapabilityCall(0, ReqAffinity(PEER, 0))])
  {
    var s := OvertakingReaches();
    Finally(Overtaking(), s, CapabilityCall(0, ReqAffinity(PEER, 0)));
  }

  lemma Notified(s: State)
    requires Waits(s, s.P(PEER), ReadyToReceive) && s.P(PEER).status == BlockedReceive
    ensures var e := CapabilityCall(0, ReqNotify(ZERO));
      !Breaks(s, e) && Breaks(Step(s, e), CapabilityCall(0, ReqBind(PEER, 0)))
  {
    var t := Step(s, CapabilityCall(0, ReqNotify(ZERO)));
    assert t.C(0).current == Some(INIT) && t.P(PEER).status == BlockedReceive;
    assert t.N(0).bound.None? && t.N(0).flag == {0};
  }

  lemma BindBreaks()
    ensures BreaksLast(Listening() + [CapabilityCall(0, ReqNotify(ZERO))] + [CapabilityCall(0, ReqBind(PEER, 0))])
  {
    var s := ListeningReaches();
    var e := CapabilityCall(0, ReqNotify(ZERO));
    Notified(s);
    Then(Listening(), s, e);
    Finally(Listening() + [e], Step(s, e), CapabilityCall(0, ReqBind(PEER, 0)));
  }
}
