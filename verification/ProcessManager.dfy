/** Scheduling decisions on one core, routing to other cores, timer, yield and reschedule entries. */
module ProcessManager {
  import opened Common
  import opened KernelState
  import opened ReadyQueues
  import opened KernelPrimitives

  datatype AddResult = Added | InvalidProcess | AlreadyQueued

  // ---------------------------------------------------------------- scheduler

  function AddProcess(s: State, p: Pid): (State, AddResult) {
    if s.P(p).status != Ready then (s, InvalidProcess)
    else if s.P(p).inReady then (s, AlreadyQueued)
    else (Enqueue(s, p), Added)
  }

  function Schedule(s: State, c: CoreId): (State, Option<Pid>) {
    var k := Top(s.C(c).ready, s.C(c).highest);
    if k < 0 then (s, None) else (Dequeue(s, c, k), Some(s.C(c).ready[k][0]))
  }

  /** `None` stands for each of the scheduler's errors. */
  function TryDirectSchedule(s: State, c: CoreId, p: Pid): (State, Option<Pid>) {
    var k := s.P(p).priority;
    if k < s.C(c).highest then
      var s1 := SetHighest(s, c, Tighten(s.C(c).ready, s.C(c).highest, k));
      if k < s1.C(c).highest then
        var (s2, added) := AddProcess(s1, p);
        if added == Added then Schedule(s2, c) else (s2, None)
      else if s1.P(p).inReady then (s1, None)
      else (s1, Some(p))
    else if s.P(p).inReady then (s, None)
    else (s, Some(p))
  }

  /** The queues of core `c` are searched in order; nothing happens when `p` is in none of them. */
  function RemoveProcess(s: State, c: CoreId, p: Pid): State {
    var k := Find(s.C(c).ready, p, 0);
    if k < PRIORITY_MAX then DropReady(s, c, k, p) else s
  }

  // ---------------------------------------------------------------- process manager

  function TryScheduleAndSwitch(s: State, c: CoreId): State {
    var (s1, next) := Schedule(s, c);
    SwitchTo(s1, c, next)
  }

  function MarkScheduled(s: State, p: Pid): State {
    AddProcess(s.SetP(p, s.P(p).(quantum := QUANTUM_MAX, status := Ready)), p).0
  }

  function MarkSuspended(s: State, p: Pid): State {
    var s1 := RemoveProcess(s, s.P(p).affinity, p);
    s1.SetP(p, s1.P(p).(status := BlockedSuspend))
  }

  /** A core with no reschedule target yet is told to look at `p`. */
  function Announce(s: State, p: Pid): State {
    var c := s.P(p).affinity;
    if s.C(c).pending.None? then SetPending(s, c, Some(p)) else s
  }

  /** Core `c` makes `p` runnable on the core `p` belongs to. */
  function RouteMarkScheduled(s: State, c: CoreId, p: Pid): State {
    var s1 := MarkScheduled(s, p);
    if s1.P(p).affinity != c then Announce(s1, p) else s1
  }

  /** The idle process has priority 0 and never enters a ready queue. */
  function ScheduleIfPreemptedBy(s: State, c: CoreId, p: Pid): State {
    match s.C(c).current
    case None => if s.P(p).priority <= 0 then s else TryScheduleAndSwitch(s, c)
    case Some(o) =>
      if s.P(p).priority <= s.P(o).priority then s
      else TryScheduleAndSwitch(if s.P(o).status == Ready then AddProcess(s, o).0 else s, c)
  }

  function RouteMarkScheduledPreempting(s: State, c: CoreId, p: Pid): State {
    var s1 := MarkScheduled(s, p);
    if s1.P(p).affinity != c then Announce(s1, p) else ScheduleIfPreemptedBy(s1, c, p)
  }

  /** Core `c` leaves its current process for `p`, directly if nothing more urgent is ready. */
  function TryDirectScheduleAndSwitch(s: State, c: CoreId, p: Pid): State {
    if s.P(p).affinity == c then
      var (s1, next) := TryDirectSchedule(s, c, p);
      if next.Some? then SwitchTo(s1, c, next) else s1
    else
      TryScheduleAndSwitch(Announce(MarkScheduled(s, p), p), c)
  }

  // ---------------------------------------------------------------- kernel entries

  function Yield(s: State, c: CoreId): State {
    match s.C(c).current
    case None => TryScheduleAndSwitch(s.SetC(c, s.C(c).(idleQuantum := QUANTUM_MAX)), c)
    case Some(p) => TryScheduleAndSwitch(MarkScheduled(s, p), c)
  }

  /** A tick has been counted and leaves a quantum of `n`; a used-up one ends as a YIELD would. */
  function Counted(s: State, c: CoreId, n: int): State {
    if n <= 0 then Yield(s, c) else s
  }

  function Timer(s: State, c: CoreId): State {
    match s.C(c).current
    case None =>
      var s1 := s.SetC(c, s.C(c).(idleQuantum := s.C(c).idleQuantum - 1));
      Counted(s1, c, s1.C(c).idleQuantum)
    case Some(p) => if s.P(p).status != Ready then TryScheduleAndSwitch(s, c) else Ticked(s, c, p)
  }

  function Ticked(s: State, c: CoreId, p: Pid): State {
    var s1 := s.SetP(p, s.P(p).(quantum := s.P(p).quantum - 1));
    Counted(s1, c, s1.P(p).quantum)
  }

  /** Entry on a reschedule interrupt: the announced process is dispatched if it is still ready here. */
  function RescheduleIpi(s: State, c: CoreId): State {
    var target := s.C(c).pending;
    var s1 := SetPending(s, c, None);
    var s2 :=
      match s1.C(c).current
      case None => s1.SetC(c, s1.C(c).(idleQuantum := QUANTUM_MAX))
      case Some(p) => if s1.P(p).status == Ready then MarkScheduled(s1, p) else s1;
    if target.Some? && s2.P(target.value).affinity == c
       && s2.P(target.value).status == Ready && s2.P(target.value).inReady
    then SwitchTo(RemoveProcess(s2, c, target.value), c, target)
    else TryScheduleAndSwitch(s2, c)
  }

  /** The process leaves scheduling, its core's announcement and, if it runs there, its core. */
  function StopProcess(s: State, p: Pid): State {
    var c := s.P(p).affinity;
    var s1 := MarkSuspended(s, p);
    var s2 := if s1.C(c).pending == Some(p) then SetPending(s1, c, None) else s1;
    if s2.C(c).current == Some(p) then SwitchTo(s2, c, None) else s2
  }

  // ---------------------------------------------------------------- invariant

  /** The same process up to whose turn it is. */
  ghost predicate SameUpToTurn(a: Proc, b: Proc) {
    a.(inReady := false, quantum := 0) == b.(inReady := false, quantum := 0)
  }

  /** Able to run: ready, waiting for no reply and not faulted. */
  ghost predicate Runnable(r: Proc) {
    r.status == Ready && !r.srcWait && r.fault == NoFault
  }

  // ---------------------------------------------------------------- what scheduling leaves alone

  /** Nothing but whose turn it is differs. */
  ghost predicate OnlyTurns(s: State, t: State) {
    t.ports == s.ports && t.ntfs == s.ntfs && forall o: Pid :: SameUpToTurn(t.P(o), s.P(o))
  }

  lemma OnlyTurnsTwice(s: State, t: State, u: State)
    requires OnlyTurns(s, t) && OnlyTurns(t, u)
    ensures OnlyTurns(s, u)
  {
    forall o: Pid ensures SameUpToTurn(u.P(o), s.P(o)) {
      assert SameUpToTurn(u.P(o), t.P(o)) && SameUpToTurn(t.P(o), s.P(o));
    }
  }

  function MadeReady(s: State, p: Pid): State {
    s.SetP(p, s.P(p).(status := Ready))
  }

  lemma DispatchLeaves(s: State, c: CoreId)
    ensures var t := TryScheduleAndSwitch(s, c);
      OnlyTurns(s, t) && (forall d: CoreId :: d != c ==> t.C(d) == s.C(d))
  {
  }

  lemma MarkLeaves(s: State, p: Pid)
    ensures OnlyTurns(MadeReady(s, p), MarkScheduled(s, p))
  {
  }

  lemma RouteLeaves(s: State, c: CoreId, p: Pid)
    ensures OnlyTurns(MadeReady(s, p), RouteMarkScheduled(s, c, p))
  {
    MarkLeaves(s, p);
  }

  lemma DirectLeaves(s: State, c: CoreId, p: Pid)
    requires s.P(p).status == Ready
    ensures OnlyTurns(s, TryDirectScheduleAndSwitch(s, c, p))
  {
    if s.P(p).affinity != c {
      MarkLeaves(s, p);
      assert MadeReady(s, p) == s;
      var s1 := Announce(MarkScheduled(s, p), p);
      assert s1.procs == MarkScheduled(s, p).procs;
      DispatchLeaves(s1, c);
      OnlyTurnsTwice(s, s1, TryDirectScheduleAndSwitch(s, c, p));
    }
  }

  lemma PreemptLeaves(s: State, c: CoreId, p: Pid)
    ensures OnlyTurns(s, ScheduleIfPreemptedBy(s, c, p))
  {
    match s.C(c).current
    case None => DispatchLeaves(s, c);
    case Some(o) =>
      var s1 := if s.P(o).status == Ready then AddProcess(s, o).0 else s;
      DispatchLeaves(s1, c);
      OnlyTurnsTwice(s, s1, TryScheduleAndSwitch(s1, c));
  }

  lemma PreemptingLeaves(s: State, c: CoreId, p: Pid)
    ensures OnlyTurns(MadeReady(s, p), RouteMarkScheduledPreempting(s, c, p))
  {
    MarkLeaves(s, p);
    var s1 := MarkScheduled(s, p);
    if s1.P(p).affinity == c {
      PreemptLeaves(s1, c, p);
      OnlyTurnsTwice(MadeReady(s, p), s1, RouteMarkScheduledPreempting(s, c, p));
    }
  }

  // ---------------------------------------------------------------- scheduling keeps the invariant

  lemma ScheduleKeeps(s: State, f: set<Pid>, away: Option<CoreId>, c: CoreId)
    requires Inv(s, f, away)
    ensures var (t, next) := Schedule(s, c);
      if next.None? then t == s
      else Inv(t, f + {next.value}, away) && Runnable(t.P(next.value)) && t.P(next.value).affinity == c
           && next.value !in f
  {
    var k := Top(s.C(c).ready, s.C(c).highest);
    if k >= 0 {
      DequeueKeeps(s, f, away, c, k);
    }
  }

  lemma SwitchAwayKeeps(s: State, f: set<Pid>, c: CoreId)
    requires Inv(s, f, Some(c))
    ensures Inv(TryScheduleAndSwitch(s, c), f, None)
  {
    var (t, next) := Schedule(s, c);
    ScheduleKeeps(s, f, Some(c), c);
    if next.Some? {
      SwitchKeeps(t, f + {next.value}, c, next.value);
      assert f + {next.value} - {next.value} == f;
    } else {
      SwitchIdleKeeps(s, f, c);
    }
  }

  /** A process in transit that could run becomes ready. */
  lemma MarkScheduledKeeps(s: State, f: set<Pid>, away: Option<CoreId>, p: Pid)
    requires Inv(s, f, away) && p in f
    requires !s.P(p).srcWait && s.P(p).fault == NoFault
    ensures Inv(MarkScheduled(s, p), f - {p}, away)
  {
    var s1 := s.SetP(p, s.P(p).(quantum := QUANTUM_MAX, status := Ready));
    assert PlaceOk(s, f, away, p);
    Touch(s, f, away, p, s1.P(p));
    EnqueueKeeps(s1, f, away, p);
  }

  /** Scheduling a process that is already ready only refills its quantum. */
  lemma MarkReadyKeeps(s: State, f: set<Pid>, away: Option<CoreId>, p: Pid)
    requires Inv(s, f, away) && p !in f && s.P(p).inReady
    ensures Inv(MarkScheduled(s, p), f, away)
  {
    assert PlaceOk(s, f, away, p);
    QuantumKeeps(s, f, away, p, QUANTUM_MAX);
    assert s.P(p).(quantum := QUANTUM_MAX, status := Ready) == s.P(p).(quantum := QUANTUM_MAX);
  }

  lemma QuantumKeeps(s: State, f: set<Pid>, away: Option<CoreId>, p: Pid, n: int)
    requires Inv(s, f, away)
    ensures Inv(s.SetP(p, s.P(p).(quantum := n)), f, away)
  {
    OwnFieldsKeep(s, f, away, p, s.P(p).(quantum := n));
  }

  /** Quantum, registers, identifier, resolver and buffer matter to no invariant. */
  lemma OwnFieldsKeep(s: State, f: set<Pid>, away: Option<CoreId>, p: Pid, r: Proc)
    requires Inv(s, f, away)
    requires r == s.P(p).(quantum := r.quantum, regs := r.regs, identifier := r.identifier, resolver := r.resolver,
                          hasBuffer := r.hasBuffer)
    ensures Inv(s.SetP(p, r), f, away)
  {
    OwnFieldsSeats(s, p, r);
    OwnFieldsPlaces(s, f, away, p, r);
  }

  lemma OwnFieldsSeats(s: State, p: Pid, r: Proc)
    requires Seats(s) && Flags(s) && Replies(s)
    requires r == s.P(p).(quantum := r.quantum, regs := r.regs, identifier := r.identifier, resolver := r.resolver,
                          hasBuffer := r.hasBuffer)
    ensures Seats(s.SetP(p, r)) && Flags(s.SetP(p, r)) && Replies(s.SetP(p, r))
  {
    var t := s.SetP(p, r);
    KeepReady(s, t);
    KeepIpc(s, t);
    KeepNtf(s, t);
    KeepBindings(s, t);
    KeepFlags(s, t);
    KeepReplies(s, t);
  }

  lemma OwnFieldsPlaces(s: State, f: set<Pid>, away: Option<CoreId>, p: Pid, r: Proc)
    requires Places(s, f, away)
    requires r == s.P(p).(quantum := r.quantum, regs := r.regs, identifier := r.identifier, resolver := r.resolver,
                          hasBuffer := r.hasBuffer)
    ensures Places(s.SetP(p, r), f, away)
  {
    var t := s.SetP(p, r);
    forall o: Pid | o != p ensures Undisturbed(s, t, f, f, away, o) {}
    assert PlaceOk(s, f, away, p) && PlaceOf(t, away, p) == PlaceOf(s, away, p);
    KeepPlaces(s, t, f, f, away, p);
  }

  lemma IdleQuantumKeeps(s: State, f: set<Pid>, away: Option<CoreId>, c: CoreId, n: int)
    requires Inv(s, f, away)
    ensures Inv(s.SetC(c, s.C(c).(idleQuantum := n)), f, away)
  {
    var t := s.SetC(c, s.C(c).(idleQuantum := n));
    forall d: CoreId ensures CoreOk(t, away, d) { assert CoreOk(s, away, d); }
    forall o: Pid ensures PlaceOk(t, f, away, o) {
      assert PlaceOk(s, f, away, o);
      assert PlaceOf(t, away, o) == PlaceOf(s, away, o);
    }
    CoreStepKeeps(s, t, f, away);
  }

  lemma AnnounceKeeps(s: State, f: set<Pid>, away: Option<CoreId>, p: Pid)
    requires Inv(s, f, away)
    ensures Inv(Announce(s, p), f, away)
  {
    if s.C(s.P(p).affinity).pending.None? {
      SetPendingKeeps(s, f, away, s.P(p).affinity, Some(p));
    }
  }

  /** Making `p` runnable concerns only `p` and the scheduling state of its core. */
  lemma RouteFrame(s: State, c: CoreId, p: Pid)
    ensures var t := RouteMarkScheduled(s, c, p);
      && t.ports == s.ports && t.ntfs == s.ntfs
      && (forall d: CoreId :: t.C(d).current == s.C(d).current)
      && (forall o: Pid :: o != p ==> t.P(o) == s.P(o))
  {
  }

  lemma RouteKeeps(s: State, f: set<Pid>, away: Option<CoreId>, c: CoreId, p: Pid)
    requires Inv(s, f, away) && p in f
    requires !s.P(p).srcWait && s.P(p).fault == NoFault
    ensures Inv(RouteMarkScheduled(s, c, p), f - {p}, away)
    ensures var t := RouteMarkScheduled(s, c, p);
      p in t.C(s.P(p).affinity).ready[s.P(p).priority] && OnlyTurns(MadeReady(s, p), t)
  {
    assert PlaceOk(s, f, away, p);
    MarkScheduledKeeps(s, f, away, p);
    AnnounceKeeps(MarkScheduled(s, p), f - {p}, away, p);
    RouteLeaves(s, c, p);
    assert ReadyMember(MarkScheduled(s, p), p);
  }

  /** With core `c` in the kernel: whoever runs there next, or still, is a proper choice. */
  lemma PreemptKeeps(s: State, f: set<Pid>, c: CoreId, p: Pid)
    requires Inv(s, f, None)
    ensures Inv(ScheduleIfPreemptedBy(s, c, p), f, None) && OnlyTurns(s, ScheduleIfPreemptedBy(s, c, p))
  {
    PreemptLeaves(s, c, p);
    match s.C(c).current
    case None =>
      if s.P(p).priority > 0 {
        LeaveIdle(s, f, c);
        SwitchAwayKeeps(s, f, c);
      }
    case Some(o) =>
      assert CoreOk(s, None, c) && PlaceOk(s, f, None, o);
      if s.P(p).priority > s.P(o).priority {
        Leave(s, f, c, o);
        EnqueueKeeps(s, f + {o}, Some(c), o);
        assert f + {o} - {o} == f;
        SwitchAwayKeeps(Enqueue(s, o), f, c);
      }
  }

  lemma LeaveIdle(s: State, f: set<Pid>, c: CoreId)
    requires Inv(s, f, None) && s.C(c).current.None?
    ensures Inv(s, f, Some(c))
  {
    forall d: CoreId ensures CoreOk(s, Some(c), d) { assert CoreOk(s, None, d); }
    forall o: Pid ensures PlaceOk(s, f, Some(c), o) {
      assert PlaceOk(s, f, None, o);
      assert PlaceOf(s, Some(c), o) == PlaceOf(s, None, o);
    }
  }

  lemma RoutePreemptingKeeps(s: State, f: set<Pid>, c: CoreId, p: Pid)
    requires Inv(s, f, None) && p in f
    requires !s.P(p).srcWait && s.P(p).fault == NoFault
    ensures Inv(RouteMarkScheduledPreempting(s, c, p), f - {p}, None)
  {
    MarkScheduledKeeps(s, f, None, p);
    AnnounceKeeps(MarkScheduled(s, p), f - {p}, None, p);
    PreemptKeeps(MarkScheduled(s, p), f - {p}, c, p);
  }

  lemma DirectKeeps(s: State, f: set<Pid>, c: CoreId, p: Pid)
    requires Inv(s, f, Some(c)) && p in f && Runnable(s.P(p))
    ensures Inv(TryDirectScheduleAndSwitch(s, c, p), f - {p}, None) && OnlyTurns(s, TryDirectScheduleAndSwitch(s, c, p))
  {
    DirectLeaves(s, c, p);
    assert PlaceOk(s, f, Some(c), p);
    if s.P(p).affinity != c {
      MarkScheduledKeeps(s, f, Some(c), p);
      AnnounceKeeps(MarkScheduled(s, p), f - {p}, Some(c), p);
      SwitchAwayKeeps(Announce(MarkScheduled(s, p), p), f - {p}, c);
    } else if s.P(p).priority < s.C(c).highest {
      var h := Tighten(s.C(c).ready, s.C(c).highest, s.P(p).priority);
      var s1 := SetHighest(s, c, h);
      SetHighestKeeps(s, f, Some(c), c, h);
      if s.P(p).priority < h {
        EnqueueKeeps(s1, f, Some(c), p);
        var s2 := Enqueue(s1, p);
        SwitchAwayKeeps(s2, f - {p}, c);
        assert s2.C(c).ready[h] != [] && h <= s2.C(c).highest;
        assert Top(s2.C(c).ready, s2.C(c).highest) >= h;
      } else {
        SwitchKeeps(s1, f, c, p);
      }
    } else {
      SwitchKeeps(s, f, c, p);
    }
  }

  lemma RemoveKeeps(s: State, f: set<Pid>, away: Option<CoreId>, p: Pid)
    requires Inv(s, f, away)
    ensures if s.P(p).inReady then Inv(RemoveProcess(s, s.P(p).affinity, p), f + {p}, away)
      else RemoveProcess(s, s.P(p).affinity, p) == s
    ensures s.P(p).inReady ==> RemoveProcess(s, s.P(p).affinity, p) == DropReady(s, s.P(p).affinity, s.P(p).priority, p)
  {
    var c := s.P(p).affinity;
    var k := Find(s.C(c).ready, p, 0);
    assert ReadyMember(s, p);
    if k < PRIORITY_MAX {
      assert QueueOk(s, c, k);
      DropReadyKeeps(s, f, away, p);
    }
  }

  // ---------------------------------------------------------------- kernel entries keep the invariant

  /** The process a core runs belongs to that core, is ready, and awaits no reply. */
  lemma Running(s: State, c: CoreId, p: Pid)
    requires Good(s) && s.C(c).current == Some(p)
    ensures Runnable(s.P(p)) && s.P(p).affinity == c
    ensures !s.P(p).inReady && s.P(p).ipcPort.None? && s.P(p).ntfPort.None? && s.P(p).srcTarget.None?
  {
    assert CoreOk(s, None, c) && PlaceOk(s, {}, None, p) && ReplyOk(s, p);
  }

  /** The running process goes to the back of its queue, or the idle process looks for work. */
  lemma RequeueKeeps(s: State, c: CoreId, p: Pid)
    requires Good(s) && s.C(c).current == Some(p)
    ensures Inv(MarkScheduled(s, p), {}, Some(c))
  {
    Running(s, c, p);
    Leave(s, {}, c, p);
    MarkScheduledKeeps(s, {} + {p}, Some(c), p);
    assert {} + {p} - {p} == {};
  }

  lemma YieldKeeps(s: State, c: CoreId)
    requires Good(s)
    ensures Good(Yield(s, c))
  {
    match s.C(c).current
    case None =>
      IdleQuantumKeeps(s, {}, None, c, QUANTUM_MAX);
      LeaveIdle(s.SetC(c, s.C(c).(idleQuantum := QUANTUM_MAX)), {}, c);
      SwitchAwayKeeps(s.SetC(c, s.C(c).(idleQuantum := QUANTUM_MAX)), {}, c);
    case Some(p) =>
      RequeueKeeps(s, c, p);
      SwitchAwayKeeps(MarkScheduled(s, p), {}, c);
  }

  lemma TimerKeeps(s: State, c: CoreId)
    requires Good(s)
    ensures Good(Timer(s, c))
  {
    match s.C(c).current
    case None => IdleTimerKeeps(s, c);
    case Some(p) =>
      Running(s, c, p);
      ProcessTimerKeeps(s, c, p);
  }

  lemma IdleTimerKeeps(s: State, c: CoreId)
    requires Good(s) && s.C(c).current.None?
    ensures Good(Timer(s, c))
  {
    var s1 := s.SetC(c, s.C(c).(idleQuantum := s.C(c).idleQuantum - 1));
    IdleQuantumKeeps(s, {}, None, c, s.C(c).idleQuantum - 1);
    if s1.C(c).idleQuantum <= 0 {
      YieldKeeps(s1, c);
    }
  }

  lemma ProcessTimerKeeps(s: State, c: CoreId, p: Pid)
    requires Good(s) && s.C(c).current == Some(p) && s.P(p).status == Ready
    ensures Good(Timer(s, c))
  {
    var s1 := s.SetP(p, s.P(p).(quantum := s.P(p).quantum - 1));
    QuantumKeeps(s, {}, None, p, s.P(p).quantum - 1);
    if s1.P(p).quantum <= 0 {
      YieldKeeps(s1, c);
    }
  }

  lemma RescheduleKeeps(s: State, c: CoreId)
    requires Good(s)
    ensures Good(RescheduleIpi(s, c))
  {
    var target := s.C(c).pending;
    var s1 := SetPending(s, c, None);
    SetPendingKeeps(s, {}, None, c, None);
    var s2 :=
      match s1.C(c).current
      case None => s1.SetC(c, s1.C(c).(idleQuantum := QUANTUM_MAX))
      case Some(p) => MarkScheduled(s1, p);
    assert Inv(s2, {}, Some(c)) by {
      if s1.C(c).current.None? {
        IdleQuantumKeeps(s1, {}, None, c, QUANTUM_MAX);
        LeaveIdle(s2, {}, c);
      } else {
        RequeueKeeps(s1, c, s1.C(c).current.value);
      }
    }
    if s1.C(c).current.Some? {
      Running(s1, c, s1.C(c).current.value);
    }
    if target.Some? && s2.P(target.value).affinity == c
       && s2.P(target.value).status == Ready && s2.P(target.value).inReady {
      RemoveKeeps(s2, {}, Some(c), target.value);
      DropReadyKeeps(s2, {}, Some(c), target.value);
      SwitchKeeps(RemoveProcess(s2, c, target.value), {} + {target.value}, c, target.value);
      assert {} + {target.value} - {target.value} == {};
    } else {
      SwitchAwayKeeps(s2, {}, c);
    }
  }
}
