/** Whose turn it is after a dispatch, a timer tick, a reschedule interrupt and a wakeup. */
module Turns {
  import opened Common
  import opened KernelState
  import opened ReadyQueues
  import opened KernelPrimitives
  import opened ProcessManager
  import opened IpcPort
  import opened IpcInvariant
  import opened NotificationPort
  import opened KernelProperties

  // ---------------------------------------------------------------- dispatching

  /** The process that has waited longest in the most urgent queue. */
  ghost predicate First(core: Core, p: Pid, k: Priority) {
    core.ready[k] != [] && core.ready[k][0] == p && forall i: Priority :: i > k ==> core.ready[i] == []
  }

  ghost predicate NothingReady(core: Core) {
    forall i: Priority :: core.ready[i] == []
  }

  /** Core `c` took the first process out of its queue and runs it, or idles since nothing is ready. */
  ghost predicate Dispatched(s: State, t: State, c: CoreId) {
    && t.ports == s.ports && t.ntfs == s.ntfs && t.coreCount == s.coreCount
    && t.cores == s.cores[c := s.C(c).(current := t.C(c).current, ready := t.C(c).ready, highest := t.C(c).highest)]
    && match t.C(c).current
       case None => NothingReady(s.C(c)) && t.procs == s.procs && t.C(c).ready == s.C(c).ready
       case Some(p) =>
         && First(s.C(c), p, s.P(p).priority)
         && t.procs == s.procs[p := s.P(p).(inReady := false)]
         && t.C(c).ready == s.C(c).ready[s.P(p).priority := s.C(c).ready[s.P(p).priority][1..]]
  }

  lemma DispatchEffect(s: State, c: CoreId)
    requires ReadySeats(s)
    ensures Dispatched(s, TryScheduleAndSwitch(s, c), c)
  {
    var k := Top(s.C(c).ready, s.C(c).highest);
    forall i: Priority ensures i > s.C(c).highest ==> s.C(c).ready[i] == [] { assert QueueOk(s, c, i); }
    if k >= 0 {
      assert s.C(c).ready[k][0] in s.C(c).ready[k] && QueueOk(s, c, k);
      assert First(s.C(c), s.C(c).ready[k][0], k);
    }
  }

  ghost predicate NothingAbove(core: Core, k: Priority) {
    forall i: Priority :: i > k ==> core.ready[i] == []
  }

  /**
   A direct switch on the process's own core: it runs at once if nothing more urgent is ready, ahead of its peers, and
   the queues stay as they are; otherwise it stands last among its peers and the first ready process runs.
   */
  lemma DirectEffect(s: State, c: CoreId, p: Pid)
    requires ReadySeats(s) && !s.P(p).inReady && s.P(p).status == Ready && s.P(p).affinity == c
    ensures var t := TryDirectScheduleAndSwitch(s, c, p); var k := s.P(p).priority;
      if NothingAbove(s.C(c), k) then t == s.SetC(c, s.C(c).(current := Some(p), highest := t.C(c).highest))
      else Dispatched(Requeued(s, c, p, s.P(p).quantum), t, c) && t.C(c).current != Some(p)
  {
    var k := s.P(p).priority;
    forall i: Priority ensures i > s.C(c).highest ==> s.C(c).ready[i] == [] { assert QueueOk(s, c, i); }
    if !NothingAbove(s.C(c), k) {
      var h := Tighten(s.C(c).ready, s.C(c).highest, k);
      TightenedSeats(s, c, h);
      OutrankedWaits(s, c, p, h);
    }
  }

  lemma TightenedSeats(s: State, c: CoreId, h: Priority)
    requires ReadySeats(s) && forall i :: h < i <= s.C(c).highest ==> s.C(c).ready[i] == []
    ensures ReadySeats(SetHighest(s, c, h))
  {
    var t := SetHighest(s, c, h);
    forall d: CoreId, i: Priority ensures QueueOk(t, d, i) { assert QueueOk(s, d, i); }
    forall o: Pid ensures ReadyMember(t, o) { assert ReadyMember(s, o); }
  }

  lemma OutrankedWaits(s: State, c: CoreId, p: Pid, h: Priority)
    requires ReadySeats(SetHighest(s, c, h)) && !s.P(p).inReady && s.P(p).status == Ready && s.P(p).affinity == c
    requires s.P(p).priority < h <= s.C(c).highest && s.C(c).ready[h] != [] && h == Tighten(s.C(c).ready, s.C(c).highest, s.P(p).priority)
    ensures var t := TryDirectScheduleAndSwitch(s, c, p);
      Dispatched(Requeued(s, c, p, s.P(p).quantum), t, c) && t.C(c).current != Some(p)
  {
    var s1 := SetHighest(s, c, h);
    var s2 := Enqueue(s1, p);
    EnqueueSeats(s1, p);
    DispatchEffect(s2, c);
    assert s2.C(c).ready[h] == s.C(c).ready[h] && Top(s2.C(c).ready, s2.C(c).highest) >= h;
    var t := TryScheduleAndSwitch(s2, c);
    assert t == TryDirectScheduleAndSwitch(s, c, p);
    assert t.cores == s.cores[c := s.C(c).(current := t.C(c).current, ready := t.C(c).ready, highest := t.C(c).highest)];
  }

  // ---------------------------------------------------------------- timer

  /** `p` stands last among its peers on core `c`, with `n` left of its quantum. */
  ghost function Requeued(s: State, c: CoreId, p: Pid, n: int): State {
    var k := s.P(p).priority;
    s.SetC(c, s.C(c).(ready := s.C(c).ready[k := s.C(c).ready[k] + [p]],
                      highest := if k > s.C(c).highest then k else s.C(c).highest))
     .SetP(p, s.P(p).(quantum := n, inReady := true))
  }

  lemma RequeueIs(s: State, c: CoreId, p: Pid)
    requires Good(s) && s.C(c).current == Some(p)
    ensures MarkScheduled(s, p) == Requeued(s, c, p, QUANTUM_MAX)
  {
    Running(s, c, p);
    assert s.P(p).(quantum := QUANTUM_MAX, status := Ready) == s.P(p).(quantum := QUANTUM_MAX);
    assert s.SetP(p, s.P(p).(quantum := QUANTUM_MAX)).procs[p := s.P(p).(quantum := QUANTUM_MAX, inReady := true)]
        == s.procs[p := s.P(p).(quantum := QUANTUM_MAX, inReady := true)];
  }

  ghost function IdleRefilled(s: State, c: CoreId): State {
    s.SetC(c, s.C(c).(idleQuantum := QUANTUM_MAX))
  }

  /** YIELD: the caller goes behind its peers with a full quantum, and the first ready process runs. */
  lemma YieldEffect(s: State, c: CoreId)
    requires Good(s)
    ensures Dispatched(Refilled(s, c), Yield(s, c), c)
  {
    match s.C(c).current
    case None =>
      IdleQuantumKeeps(s, {}, None, c, QUANTUM_MAX);
      DispatchEffect(IdleRefilled(s, c), c);
    case Some(p) =>
      RequeueIs(s, c, p);
      RequeueKeeps(s, c, p);
      DispatchEffect(MarkScheduled(s, p), c);
  }

  /** What is left of the quantum of whatever core `c` runs. */
  ghost function Quantum(s: State, c: CoreId): int {
    if s.C(c).current.None? then s.C(c).idleQuantum else s.P(s.C(c).current.value).quantum
  }

  ghost function WithQuantum(s: State, c: CoreId, n: int): State {
    match s.C(c).current
    case None => s.SetC(c, s.C(c).(idleQuantum := n))
    case Some(p) => s.SetP(p, s.P(p).(quantum := n))
  }

  /** The state after whatever core `c` runs went to the back with a full quantum. */
  ghost function Refilled(s: State, c: CoreId): State {
    match s.C(c).current
    case None => IdleRefilled(s, c)
    case Some(p) => Requeued(s, c, p, QUANTUM_MAX)
  }

  /** A tick takes one from the quantum and nothing else; with a used-up quantum the core yields. */
  lemma TimerEffect(s: State, c: CoreId)
    requires Good(s)
    ensures Quantum(s, c) > 1 ==> Timer(s, c) == WithQuantum(s, c, Quantum(s, c) - 1)
    ensures Quantum(s, c) <= 1 ==> Dispatched(Refilled(s, c), Timer(s, c), c)
  {
    match s.C(c).current
    case None => if s.C(c).idleQuantum <= 1 { IdleTimerEffect(s, c); }
    case Some(p) =>
      Running(s, c, p);
      if s.P(p).quantum <= 1 { ProcessTimerEffect(s, c, p); }
  }

  lemma IdleTimerEffect(s: State, c: CoreId)
    requires Good(s) && s.C(c).current.None? && s.C(c).idleQuantum <= 1
    ensures Dispatched(IdleRefilled(s, c), Timer(s, c), c)
  {
    var s1 := s.SetC(c, s.C(c).(idleQuantum := s.C(c).idleQuantum - 1));
    assert IdleRefilled(s1, c).cores == IdleRefilled(s, c).cores;
    IdleQuantumKeeps(s, {}, None, c, s.C(c).idleQuantum - 1);
    CountedEffect(s1, c, s1.C(c).idleQuantum);
  }

  lemma ProcessTimerEffect(s: State, c: CoreId, p: Pid)
    requires Good(s) && s.C(c).current == Some(p) && s.P(p).quantum <= 1
    ensures Dispatched(Requeued(s, c, p, QUANTUM_MAX), Ticked(s, c, p), c)
  {
    var s1 := s.SetP(p, s.P(p).(quantum := s.P(p).quantum - 1));
    QuantumKeeps(s, {}, None, p, s.P(p).quantum - 1);
    RequeuedTwice(s, c, p, s.P(p).quantum - 1);
    CountedEffect(s1, c, s1.P(p).quantum);
  }

  lemma CountedEffect(s: State, c: CoreId, n: int)
    requires Good(s) && n <= 0
    ensures Dispatched(Refilled(s, c), Counted(s, c, n), c)
  {
    YieldEffect(s, c);
  }

  /** What was left of the quantum does not matter to a process that is queued again. */
  lemma RequeuedTwice(s: State, c: CoreId, p: Pid, n: int)
    ensures Requeued(s.SetP(p, s.P(p).(quantum := n)), c, p, QUANTUM_MAX) == Requeued(s, c, p, QUANTUM_MAX)
  {
    var r := s.P(p).(quantum := QUANTUM_MAX, inReady := true);
    assert s.procs[p := s.P(p).(quantum := n)][p := r] == s.procs[p := r];
  }

  /** A process that gives up its turn stands behind its peers, or runs on since nothing as urgent is ready. */
  ghost predicate GaveWay(s: State, t: State, c: CoreId, p: Pid) {
    var k := s.P(p).priority;
    if t.C(c).current == Some(p) then forall i: Priority :: i >= k ==> s.C(c).ready[i] == []
    else t.C(c).ready[k] != [] && t.C(c).ready[k][|t.C(c).ready[k]| - 1] == p
  }

  /** At the end of its quantum a process gives way to its peers, and to nothing less urgent. */
  lemma QuantumEnds(s: State, c: CoreId, p: Pid)
    requires Good(s) && s.C(c).current == Some(p) && s.P(p).quantum <= 1
    ensures var t := Timer(s, c); Urgent(t, c) && t.P(p).quantum == QUANTUM_MAX && GaveWay(s, t, c, p)
  {
    TimerEffect(s, c);
    Running(s, c, p);
    BehindPeers(s, Timer(s, c), c, p);
  }

  lemma BehindPeers(s: State, t: State, c: CoreId, p: Pid)
    requires Good(s) && !s.P(p).inReady && Dispatched(Requeued(s, c, p, QUANTUM_MAX), t, c)
    ensures Urgent(t, c) && t.P(p).quantum == QUANTUM_MAX && GaveWay(s, t, c, p)
  {
    var k := s.P(p).priority;
    var s1 := Requeued(s, c, p, QUANTUM_MAX);
    var line := s.C(c).ready[k] + [p];
    assert s1.C(c).ready[k] == line && line[|line| - 1] == p;
    assert p !in s.C(c).ready[k] by { assert QueueOk(s, c, k); }
    var o := t.C(c).current.value;
    var top := s1.P(o).priority;
    forall i: Priority | i > top ensures t.C(c).ready[i] == [] { assert s1.C(c).ready[i] == []; }
    if o == p {
      assert line[0] == p;
      forall i: Priority | i >= k ensures s.C(c).ready[i] == [] { assert i > k ==> s1.C(c).ready[i] == s.C(c).ready[i]; }
    } else if top == k {
      assert line[0] != p && t.C(c).ready[k] == line[1..] && line[1..][|line| - 2] == p;
    } else {
      assert t.C(c).ready[k] == line;
    }
  }

  /** A tick in the middle of a remote stop: a process that is no longer ready loses its core and is not queued again. */
  lemma TimerLeavesStopped(s: State, c: CoreId, p: Pid)
    requires s.C(c).current == Some(p) && s.P(p).status != Ready && forall k: Priority :: p !in s.C(c).ready[k]
    ensures var t := Timer(s, c);
      t.C(c).current != Some(p) && t.P(p) == s.P(p) && forall k: Priority :: p !in t.C(c).ready[k]
  {
    var top := Top(s.C(c).ready, s.C(c).highest);
    if top >= 0 { assert s.C(c).ready[top][0] in s.C(c).ready[top]; }
  }

  // ---------------------------------------------------------------- reschedule interrupts

  /** The state in which a reschedule interrupt chooses: the interrupted process is queued again. */
  ghost function Interrupted(s: State, c: CoreId): State {
    var s1 := SetPending(s, c, None);
    match s.C(c).current
    case None => IdleRefilled(s1, c)
    case Some(p) => Requeued(s1, c, p, QUANTUM_MAX)
  }

  lemma InterruptedKeeps(s: State, c: CoreId)
    requires Good(s)
    ensures Inv(Interrupted(s, c), {}, Some(c))
  {
    var s1 := SetPending(s, c, None);
    SetPendingKeeps(s, {}, None, c, None);
    match s.C(c).current
    case None =>
      IdleQuantumKeeps(s1, {}, None, c, QUANTUM_MAX);
      LeaveIdle(IdleRefilled(s1, c), {}, c);
    case Some(p) =>
      RequeueIs(s1, c, p);
      RequeueKeeps(s1, c, p);
  }

  /** The announced process runs at once if it can; otherwise the first ready one does. */
  lemma RescheduleEffect(s: State, c: CoreId)
    requires Good(s)
    ensures var t := RescheduleIpi(s, c); var s1 := Interrupted(s, c);
      match s.C(c).pending
      case Some(p) =>
        if s.P(p).status == Ready then
          && t.C(c).current == Some(p) && t.C(c).pending.None?
          && t.procs == s1.procs[p := s1.P(p).(inReady := false)]
          && t.C(c).ready == s1.C(c).ready[s.P(p).priority := Without(s1.C(c).ready[s.P(p).priority], p)]
        else Dispatched(s1, t, c)
      case None => Dispatched(s1, t, c)
  {
    var s1 := Interrupted(s, c);
    InterruptedKeeps(s, c);
    RescheduleIs(s, c);
    DispatchEffect(s1, c);
    if s.C(c).pending.Some? {
      var p := s.C(c).pending.value;
      if s.P(p).status == Ready { AnnouncedRuns(s1, c, p); }
    }
  }

  lemma AnnouncedRuns(s: State, c: CoreId, p: Pid)
    requires Inv(s, {}, Some(c)) && s.P(p).affinity == c && s.P(p).inReady
    ensures var t := SwitchTo(RemoveProcess(s, c, p), c, Some(p));
      && t.C(c).current == Some(p) && t.C(c).pending == s.C(c).pending && t.procs == s.procs[p := s.P(p).(inReady := false)]
      && t.C(c).ready == s.C(c).ready[s.P(p).priority := Without(s.C(c).ready[s.P(p).priority], p)]
  {
    RemoveKeeps(s, {}, Some(c), p);
  }

  /** The announced process is taken exactly when it is ready. */
  lemma RescheduleIs(s: State, c: CoreId)
    requires Good(s)
    ensures var s1 := Interrupted(s, c);
      match s.C(c).pending
      case Some(p) =>
        && s1.P(p).affinity == c && (s.P(p).status == Ready ==> s1.P(p).inReady) && s1.P(p).priority == s.P(p).priority
        && RescheduleIpi(s, c) ==
             if s.P(p).status == Ready then SwitchTo(RemoveProcess(s1, c, p), c, Some(p)) else TryScheduleAndSwitch(s1, c)
      case None => RescheduleIpi(s, c) == TryScheduleAndSwitch(s1, c)
  {
    var s1 := Interrupted(s, c);
    InterruptedIs(s, c);
    if s.C(c).pending.Some? {
      var p := s.C(c).pending.value;
      InterruptedKeeps(s, c);
      assert CoreOk(s, None, c) && PlaceOk(s1, {}, Some(c), p);
      assert s1.P(p).affinity == s.P(p).affinity && s1.P(p).status == s.P(p).status;
    }
  }

  lemma InterruptedIs(s: State, c: CoreId)
    requires Good(s)
    ensures var s1 := SetPending(s, c, None);
      Interrupted(s, c) ==
        match s1.C(c).current
        case None => s1.SetC(c, s1.C(c).(idleQuantum := QUANTUM_MAX))
        case Some(p) => if s1.P(p).status == Ready then MarkScheduled(s1, p) else s1
  {
    var s1 := SetPending(s, c, None);
    SetPendingKeeps(s, {}, None, c, None);
    if s.C(c).current.Some? {
      Running(s, c, s.C(c).current.value);
      RequeueIs(s1, c, s.C(c).current.value);
    }
  }

  // ---------------------------------------------------------------- wakeups

  /** `p` is ready, last among its peers, with a full quantum; its core is told unless it is `c` or has been told already. */
  lemma RouteEffect(s: State, c: CoreId, p: Pid)
    requires !s.P(p).inReady
    ensures var t := RouteMarkScheduled(s, c, p); var d := s.P(p).affinity; var k := s.P(p).priority;
      && t.procs == s.procs[p := s.P(p).(status := Ready, quantum := QUANTUM_MAX, inReady := true)]
      && t.ports == s.ports && t.ntfs == s.ntfs && (forall e: CoreId :: e != d ==> t.C(e) == s.C(e))
      && t.C(d).ready == s.C(d).ready[k := s.C(d).ready[k] + [p]] && t.C(d).current == s.C(d).current
      && t.C(d).pending == if d != c && s.C(d).pending.None? then Some(p) else s.C(d).pending
  {
    var r := s.P(p).(status := Ready, quantum := QUANTUM_MAX);
    assert s.procs[p := r][p := r.(inReady := true)] == s.procs[p := r.(inReady := true)];
  }

  /** `p` is more urgent than what core `c` runs; the idle process has priority 0. */
  ghost predicate Outranks(s: State, c: CoreId, p: Pid) {
    match s.C(c).current
    case None => s.P(p).priority > 0
    case Some(o) => s.P(p).priority > s.P(o).priority
  }

  /** The running process stands last among its peers, with what is left of its quantum. */
  ghost function SetAside(s: State, c: CoreId): State {
    match s.C(c).current
    case None => s
    case Some(o) => Requeued(s, c, o, s.P(o).quantum)
  }

  lemma SetAsideKeeps(s: State, f: set<Pid>, c: CoreId)
    requires Inv(s, f, None) && (s.C(c).current.Some? ==> s.C(c).current.value !in f)
    ensures Inv(SetAside(s, c), f, Some(c))
    ensures s.C(c).current.Some? ==>
      s.P(s.C(c).current.value).status == Ready && AddProcess(s, s.C(c).current.value) == (SetAside(s, c), Added)
  {
    match s.C(c).current
    case None => LeaveIdle(s, f, c);
    case Some(o) =>
      assert CoreOk(s, None, c) && PlaceOk(s, f, None, o);
      Leave(s, f, c, o);
      EnqueueKeeps(s, f + {o}, Some(c), o);
      assert f + {o} - {o} == f;
      assert Enqueue(s, o) == SetAside(s, c);
  }

  /** A woken process preempts exactly what it outranks. */
  lemma PreemptEffect(s: State, f: set<Pid>, c: CoreId, p: Pid)
    requires Inv(s, f, None) && (s.C(c).current.Some? ==> s.C(c).current.value !in f)
    ensures var t := ScheduleIfPreemptedBy(s, c, p);
      && (Outranks(s, c, p) ==> Dispatched(SetAside(s, c), t, c) && Urgent(t, c))
      && (!Outranks(s, c, p) ==> t == s)
  {
    if Outranks(s, c, p) {
      SetAsideKeeps(s, f, c);
      DispatchEffect(SetAside(s, c), c);
      DispatchIsUrgent(SetAside(s, c), f, Some(c), c);
    }
  }

  /** A core that runs the most urgent process still does after a wakeup, unless it idles and only priority 0 was woken. */
  lemma WakeIsUrgent(s: State, c: CoreId, p: Pid)
    requires Inv(s, {} + {p}, None) && !s.P(p).srcWait && s.P(p).fault == NoFault && Urgent(s, c)
    ensures Urgent(RouteMarkScheduledPreempting(s, c, p), c) <==>
      !(s.C(c).current.None? && s.P(p).affinity == c && s.P(p).priority == 0)
  {
    var s1 := MarkScheduled(s, p);
    assert PlaceOk(s, {} + {p}, None, p);
    MarkScheduledKeeps(s, {} + {p}, None, p);
    assert {} + {p} - {p} == {};
    var k := s.P(p).priority;
    assert s1.C(s.P(p).affinity).ready == s.C(s.P(p).affinity).ready[k := s.C(s.P(p).affinity).ready[k] + [p]];
    if s.P(p).affinity == c {
      PreemptEffect(s1, {}, c, p);
      assert s.C(c).current != Some(p);
      if !Outranks(s1, c, p) && s.C(c).current.None? { assert s1.C(c).ready[k] != []; }
    }
  }

  /** The state just before the recipient of a notification is made ready. */
  ghost function Told(s: State, cap: Cap, p: Pid): State {
    var n := cap.port;
    var bits := s.N(n).flag + cap.identifier;
    if s.N(n).bound == Some(p) && s.P(p).status == BlockedReceive && s.P(p).ipcPort.Some? then
      var s1 := ConsumeBits(NotifyBits(RemoveIpc(s, p), n, cap.identifier), n, p);
      var s2 := SetRegs(s1, p, s1.P(p).regs[MR_MESSAGE_INFO := {14}][MR_IDENTIFIER := bits]);
      s2.SetP(p, s2.P(p).(status := Ready, ipcPort := None, ntfPort := None))
    else if s.N(n).queue != [] then
      var s1 := ConsumeBits(NotifyBits(PopNtf(s, n), n, cap.identifier), n, p);
      SetRegs(s1, p, s1.P(p).regs[MR_FLAG_WORD := bits])
    else s
  }

  lemma NotifyIs(s: State, c: CoreId, cap: Cap, p: Pid)
    requires Good(s) && cap.writable && Recipient(s, cap.port) == Some(p)
    ensures Notify(s, c, cap).0 == RouteMarkScheduledPreempting(Told(s, cap, p), c, p)
  {
    var n := cap.port;
    if s.N(n).bound == Some(p) && s.P(p).status == BlockedReceive {
      assert PlaceOk(s, {}, None, p);
      WakeBoundIs(s, c, cap, p);
    } else {
      assert NtfOk(s, n);
      WakeWaiterIs(s, c, cap, p);
    }
  }

  lemma WakeBoundIs(s: State, c: CoreId, cap: Cap, p: Pid)
    requires cap.writable && s.N(cap.port).bound == Some(p) && s.P(p).status == BlockedReceive && s.P(p).ipcPort.Some?
    ensures Notify(s, c, cap).0 == RouteMarkScheduledPreempting(Told(s, cap, p), c, p)
  {
    var n := cap.port;
    assert ConsumeBits(NotifyBits(RemoveIpc(s, p), n, cap.identifier), n, p)
        == ConsumeBits(RemoveIpc(NotifyBits(s, n, cap.identifier), p), n, p);
    assert Notify(s, c, cap) == WakeBound(NotifyBits(s, n, cap.identifier), c, n, p);
  }

  lemma WakeWaiterIs(s: State, c: CoreId, cap: Cap, p: Pid)
    requires cap.writable && s.N(cap.port).queue != [] && p == s.N(cap.port).queue[0] && s.N(cap.port).readyToWake
    requires s.N(cap.port).bound.Some? ==> s.P(s.N(cap.port).bound.value).status != BlockedReceive
    ensures Notify(s, c, cap).0 == RouteMarkScheduledPreempting(Told(s, cap, p), c, p)
  {
    var n := cap.port;
    assert ConsumeBits(NotifyBits(PopNtf(s, n), n, cap.identifier), n, p).ntfs
        == ConsumeBits(PopNtf(NotifyBits(s, n, cap.identifier), n), n, p).ntfs;
  }

  lemma BoundTold(s: State, cap: Cap, p: Pid)
    requires Good(s) && s.N(cap.port).bound == Some(p) && s.P(p).status == BlockedReceive
    ensures var t := Told(s, cap, p); Inv(t, {} + {p}, None) && !t.P(p).srcWait && t.P(p).fault == NoFault
  {
    var n, bits := cap.port, cap.identifier;
    assert PlaceOk(s, {}, None, p);
    RemoveIpcKeeps(s, {}, None, p);
    var f := {} + {p};
    NotifyConsumeKeeps(RemoveIpc(s, p), f, None, n, bits, p);
    var s1 := ConsumeBits(NotifyBits(RemoveIpc(s, p), n, bits), n, p);
    var regs := s1.P(p).regs[MR_MESSAGE_INFO := {14}][MR_IDENTIFIER := s.N(n).flag + bits];
    RegsKeep(s1, f, None, p, regs);
    var s2 := SetRegs(s1, p, regs);
    Touch(s2, f, None, p, s2.P(p).(status := Ready, ipcPort := None, ntfPort := None));
  }

  lemma WaiterTold(s: State, cap: Cap, p: Pid)
    requires Good(s) && s.N(cap.port).queue != [] && p == s.N(cap.port).queue[0] && s.P(p).status != BlockedReceive
    ensures var t := Told(s, cap, p); Inv(t, {} + {p}, None) && !t.P(p).srcWait && t.P(p).fault == NoFault
  {
    var n := cap.port;
    assert NtfOk(s, n) && p in s.N(n).queue && PlaceOk(s, {}, None, p);
    PopNtfKeeps(s, {}, None, n);
    var f := {} + {p};
    NotifyConsumeKeeps(PopNtf(s, n), f, None, n, cap.identifier, p);
    RegsKeep(ConsumeBits(NotifyBits(PopNtf(s, n), n, cap.identifier), n, p), f, None, p, Told(s, cap, p).P(p).regs);
  }

  /** Being told changes nobody's urgency. */
  lemma ToldIsUrgent(s: State, c: CoreId, cap: Cap, p: Pid)
    requires Urgent(s, c)
    ensures var t := Told(s, cap, p);
      Urgent(t, c) && t.C(c).current == s.C(c).current && t.P(p).priority == s.P(p).priority && t.P(p).affinity == s.P(p).affinity
  {
    var t := Told(s, cap, p);
    assert t.cores == s.cores;
    forall o: Pid ensures t.P(o).priority == s.P(o).priority {}
  }

  /** Core `c` idles, and whom the notification wakes there does not outrank the idle process. */
  ghost predicate Overlooked(s: State, c: CoreId, cap: Cap) {
    && cap.writable && s.C(c).current.None? && Recipient(s, cap.port).Some?
    && var r := s.P(Recipient(s, cap.port).value); r.affinity == c && r.priority == 0
  }

  /**
   A core that runs the most urgent process still does after a notification on it. The one exception is an
   idle core whose wakeup has priority 0: the idle process is not outranked and goes on.
   */
  lemma NotifyStaysUrgent(s: State, c: CoreId, cap: Cap)
    requires Good(s) && Urgent(s, c)
    ensures Urgent(Notify(s, c, cap).0, c) <==> !Overlooked(s, c, cap)
  {
    if cap.writable && Recipient(s, cap.port).Some? {
      var p := Recipient(s, cap.port).value;
      NotifyIs(s, c, cap, p);
      RecipientTold(s, cap, p);
      ToldIsUrgent(s, c, cap, p);
      WakeIsUrgent(Told(s, cap, p), c, p);
    } else {
      NotifyKeeps(s, c, cap);
      StillUrgent(s, NotifyBits(s, cap.port, cap.identifier), c);
    }
  }

  lemma StillUrgent(s: State, t: State, c: CoreId)
    requires t.cores == s.cores && t.procs == s.procs
    ensures Urgent(t, c) == Urgent(s, c)
  {
  }

  lemma RecipientTold(s: State, cap: Cap, p: Pid)
    requires Good(s) && Recipient(s, cap.port) == Some(p)
    ensures var t := Told(s, cap, p); Inv(t, {} + {p}, None) && !t.P(p).srcWait && t.P(p).fault == NoFault
  {
    var n := cap.port;
    if s.N(n).bound == Some(p) && s.P(p).status == BlockedReceive {
      BoundTold(s, cap, p);
    } else {
      assert NtfOk(s, n) && p in s.N(n).queue && PlaceOk(s, {}, None, p);
      WaiterTold(s, cap, p);
    }
  }
}
