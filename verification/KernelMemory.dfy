/**
 The kernel's objects as they lie in memory. Ready queues, IPC queues and notification queues exist
 only as link fields of the processes and as ends held by cores, ports and notification ports. The
 primitives write these fields one after another and are proved to change the abstract state as the
 functions of `KernelPrimitives` and the scheduler functions of `ProcessManager` say.
 */
module KernelMemory {
  import opened Common
  import opened KernelState
  import opened ReadyQueues
  import opened KernelPrimitives
  import opened IntrusiveQueue
  import PM = ProcessManager

  /** A core without its ready queues, and a notification port without its queue and its history. */
  datatype CoreFields = CoreFields(current: Option<Pid>, idleQuantum: int, highest: Priority, pending: Option<Pid>)
  datatype NtfFields = NtfFields(hasFlag: bool, flag: Word, readyToWake: bool, bound: Option<Pid>)

  type PortStates = m: seq<PortState> | |m| == ADDRESSES ghost witness seq(ADDRESSES, i => Wait)
  type NtfTable = m: seq<NtfFields> | |m| == ADDRESSES ghost witness seq(ADDRESSES, i => NtfFields(false, {}, false, None))
  type CoreTable = m: seq<CoreFields> | |m| == CPU_COUNT_MAX
    ghost witness seq(CPU_COUNT_MAX, i => CoreFields(None, QUANTUM_MAX, PRIORITY_MAX - 1, None))

  const READY_QUEUES: nat := CPU_COUNT_MAX * PRIORITY_MAX

  /** The place of a core's ready queue of one priority among all ready queues. */
  function Line(c: CoreId, k: Priority): (i: nat)
    ensures i < READY_QUEUES
  {
    c * PRIORITY_MAX + k
  }

  // ---------------------------------------------------------------- what the memory shows of a state

  ghost function CoreView(core: Core): CoreFields { CoreFields(core.current, core.idleQuantum, core.highest, core.pending) }
  ghost function NtfView(ntf: Ntf): NtfFields { NtfFields(ntf.hasFlag, ntf.flag, ntf.readyToWake, ntf.bound) }

  ghost function StatesOf(ports: Ports): PortStates { seq(ADDRESSES, q requires 0 <= q < ADDRESSES => ports[q].state) }
  ghost function NtfsOf(ntfs: Ntfs): NtfTable { seq(ADDRESSES, n requires 0 <= n < ADDRESSES => NtfView(ntfs[n])) }
  ghost function CoresOf(cores: Cores): CoreTable { seq(CPU_COUNT_MAX, c requires 0 <= c < CPU_COUNT_MAX => CoreView(cores[c])) }

  ghost function IpcQueuesOf(ports: Ports): seq<seq<Pid>> { seq(ADDRESSES, q requires 0 <= q < ADDRESSES => ports[q].queue) }
  ghost function NtfQueuesOf(ntfs: Ntfs): seq<seq<Pid>> { seq(ADDRESSES, n requires 0 <= n < ADDRESSES => ntfs[n].queue) }
  ghost function ReadyQueuesOf(cores: Cores): seq<seq<Pid>> {
    seq(READY_QUEUES, i requires 0 <= i < READY_QUEUES => cores[i / PRIORITY_MAX].ready[i % PRIORITY_MAX])
  }

  /** The fields in which a process says where it is queued agree with the links. */
  ghost predicate Tagged(procs: Procs, ipc: Seats, ntf: Seats, ready: Seats) {
    forall p: Pid :: TaggedAt(procs, ipc, ntf, ready, p)
  }

  ghost predicate TaggedAt(procs: Procs, ipc: Seats, ntf: Seats, ready: Seats, p: Pid) {
    procs[p].ipcPort == ipc[p] && procs[p].ntfPort == ntf[p] && procs[p].inReady == ready[p].Some?
  }

  ghost function Recorded(h: seq<NtfEvent>, event: Option<NtfEvent>): seq<NtfEvent> {
    if event.Some? then h + [event.value] else h
  }

  lemma LineViews(cores: Cores, c: CoreId, k: Priority)
    ensures ReadyQueuesOf(cores)[Line(c, k)] == cores[c].ready[k]
  {
    assert Line(c, k) / PRIORITY_MAX == c && Line(c, k) % PRIORITY_MAX == k;
  }

  lemma LineChanges(cores: Cores, c: CoreId, k: Priority, q: seq<Pid>, h: Priority)
    ensures var core := cores[c].(ready := cores[c].ready[k := q], highest := h);
      && ReadyQueuesOf(cores[c := core]) == ReadyQueuesOf(cores)[Line(c, k) := q]
      && CoresOf(cores[c := core]) == CoresOf(cores)[c := CoresOf(cores)[c].(highest := h)]
  {
    var core := cores[c].(ready := cores[c].ready[k := q], highest := h);
    var a, b := ReadyQueuesOf(cores[c := core]), ReadyQueuesOf(cores)[Line(c, k) := q];
    forall i | 0 <= i < READY_QUEUES ensures a[i] == b[i] { LineIsOnly(c, k, i); }
  }

  lemma LineIsOnly(c: CoreId, k: Priority, i: nat)
    ensures i == Line(c, k) <==> i / PRIORITY_MAX == c && i % PRIORITY_MAX == k
  {
  }

  lemma FieldsChange(cores: Cores, c: CoreId, r: CoreFields)
    ensures var core := cores[c].(current := r.current, idleQuantum := r.idleQuantum, highest := r.highest, pending := r.pending);
      ReadyQueuesOf(cores[c := core]) == ReadyQueuesOf(cores) && CoresOf(cores[c := core]) == CoresOf(cores)[c := r]
  {
  }

  lemma PortChanges(ports: Ports, q: PortId, r: Port)
    ensures IpcQueuesOf(ports[q := r]) == IpcQueuesOf(ports)[q := r.queue]
    ensures StatesOf(ports[q := r]) == StatesOf(ports)[q := r.state]
  {
  }

  lemma NtfChanges(ntfs: Ntfs, n: NtfId, r: Ntf)
    ensures NtfQueuesOf(ntfs[n := r]) == NtfQueuesOf(ntfs)[n := r.queue]
    ensures NtfsOf(ntfs[n := r]) == NtfsOf(ntfs)[n := NtfView(r)]
  {
  }

  lemma Retagged(procs: Procs, ipc: Seats, ntf: Seats, ready: Seats, p: Pid, r: Proc, ipc': Seats, ntf': Seats, ready': Seats)
    requires Tagged(procs, ipc, ntf, ready)
    requires ipc' == ipc[p := r.ipcPort] && ntf' == ntf[p := r.ntfPort]
    requires ready' == ready[p := ready'[p]] && r.inReady == ready'[p].Some?
    ensures Tagged(procs[p := r], ipc', ntf', ready')
  {
    var t: Procs := procs[p := r];
    forall x: Pid ensures TaggedAt(t, ipc', ntf', ready', x) { assert TaggedAt(procs, ipc, ntf, ready, x); }
  }

  // ---------------------------------------------------------------- the memory

  class Kernel {
    var procs: Procs
    var portStates: PortStates
    var ntfs: NtfTable
    var cores: CoreTable
    const coreCount: CoreCount
    const ipc: LinkedQueues
    const ntf: LinkedQueues
    const ready: LinkedQueues
    ghost var s: State

    ghost predicate Valid()
      reads this, ipc, ntf, ready
    {
      && ipc != ntf && ipc != ready && ntf != ready
      && ipc.Valid() && ntf.Valid() && ready.Valid()
      && procs == s.procs && coreCount == s.coreCount
      && portStates == StatesOf(s.ports) && ntfs == NtfsOf(s.ntfs) && cores == CoresOf(s.cores)
      && ipc.contents == IpcQueuesOf(s.ports) && ntf.contents == NtfQueuesOf(s.ntfs)
      && ready.contents == ReadyQueuesOf(s.cores)
      && Tagged(procs, ipc.at, ntf.at, ready.at)
    }

    constructor (coreCount: CoreCount)
      ensures Valid() && fresh(ipc) && fresh(ntf) && fresh(ready) && s == Blank(coreCount)
    {
      this.coreCount := coreCount;
      procs := seq(ADDRESSES, i => NewProc());
      portStates := seq(ADDRESSES, i => Wait);
      ntfs := seq(ADDRESSES, i => NtfFields(false, {}, false, None));
      cores := seq(CPU_COUNT_MAX, i => CoreFields(None, QUANTUM_MAX, PRIORITY_MAX - 1, None));
      ipc := new LinkedQueues(ADDRESSES);
      ntf := new LinkedQueues(ADDRESSES);
      ready := new LinkedQueues(READY_QUEUES);
      s := Blank(coreCount);
      new;
      forall p: Pid ensures TaggedAt(procs, ipc.at, ntf.at, ready.at, p) {}
    }

    method SetProc(p: Pid, r: Proc)
      requires Valid() && r.ipcPort == procs[p].ipcPort && r.ntfPort == procs[p].ntfPort && r.inReady == procs[p].inReady
      modifies this`procs, this`s
      ensures Valid() && s == old(s).SetP(p, r)
    {
      assert TaggedAt(procs, ipc.at, ntf.at, ready.at, p);
      Retagged(procs, ipc.at, ntf.at, ready.at, p, r, ipc.at, ntf.at, ready.at);
      procs := procs[p := r];
      s := s.SetP(p, r);
    }

    method SetCore(c: CoreId, r: CoreFields)
      requires Valid()
      modifies this`cores, this`s
      ensures Valid()
      ensures s == old(s).SetC(c, old(s).C(c).(current := r.current, idleQuantum := r.idleQuantum, highest := r.highest, pending := r.pending))
    {
      FieldsChange(s.cores, c, r);
      cores := cores[c := r];
      s := s.SetC(c, s.C(c).(current := r.current, idleQuantum := r.idleQuantum, highest := r.highest, pending := r.pending));
    }

    method SetPortState(q: PortId, st: PortState)
      requires Valid()
      modifies this`portStates, this`s
      ensures Valid() && s == old(s).SetQ(q, old(s).Q(q).(state := st))
    {
      PortChanges(s.ports, q, s.Q(q).(state := st));
      portStates := portStates[q := st];
      s := s.SetQ(q, s.Q(q).(state := st));
    }

    /** The fields of a notification port; `event` records what happened to the flag word. */
    method SetNtf(n: NtfId, r: NtfFields, ghost event: Option<NtfEvent>)
      requires Valid()
      modifies this`ntfs, this`s
      ensures Valid()
      ensures s == old(s).SetN(n, old(s).N(n).(hasFlag := r.hasFlag, flag := r.flag, readyToWake := r.readyToWake, bound := r.bound,
                                              history := Recorded(old(s).N(n).history, event)))
    {
      ghost var t := s.N(n).(hasFlag := r.hasFlag, flag := r.flag, readyToWake := r.readyToWake, bound := r.bound,
                             history := Recorded(s.N(n).history, event));
      NtfChanges(s.ntfs, n, t);
      ntfs := ntfs[n := r];
      s := s.SetN(n, t);
    }

    // -------------------------------------------------------------- IPC queues

    method PushIpcQueue(q: PortId, st: PortState, p: Pid)
      requires Valid() && s.P(p).ipcPort.None?
      modifies this, ipc
      ensures Valid() && s == PushIpc(old(s), q, st, p)
    {
      assert TaggedAt(procs, ipc.at, ntf.at, ready.at, p);
      ghost var r := procs[p].(ipcPort := Some(q));
      Retagged(procs, ipc.at, ntf.at, ready.at, p, r, ipc.at[p := Some(q)], ntf.at, ready.at);
      PortChanges(s.ports, q, Port(st, s.Q(q).queue + [p]));
      procs := procs[p := procs[p].(ipcPort := Some(q))];
      portStates := portStates[q := st];
      ipc.Push(q, p);
      s := PushIpc(s, q, st, p);
    }

    method PopIpcQueue(q: PortId) returns (head: Option<Pid>)
      requires Valid()
      modifies this, ipc
      ensures Valid()
      ensures old(s).Q(q).queue == [] ==> head.None? && s == old(s)
      ensures old(s).Q(q).queue != [] ==> head == Some(old(s).Q(q).queue[0]) && s == PopIpc(old(s), q)
    {
      PortViews(q);
      head := ipc.Pop(q);
      if head.None? { return; }
      var p := head.value;
      assert TaggedAt(procs, old(ipc.at), ntf.at, ready.at, p);
      ghost var rest := s.Q(q).queue[1..];
      Retagged(procs, old(ipc.at), ntf.at, ready.at, p, procs[p].(ipcPort := None), ipc.at, ntf.at, ready.at);
      PortChanges(s.ports, q, Port(if rest == [] then Wait else s.Q(q).state, rest));
      procs := procs[p := procs[p].(ipcPort := None)];
      if ipc.Head(q).None? { portStates := portStates[q := Wait]; }
      s := PopIpc(s, q);
    }

    method RemoveIpcQueue(q: PortId, p: Pid) returns (ok: bool)
      requires Valid()
      modifies this, ipc
      ensures Valid()
      ensures ok == (old(s).P(p).ipcPort == Some(q))
      ensures s == if ok then RemoveIpc(old(s), p) else old(s)
    {
      if procs[p].ipcPort != Some(q) { return false; }
      assert TaggedAt(procs, ipc.at, ntf.at, ready.at, p);
      PortViews(q);
      ipc.Remove(q, p);
      ghost var rest := Without(s.Q(q).queue, p);
      Retagged(procs, old(ipc.at), ntf.at, ready.at, p, procs[p].(ipcPort := None), ipc.at, ntf.at, ready.at);
      PortChanges(s.ports, q, Port(if rest == [] then Wait else s.Q(q).state, rest));
      procs := procs[p := procs[p].(ipcPort := None)];
      if ipc.Head(q).None? { portStates := portStates[q := Wait]; }
      s := RemoveIpc(s, p);
      ok := true;
    }

    lemma PortViews(q: PortId)
      requires Valid()
      ensures ipc.contents[q] == s.Q(q).queue && portStates[q] == s.Q(q).state && ipc.Head(q) == (if s.Q(q).queue == [] then None else Some(s.Q(q).queue[0]))
    {
    }

    lemma NtfViews(n: NtfId)
      requires Valid()
      ensures ntf.Head(n) == (if s.N(n).queue == [] then None else Some(s.N(n).queue[0]))
    {
    }

    // -------------------------------------------------------------- notification queues

    method PushNotificationQueue(n: NtfId, p: Pid)
      requires Valid() && s.P(p).ntfPort.None?
      modifies this, ntf
      ensures Valid() && s == PushNtf(old(s), n, p)
    {
      assert TaggedAt(procs, ipc.at, ntf.at, ready.at, p);
      Retagged(procs, ipc.at, ntf.at, ready.at, p, procs[p].(ntfPort := Some(n)), ipc.at, ntf.at[p := Some(n)], ready.at);
      NtfChanges(s.ntfs, n, s.N(n).(readyToWake := true, queue := s.N(n).queue + [p]));
      ntfs := ntfs[n := ntfs[n].(readyToWake := true)];
      procs := procs[p := procs[p].(ntfPort := Some(n))];
      ntf.Push(n, p);
      s := PushNtf(s, n, p);
    }

    method PopNotificationQueue(n: NtfId) returns (head: Option<Pid>)
      requires Valid()
      modifies this, ntf
      ensures Valid()
      ensures old(s).N(n).queue == [] ==> head.None? && s == old(s)
      ensures old(s).N(n).queue != [] ==> head == Some(old(s).N(n).queue[0]) && s == PopNtf(old(s), n)
    {
      head := ntf.Pop(n);
      if head.None? { return; }
      var p := head.value;
      assert TaggedAt(procs, ipc.at, old(ntf.at), ready.at, p);
      ghost var rest := s.N(n).queue[1..];
      assert ntf.contents == NtfQueuesOf(s.ntfs)[n := rest];
      Retagged(procs, ipc.at, old(ntf.at), ready.at, p, procs[p].(ntfPort := None), ipc.at, ntf.at, ready.at);
      LeaveNotificationQueue(n, p, rest);
      assert s == PopNtf(old(s), n);
    }

    /** `p` has been unlinked, and `rest` is what the queue holds now. */
    method LeaveNotificationQueue(n: NtfId, p: Pid, ghost rest: seq<Pid>)
      requires ipc != ntf && ipc != ready && ntf != ready && ipc.Valid() && ntf.Valid() && ready.Valid()
      requires procs == s.procs && coreCount == s.coreCount && portStates == StatesOf(s.ports) && ntfs == NtfsOf(s.ntfs)
      requires cores == CoresOf(s.cores) && ipc.contents == IpcQueuesOf(s.ports) && ready.contents == ReadyQueuesOf(s.cores)
      requires ntf.contents == NtfQueuesOf(s.ntfs)[n := rest]
      requires Tagged(procs[p := procs[p].(ntfPort := None)], ipc.at, ntf.at, ready.at)
      modifies this
      ensures Valid()
      ensures s == old(s).SetN(n, old(s).N(n).(readyToWake := old(s).N(n).readyToWake && rest != [], queue := rest))
                         .SetP(p, old(s).P(p).(ntfPort := None))
    {
      NtfChanges(s.ntfs, n, s.N(n).(readyToWake := s.N(n).readyToWake && rest != [], queue := rest));
      procs := procs[p := procs[p].(ntfPort := None)];
      if ntf.Head(n).None? { ntfs := ntfs[n := ntfs[n].(readyToWake := false)]; }
      s := s.SetN(n, s.N(n).(readyToWake := s.N(n).readyToWake && rest != [], queue := rest)).SetP(p, s.P(p).(ntfPort := None));
    }

    method RemoveNotificationQueue(p: Pid)
      requires Valid() && s.P(p).ntfPort.Some?
      modifies this, ntf
      ensures Valid() && s == RemoveNtf(old(s), p)
    {
      var n := procs[p].ntfPort.value;
      assert TaggedAt(procs, ipc.at, ntf.at, ready.at, p);
      ntf.Remove(n, p);
      ghost var rest := Without(s.N(n).queue, p);
      assert ntf.contents == NtfQueuesOf(s.ntfs)[n := rest];
      Retagged(procs, ipc.at, old(ntf.at), ready.at, p, procs[p].(ntfPort := None), ipc.at, ntf.at, ready.at);
      LeaveNotificationQueue(n, p, rest);
      assert s == RemoveNtf(old(s), p);
    }

    // -------------------------------------------------------------- ready queues

    method AddProcess(p: Pid) returns (r: PM.AddResult)
      requires Valid()
      modifies this, ready
      ensures Valid() && (s, r) == PM.AddProcess(old(s), p)
    {
      if procs[p].status != Ready { return PM.InvalidProcess; }
      assert TaggedAt(procs, ipc.at, ntf.at, ready.at, p);
      if procs[p].inReady { return PM.AlreadyQueued; }
      var c, k := procs[p].affinity, procs[p].priority;
      LineViews(s.cores, c, k);
      var h := if k > cores[c].highest then k else cores[c].highest;
      LineChanges(s.cores, c, k, s.C(c).ready[k] + [p], h);
      Retagged(procs, ipc.at, ntf.at, ready.at, p, procs[p].(inReady := true), ipc.at, ntf.at, ready.at[p := Some(Line(c, k))]);
      cores := cores[c := cores[c].(highest := h)];
      ready.Push(Line(c, k), p);
      procs := procs[p := procs[p].(inReady := true)];
      s := Enqueue(s, p);
      r := PM.Added;
    }

    /** The highest priority with a non-empty queue on core `c`, or -1. */
    method TopQueue(c: CoreId) returns (i: int)
      requires Valid()
      ensures i == Top(s.C(c).ready, s.C(c).highest)
    {
      i := cores[c].highest;
      while i >= 0 && ready.Head(Line(c, i)).None?
        invariant -1 <= i <= cores[c].highest && Top(s.C(c).ready, s.C(c).highest) == Top(s.C(c).ready, i)
      {
        LineViews(s.cores, c, i);
        i := i - 1;
      }
      if i >= 0 { LineViews(s.cores, c, i); }
    }

    /** The bound of core `c` lowered over empty queues, but not below `floor`. */
    method LoweredBound(c: CoreId, floor: Priority) returns (h: Priority)
      requires Valid() && floor <= cores[c].highest
      ensures h == Tighten(s.C(c).ready, s.C(c).highest, floor)
    {
      h := cores[c].highest;
      while h > floor && ready.Head(Line(c, h)).None?
        invariant floor <= h <= cores[c].highest
        invariant Tighten(s.C(c).ready, s.C(c).highest, floor) == Tighten(s.C(c).ready, h, floor)
      {
        LineViews(s.cores, c, h);
        h := h - 1;
      }
      LineViews(s.cores, c, h);
    }

    /** The oldest process of the highest non-empty queue leaves it and its priority becomes the bound. */
    method Schedule(c: CoreId) returns (next: Option<Pid>)
      requires Valid()
      modifies this, ready
      ensures Valid() && (s, next) == PM.Schedule(old(s), c)
    {
      var i := TopQueue(c);
      if i < 0 { return None; }
      LineViews(s.cores, c, i);
      next := ready.Pop(Line(c, i));
      var p := next.value;
      assert TaggedAt(procs, ipc.at, ntf.at, old(ready.at), p);
      LineChanges(s.cores, c, i, s.C(c).ready[i][1..], procs[p].priority);
      Retagged(procs, ipc.at, ntf.at, old(ready.at), p, procs[p].(inReady := false), ipc.at, ntf.at, ready.at);
      cores := cores[c := cores[c].(highest := procs[p].priority)];
      procs := procs[p := procs[p].(inReady := false)];
      s := Dequeue(s, c, i);
    }

    /** The queues of core `c` are walked in order until `p` turns up; then the bound is lowered as far as it goes. */
    method RemoveProcess(c: CoreId, p: Pid) returns (found: bool)
      requires Valid()
      modifies this, ready
      ensures Valid() && s == PM.RemoveProcess(old(s), c, p)
      ensures found == (Find(old(s).C(c).ready, p, 0) < PRIORITY_MAX)
    {
      var i := 0;
      while i < PRIORITY_MAX
        invariant 0 <= i <= PRIORITY_MAX && Valid() && s == old(s)
        invariant Find(s.C(c).ready, p, 0) == Find(s.C(c).ready, p, i)
      {
        LineViews(s.cores, c, i);
        found := RemoveFromLine(c, i, p);
        if found {
          var h := LoweredBound(c, 0);
          SetCore(c, cores[c].(highest := h));
          return;
        }
        i := i + 1;
      }
      found := false;
    }

    method RemoveFromLine(c: CoreId, k: Priority, p: Pid) returns (found: bool)
      requires Valid()
      modifies this, ready
      ensures Valid() && found == (p in old(s).C(c).ready[k]) && (!found ==> s == old(s))
      ensures found ==>
        s == old(s).SetC(c, old(s).C(c).(ready := old(s).C(c).ready[k := Without(old(s).C(c).ready[k], p)]))
                   .SetP(p, old(s).P(p).(inReady := false))
    {
      LineViews(s.cores, c, k);
      found := ready.FindAndRemove(Line(c, k), p);
      if found {
        assert TaggedAt(procs, ipc.at, ntf.at, old(ready.at), p);
        ghost var rest := Without(s.C(c).ready[k], p);
        LineChanges(s.cores, c, k, rest, s.C(c).highest);
        Retagged(procs, ipc.at, ntf.at, old(ready.at), p, procs[p].(inReady := false), ipc.at, ntf.at, ready.at);
        procs := procs[p := procs[p].(inReady := false)];
        s := s.SetC(c, s.C(c).(ready := s.C(c).ready[k := rest])).SetP(p, s.P(p).(inReady := false));
      }
    }

    /** `p` may run at once unless something more urgent is queued, which then runs instead. */
    method TryDirectSchedule(c: CoreId, p: Pid) returns (next: Option<Pid>)
      requires Valid()
      modifies this, ready
      ensures Valid() && (s, next) == PM.TryDirectSchedule(old(s), c, p)
    {
      var k := procs[p].priority;
      if k < cores[c].highest {
        var h := LoweredBound(c, k);
        SetCore(c, cores[c].(highest := h));
        if k < h {
          var added := AddProcess(p);
          if added == PM.Added { next := Schedule(c); } else { next := None; }
          return;
        }
      }
      next := if procs[p].inReady then None else Some(p);
    }

    // -------------------------------------------------------------- process manager

    method TryScheduleAndSwitch(c: CoreId)
      requires Valid()
      modifies this, ready
      ensures Valid() && s == PM.TryScheduleAndSwitch(old(s), c)
    {
      var next := Schedule(c);
      SetCore(c, cores[c].(current := next));
    }

    method MarkScheduled(p: Pid)
      requires Valid()
      modifies this, ready
      ensures Valid() && s == PM.MarkScheduled(old(s), p)
    {
      SetProc(p, procs[p].(quantum := QUANTUM_MAX, status := Ready));
      var _ := AddProcess(p);
    }

    method Announce(p: Pid)
      requires Valid()
      modifies this
      ensures Valid() && s == PM.Announce(old(s), p)
    {
      var c := procs[p].affinity;
      if cores[c].pending.None? { SetCore(c, cores[c].(pending := Some(p))); }
    }

    method RouteMarkScheduled(c: CoreId, p: Pid)
      requires Valid()
      modifies this, ready
      ensures Valid() && s == PM.RouteMarkScheduled(old(s), c, p)
    {
      MarkScheduled(p);
      if procs[p].affinity != c { Announce(p); }
    }

    method TryDirectScheduleAndSwitch(c: CoreId, p: Pid)
      requires Valid()
      modifies this, ready
      ensures Valid() && s == PM.TryDirectScheduleAndSwitch(old(s), c, p)
    {
      if procs[p].affinity == c {
        var next := TryDirectSchedule(c, p);
        if next.Some? { SetCore(c, cores[c].(current := next)); }
      } else {
        MarkScheduled(p);
        Announce(p);
        TryScheduleAndSwitch(c);
      }
    }
  }
}
