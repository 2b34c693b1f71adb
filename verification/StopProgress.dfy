/**
 A stop gets done: the stopper's request reaches the core that runs the process, and in every interleaving in
 which the core that the protocol waits for gets its turns, the stopper ends up with the process stopped.
 */
module StopProgress {
  import opened Common
  import opened StopProtocol

  /** What the stopper does next. */
  function NextStep(w: Phase): Action {
    match w
    case Comparing(_, _, _) => Compare
    case Sending(_, _, _) => Send(true)
    case Naming(_, _, _) => Name
    case Requesting(_, _, _) => Ask
    case Awaiting(_, _, _) => Poll
    case _ => Reset
  }

  /** A process that runs on another core: four steps later that core is asked to stop it, and nothing else happened. */
  lemma StopAsks(m: Machine, c: CoreId, cause: Cause, ran: bool, p: Pid)
    requires Good(m) && m.C(c).phase == Comparing(cause, ran, p)
    requires m.P(p).affinity != c && m.C(m.P(p).affinity).current == Some(p)
    ensures var t := Step(Step(Step(Step(m, c, Compare), c, Send(true)), c, Name), c, Ask); var d := m.P(p).affinity;
      && t.C(c).phase == Awaiting(cause, ran, p) && t.C(d).request == Request(p, Pending)
      && t == m.At(c, t.C(c).phase).SetC(d, m.C(d).(request := Request(p, Pending)))
  {
    var d := m.P(p).affinity;
    var t := Step(Step(Step(Step(m, c, Compare), c, Send(true)), c, Name), c, Ask);
    assert t.cores == m.At(c, t.C(c).phase).SetC(d, m.C(d).(request := Request(p, Pending))).cores;
  }

  /** A call that finds the lock free is executed once, and the process and the lock are back. */
  lemma CallRuns(m: Machine, c: CoreId, p: Pid)
    requires m.C(c).phase == User && m.C(c).current == Some(p) && m.holder.None?
    ensures Step(Step(Step(Step(m, c, EnterCall), c, TryLock), c, Execute), c, Leave)
         == m.SetP(p, m.P(p).(pc := m.P(p).pc + CALL_SIZE, executed := m.P(p).executed + 1))
  {
    var r := m.P(p).(pc := m.P(p).pc + CALL_SIZE);
    var t := Step(Step(Step(m, c, EnterCall), c, TryLock), c, Execute);
    assert t.procs == m.procs[p := r][p := r.(executed := r.executed + 1)];
    assert t.procs == m.procs[p := r.(executed := r.executed + 1)];
    assert Step(t, c, Leave).cores == m.cores;
  }

  // ---------------------------------------------------------------- the state of a stop

  /** Core `c` is stopping `p`, which belongs to core `d`; nothing has gone wrong so far. */
  ghost predicate Underway(m: Machine, c: CoreId, d: CoreId, cause: Cause, ran: bool, p: Pid) {
    var w := m.C(c).phase;
    && Good(m) && Stopping(w) && w.cause == cause && w.ran == ran && w.target == p && m.P(p).affinity == d
    && m.C(d).request.state != Failed
    && (m.C(d).phase.Clearing? || m.C(d).phase.Publishing? ==> m.C(d).phase.outcome == Stopped)
    && (w.Resetting? ==> w.outcome == Stopped)
  }

  /** Core `c` is back, with `p` stopped. */
  ghost predicate Finished(m: Machine, c: CoreId, cause: Cause, ran: bool, p: Pid) {
    m.C(c).phase == Inside(cause, ran, Some(p))
  }

  ghost predicate Asked(m: Machine, c: CoreId, d: CoreId) {
    m.C(c).phase.Awaiting? && m.C(d).request.state == Pending
  }

  /** The core the protocol waits for: the addressed one while the request is open, otherwise the stopper. */
  ghost function Whose(m: Machine, c: CoreId, d: CoreId): CoreId {
    if Asked(m, c, d) then d else c
  }

  /** How many more turns that core needs at most. */
  ghost function Remaining(m: Machine, c: CoreId, d: CoreId): nat {
    match m.C(c).phase
    case Comparing(_, _, _) => 13
    case Sending(_, _, _) => 12
    case Naming(_, _, _) => 11
    case Requesting(_, _, _) => 10
    case Awaiting(_, _, _) => if Asked(m, c, d) then 2 + Distance(m.C(d).phase) else 2
    case Resetting(_, _, _, _) => 1
    case _ => 0
  }

  /** A stop that begins finds the addressed core without a request. */
  lemma BeginsUnderway(m: Machine, c: CoreId, cause: Cause, ran: bool, p: Pid)
    requires Good(m) && m.C(c).phase == Comparing(cause, ran, p)
    ensures Underway(m, c, m.P(p).affinity, cause, ran, p)
  {
    assert CoreOk(m, c) && CoreOk(m, m.P(p).affinity);
  }

  // ---------------------------------------------------------------- one move

  lemma StopperMoves(s: Machine, c: CoreId, d: CoreId, cause: Cause, ran: bool, p: Pid)
    requires Underway(s, c, d, cause, ran, p)
    ensures var t := Step(s, c, NextStep(s.C(c).phase));
      || Finished(t, c, cause, ran, p)
      || (Underway(t, c, d, cause, ran, p)
          && Remaining(t, c, d) + (if Whose(s, c, d) == c then 1 else 0) <= Remaining(s, c, d))
  {
    assert CoreOk(s, c) && CoreOk(s, d);
    StepKeeps(s, c, NextStep(s.C(c).phase));
  }

  lemma AddressedMoves(s: Machine, c: CoreId, d: CoreId, cause: Cause, ran: bool, p: Pid)
    requires Underway(s, c, d, cause, ran, p) && c != d
    ensures var t := Step(s, d, Reaction(s.C(d).phase));
      && Underway(t, c, d, cause, ran, p)
      && Remaining(t, c, d) + (if Whose(s, c, d) == d then 1 else 0) <= Remaining(s, c, d)
  {
    assert CoreOk(s, c) && CoreOk(s, d);
    StepKeeps(s, d, Reaction(s.C(d).phase));
  }

  lemma OthersMove(s: Machine, c: CoreId, d: CoreId, cause: Cause, ran: bool, p: Pid, e: CoreId, a: Action)
    requires Underway(s, c, d, cause, ran, p) && e != c && e != d
    ensures var t := Step(s, e, a);
      Underway(t, c, d, cause, ran, p) && Remaining(t, c, d) == Remaining(s, c, d)
  {
    assert CoreOk(s, c) && CoreOk(s, d) && CoreOk(s, e);
    StepKeeps(s, e, a);
  }

  // ---------------------------------------------------------------- every interleaving

  /** While the stop goes on, the stopper carries it on and the addressed core reacts; the others do as they like. */
  ghost predicate Plays(s: Machine, v: Move, c: CoreId, d: CoreId) {
    Stopping(s.C(c).phase) ==>
      && (v.core == c ==> v.action == NextStep(s.C(c).phase))
      && (v.core == d && c != d ==> v.action == Reaction(s.C(d).phase))
  }

  ghost predicate Play(m: Machine, run: seq<Move>, c: CoreId, d: CoreId) {
    forall i :: 0 <= i < |run| ==> Plays(Run(m, run[..i]), run[i], c, d)
  }

  /** How many of the first `i` moves are by the core that the protocol waits for at that point. */
  ghost function Helpful(m: Machine, run: seq<Move>, c: CoreId, d: CoreId, i: nat): nat
    requires i <= |run|
  {
    if i == 0 then 0
    else Helpful(m, run, c, d, i - 1) + if run[i - 1].core == Whose(Run(m, run[..i - 1]), c, d) then 1 else 0
  }

  lemma OneTurn(s: Machine, v: Move, c: CoreId, d: CoreId, cause: Cause, ran: bool, p: Pid)
    requires Underway(s, c, d, cause, ran, p) && Plays(s, v, c, d)
    ensures var t := Step(s, v.core, v.action);
      || Finished(t, c, cause, ran, p)
      || (Underway(t, c, d, cause, ran, p)
          && Remaining(t, c, d) + (if v.core == Whose(s, c, d) then 1 else 0) <= Remaining(s, c, d))
  {
    if v.core == c {
      StopperMoves(s, c, d, cause, ran, p);
      assert CoreOk(s, c) && CoreOk(s, d);
    } else if v.core == d {
      AddressedMoves(s, c, d, cause, ran, p);
    } else {
      OthersMove(s, c, d, cause, ran, p, v.core, v.action);
    }
  }

  lemma {:induction false} EachHelpfulTurnCounts(m: Machine, run: seq<Move>, c: CoreId, d: CoreId, cause: Cause, ran: bool, p: Pid, i: nat)
    requires Underway(m, c, d, cause, ran, p) && Play(m, run, c, d) && i <= |run|
    ensures (exists j :: 0 <= j <= i && Finished(Run(m, run[..j]), c, cause, ran, p))
      || (var t := Run(m, run[..i]);
          Underway(t, c, d, cause, ran, p) && Remaining(t, c, d) + Helpful(m, run, c, d, i) <= Remaining(m, c, d))
    decreases i
  {
    if i == 0 {
      assert run[..0] == [];
    } else {
      EachHelpfulTurnCounts(m, run, c, d, cause, ran, p, i - 1);
      if !(exists j :: 0 <= j <= i - 1 && Finished(Run(m, run[..j]), c, cause, ran, p)) {
        var s := Run(m, run[..i - 1]);
        assert run[..i][..i - 1] == run[..i - 1];
        assert Run(m, run[..i]) == Step(s, run[i - 1].core, run[i - 1].action);
        assert Plays(s, run[i - 1], c, d);
        OneTurn(s, run[i - 1], c, d, cause, ran, p);
        if Finished(Run(m, run[..i]), c, cause, ran, p) { assert Finished(Run(m, run[..i]), c, cause, ran, p); }
      }
    }
  }

  /**
   From the start of a stop, in every interleaving in which the core that the protocol waits for gets thirteen
   turns, whatever the other cores do, there is a point at which the stopper has the process stopped: it runs
   nowhere, is out of scheduling, and its program counter is between calls.
   */
  lemma StopCompletes(m: Machine, run: seq<Move>, c: CoreId, cause: Cause, ran: bool, p: Pid)
    requires Good(m) && m.C(c).phase == Comparing(cause, ran, p)
    requires Play(m, run, c, m.P(p).affinity) && Helpful(m, run, c, m.P(p).affinity, |run|) >= 13
    ensures exists j :: 0 <= j <= |run| && StoppedAt(Run(m, run[..j]), c, cause, ran, p)
  {
    var d := m.P(p).affinity;
    BeginsUnderway(m, c, cause, ran, p);
    EachHelpfulTurnCounts(m, run, c, d, cause, ran, p, |run|);
    if j :| 0 <= j <= |run| && Finished(Run(m, run[..j]), c, cause, ran, p) {
      RunKeeps(m, run[..j]);
      StoppedCleanly(Run(m, run[..j]), c);
      assert StoppedAt(Run(m, run[..j]), c, cause, ran, p);
    }
  }

  ghost predicate StoppedAt(t: Machine, c: CoreId, cause: Cause, ran: bool, p: Pid) {
    && Finished(t, c, cause, ran, p) && Off(t, p) && (forall e: CoreId :: t.C(e).current != Some(p))
    && t.P(p).pc == CALL_SIZE * t.P(p).executed
  }

  lemma {:induction false} RunKeeps(m: Machine, run: seq<Move>)
    requires Good(m)
    ensures Good(Run(m, run))
    decreases |run|
  {
    if run != [] {
      RunKeeps(m, run[..|run| - 1]);
      StepKeeps(Run(m, run[..|run| - 1]), run[|run| - 1].core, run[|run| - 1].action);
    }
  }
}
