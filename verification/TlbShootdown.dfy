/**
 Which cores have which address space loaded, and who is told when its tables change. Each root
 table holds a word with one bit per core; a core sets its bit before it loads the root and clears
 its bit in the previous root afterwards. Reading and writing the word are separate accesses, which
 only the giant lock and the stop requests of `StopProtocol` keep apart.
 */
module TlbShootdown {
  import opened Arithmetic
  import opened Common
  import KS = KernelState
  import SP = StopProtocol

  type CoreId = KS.CoreId
  /** The physical address of a root table. */
  type Root = r: nat | r < KS.ADDRESSES

  // ---------------------------------------------------------------- the owner word

  /** Bit `i` of the word is set. */
  predicate Has(w: nat, i: nat)
    decreases i
  {
    if i == 0 then w % 2 == 1 else Has(w / 2, i - 1)
  }

  function SetBit(w: nat, i: nat): nat {
    if Has(w, i) then w else w + Pow2(i)
  }

  function ClearBit(w: nat, i: nat): (r: nat)
    ensures r <= w
  {
    if Has(w, i) then BitWeighs(w, i); w - Pow2(i) else w
  }

  lemma {:induction false} BitWeighs(w: nat, i: nat)
    requires Has(w, i)
    ensures w >= Pow2(i)
    decreases i
  {
    if i > 0 { BitWeighs(w / 2, i - 1); }
  }

  lemma {:induction false} SetBitIs(w: nat, i: nat, j: nat)
    ensures Has(SetBit(w, i), j) <==> j == i || Has(w, j)
    decreases i
  {
    if !Has(w, i) && i > 0 {
      assert SetBit(w, i) / 2 == SetBit(w / 2, i - 1);
      if j > 0 { SetBitIs(w / 2, i - 1, j - 1); }
    }
  }

  lemma {:induction false} ClearBitIs(w: nat, i: nat, j: nat)
    ensures Has(ClearBit(w, i), j) <==> j != i && Has(w, j)
    decreases i
  {
    if Has(w, i) {
      if i > 0 {
        BitWeighs(w / 2, i - 1);
        assert ClearBit(w, i) / 2 == ClearBit(w / 2, i - 1);
        if j > 0 { ClearBitIs(w / 2, i - 1, j - 1); }
      } else {
        assert (w - 1) / 2 == w / 2;
      }
    }
  }

  lemma {:induction false} NoBits(i: nat)
    ensures !Has(0, i)
    decreases i
  {
    if i > 0 { NoBits(i - 1); }
  }

  /** `rest` is `w` without its lowest `n` bits. */
  ghost predicate Shifted(w: nat, n: nat, rest: nat) {
    forall i: nat :: Has(rest, i) == Has(w, n + i)
  }

  lemma ShiftOnce(w: nat, n: nat, rest: nat)
    requires Shifted(w, n, rest)
    ensures Shifted(w, n + 1, rest / 2) && (rest % 2 == 1 <==> Has(w, n))
  {
    assert Has(rest, 0) == Has(w, n + 0);
    forall i: nat ensures Has(rest / 2, i) == Has(w, n + 1 + i) {
      assert Has(rest, i + 1) == Has(w, n + (i + 1));
    }
  }

  lemma ShiftedOut(w: nat, n: nat, i: nat)
    requires Shifted(w, n, 0) && i >= n
    ensures !Has(w, i)
  {
    NoBits(i - n);
    assert Has(0, i - n) == Has(w, n + (i - n));
  }

  /** Below `n`, interrupts went exactly to the marked cores, in ascending order. */
  ghost predicate SentBelow(w: nat, refuses: set<nat>, sent: seq<nat>, n: nat) {
    && (forall i :: 0 <= i < |sent| ==> sent[i] < n)
    && (forall i: nat :: i < n ==> Asked(w, refuses, sent, i))
    && (forall i, j :: 0 <= i < j < |sent| ==> sent[i] < sent[j])
  }

  ghost predicate Asked(w: nat, refuses: set<nat>, sent: seq<nat>, i: nat) {
    (i in sent <==> Has(w, i)) && (Has(w, i) ==> i !in refuses)
  }

  /** Each marked core is interrupted; `refuses` are the cores to which an interrupt cannot be sent. */
  method InterruptEach(w: nat, refuses: set<nat>) returns (sent: seq<nat>, last: Option<nat>)
    ensures last.None? ==> forall i: nat :: Asked(w, refuses, sent, i)
    ensures last.Some? ==> Has(w, last.value) && last.value in refuses && SentBelow(w, refuses, sent, last.value)
    ensures forall i, j :: 0 <= i < j < |sent| ==> sent[i] < sent[j]
  {
    var rest := w;
    sent := [];
    var core := 0;
    while rest != 0
      invariant Shifted(w, core, rest) && SentBelow(w, refuses, sent, core)
      decreases rest
    {
      ShiftOnce(w, core, rest);
      ghost var was := sent;
      if rest % 2 == 1 {
        if core in refuses { return sent, Some(core); }
        sent := sent + [core];
      }
      forall i: nat | i < core + 1 ensures Asked(w, refuses, sent, i) {
        if i < core { assert Asked(w, refuses, was, i); }
      }
      core, rest := core + 1, rest / 2;
    }
    last := None;
    forall i: nat ensures Asked(w, refuses, sent, i) {
      if i >= core { ShiftedOut(w, core, i); } else { assert Asked(w, refuses, sent, i); }
    }
  }

  /** Every owner of the address space but `self` is told to flush, or the caller learns of the failure. */
  method ShootdownRemoteTlb(owners: nat, self: nat, refuses: set<nat>) returns (sent: seq<nat>, ok: bool)
    ensures ok <==> forall i: nat :: Has(owners, i) && i != self ==> i !in refuses
    ensures ok ==> forall i: nat :: i in sent <==> Has(owners, i) && i != self
    ensures self !in sent && Distinct(sent)
  {
    var last;
    ghost var w := ClearBit(owners, self);
    forall i: nat ensures Has(w, i) <==> i != self && Has(owners, i) { ClearBitIs(owners, self, i); }
    sent, last := InterruptEach(ClearBit(owners, self), refuses);
    ok := last.None?;
    forall i: nat | i in sent ensures Has(w, i) { assert Asked(w, refuses, sent, i); }
    if ok {
      forall i: nat ensures i in sent <==> Has(w, i) { assert Asked(w, refuses, sent, i); }
      forall i: nat | Has(w, i) ensures i !in refuses { assert Asked(w, refuses, sent, i); }
    }
  }

  // ---------------------------------------------------------------- cores and roots

  /**
   Where a core is in a context switch or in an update of an address space. Every access to an owner
   word is a step of its own, so `word` is what the core read earlier.
   */
  datatype Phase =
    | Steady
    | Marking(next: Root, word: nat)
    | Joined(next: Root)
    | Moved(previous: Option<Root>)
    | Unmarking(previous: Option<Root>, word: nat)
    | Written(root: Root)
    | Flushed(root: Root)
    | Sending(root: Root, left: nat)

  /** `seen` is the version of the loaded tables as of the last flush; `told` is an undelivered interrupt. */
  datatype Core = Core(loaded: Option<Root>, seen: nat, told: bool, phase: Phase)

  /** `version` counts the changes of the tables under a root; `spread` is the version that every user was last told of. */
  datatype Space = Space(owners: nat, version: nat, spread: nat)

  type Cores = q: seq<Core> | |q| == KS.CPU_COUNT_MAX ghost witness seq(KS.CPU_COUNT_MAX, i => Core(None, 0, false, Steady))
  type Spaces = q: seq<Space> | |q| == KS.ADDRESSES ghost witness seq(KS.ADDRESSES, i => Space(0, 0, 0))

  /** `lock` is the giant lock with its stop requests. */
  datatype Machine = Machine(lock: SP.Machine, cores: Cores, spaces: Spaces)
  {
    function C(c: CoreId): Core { cores[c] }
    function R(r: Root): Space { spaces[r] }
    function SetC(c: CoreId, k: Core): Machine { this.(cores := cores[c := k]) }
    function SetR(r: Root, k: Space): Machine { this.(spaces := spaces[r := k]) }
    function At(c: CoreId, w: Phase): Machine { SetC(c, C(c).(phase := w)) }
  }

  datatype Action =
    | ReadNext(next: Root) | Mark | Load | ReadPrevious | Unmark
    | Write(root: Root) | Flush | Snapshot | SendTo(d: CoreId, sent: bool) | Finish

  function SwitchStep(m: Machine, c: CoreId, a: Action): Machine {
    var k := m.C(c);
    match a
    case ReadNext(next) =>
      if k.phase.Steady? && k.loaded != Some(next) then m.At(c, Marking(next, m.R(next).owners)) else m
    case Mark =>
      if !k.phase.Marking? then m
      else
        var r := k.phase.next;
        m.SetR(r, m.R(r).(owners := SetBit(k.phase.word, c))).At(c, Joined(r))
    case Load =>
      if k.phase.Joined?
      then m.SetC(c, k.(loaded := Some(k.phase.next), seen := m.R(k.phase.next).version, phase := Moved(k.loaded))) else m
    case ReadPrevious =>
      if !k.phase.Moved? then m
      else if k.phase.previous.None? then m.At(c, Steady)
      else m.At(c, Unmarking(k.phase.previous, m.R(k.phase.previous.value).owners))
    case Unmark =>
      if !(k.phase.Unmarking? && k.phase.previous.Some?) then m
      else
        var r := k.phase.previous.value;
        m.SetR(r, m.R(r).(owners := ClearBit(k.phase.word, c))).At(c, Steady)
    case _ => m
  }

  function UpdateStep(m: Machine, c: CoreId, a: Action): Machine {
    var k := m.C(c);
    match a
    case Write(r) =>
      if k.phase.Steady? then m.SetR(r, m.R(r).(version := m.R(r).version + 1)).At(c, Written(r)) else m
    case Flush =>
      if !k.phase.Written? then m
      else
        var r := k.phase.root;
        m.SetC(c, k.(seen := if k.loaded == Some(r) then m.R(r).version else k.seen, phase := Flushed(r)))
    case Snapshot =>
      if k.phase.Flushed? then m.At(c, Sending(k.phase.root, ClearBit(m.R(k.phase.root).owners, c))) else m
    case SendTo(d, sent) =>
      if !(k.phase.Sending? && Has(k.phase.left, d) && d != c) then m
      else if sent then m.At(c, Sending(k.phase.root, ClearBit(k.phase.left, d))).SetC(d, m.C(d).(told := true))
      else m.At(c, Steady)
    case Finish =>
      if !(k.phase.Sending? && k.phase.left == 0) then m
      else
        var r := k.phase.root;
        m.SetR(r, m.R(r).(spread := m.R(r).version)).At(c, Steady)
    case _ => m
  }

  function AccessStep(m: Machine, c: CoreId, a: Action): Machine {
    if a.ReadNext? || a.Mark? || a.Load? || a.ReadPrevious? || a.Unmark? then SwitchStep(m, c, a) else UpdateStep(m, c, a)
  }

  /** A flush needs no lock. */
  function InterruptStep(m: Machine, c: CoreId): Machine {
    var k := m.C(c);
    m.SetC(c, k.(told := false, seen := if k.loaded.Some? then m.R(k.loaded.value).version else k.seen))
  }

  datatype Move = Protocol(core: CoreId, step: SP.Action) | Access(core: CoreId, action: Action) | Interrupt(core: CoreId)

  /**
   A core in the middle of a switch or an update takes no step of the lock protocol, and switches and
   updates happen only in the hands of a core that may write: the holder of the giant lock, or the core
   that serves a stop request while the holder waits for it.
   */
  ghost function Step(m: Machine, v: Move): Machine {
    match v
    case Protocol(c, a) => if m.C(c).phase.Steady? then m.(lock := SP.Step(m.lock, c, a)) else m
    case Access(c, a) => if SP.MayWrite(m.lock, c) then AccessStep(m, c, a) else m
    case Interrupt(c) => InterruptStep(m, c)
  }

  // ---------------------------------------------------------------- permission

  /** Permission to write lasts until the core itself gives it up. */
  lemma PermissionLasts(m: SP.Machine, c: CoreId, e: CoreId, a: SP.Action)
    requires SP.Good(m) && SP.MayWrite(m, c) && e != c
    ensures SP.MayWrite(SP.Step(m, e, a), c)
  {
    assert SP.CoreOk(m, c) && SP.CoreOk(m, e);
    if m.holder.Some? { assert SP.CoreOk(m, m.holder.value); }
  }

  // ---------------------------------------------------------------- invariant

  /** A loaded root knows its core, and so does a root about to be loaded; words that were read are current. */
  ghost predicate OwnerOk(m: Machine, c: CoreId) {
    var k := m.C(c);
    && (k.loaded.Some? ==> Has(m.R(k.loaded.value).owners, c))
    && (k.phase.Marking? ==> k.phase.word == m.R(k.phase.next).owners && k.loaded != Some(k.phase.next))
    && (k.phase.Joined? ==> Has(m.R(k.phase.next).owners, c) && k.loaded != Some(k.phase.next))
    && ((k.phase.Moved? || k.phase.Unmarking?) && k.phase.previous.Some? ==> k.loaded != k.phase.previous)
    && (k.phase.Unmarking? ==> k.phase.previous.Some? && k.phase.word == m.R(k.phase.previous.value).owners)
  }

  ghost predicate Current(m: Machine, d: CoreId, r: Root) {
    m.C(d).loaded == Some(r) ==> m.C(d).told || m.C(d).seen == m.R(r).version
  }

  /** How far an update has come: whoever is not in line for an interrupt has flushed or been told. */
  ghost predicate UpdateOk(m: Machine, u: CoreId, d: CoreId) {
    match m.C(u).phase
    case Flushed(r) => d == u ==> Current(m, d, r)
    case Sending(r, left) => !Has(left, d) ==> Current(m, d, r)
    case _ => true
  }

  /** A core has flushed since the last update that was spread, or is told to. */
  ghost predicate Fresh(m: Machine, d: CoreId) {
    m.C(d).loaded.Some? ==> m.C(d).told || m.C(d).seen >= m.R(m.C(d).loaded.value).spread
  }

  ghost predicate Busy(m: Machine, c: CoreId) {
    !m.C(c).phase.Steady? ==> SP.MayWrite(m.lock, c)
  }

  ghost predicate SpreadOk(m: Machine, r: Root) {
    m.R(r).spread <= m.R(r).version
  }

  ghost predicate Good(m: Machine) {
    && SP.Good(m.lock)
    && (forall c: CoreId :: Busy(m, c) && OwnerOk(m, c) && Fresh(m, c))
    && (forall u: CoreId, d: CoreId :: UpdateOk(m, u, d))
    && (forall r: Root :: SpreadOk(m, r))
  }

  /** While one core is in the middle of something, no other core may write. */
  lemma OthersSteady(m: Machine, c: CoreId, d: CoreId)
    requires Good(m) && SP.MayWrite(m.lock, c) && d != c
    ensures m.C(d).phase.Steady?
  {
    assert Busy(m, d);
    SP.OneWriter(m.lock, c, SP.Leave);
  }

  lemma SwitchOwners(m: Machine, c: CoreId, a: Action, d: CoreId)
    requires Good(m) && SP.MayWrite(m.lock, c)
    ensures OwnerOk(SwitchStep(m, c, a), d)
  {
    assert OwnerOk(m, d) && OwnerOk(m, c);
    if d != c { OthersSteady(m, c, d); }
    var w := m.C(c).phase;
    if a.Mark? && w.Marking? {
      SetBitIs(w.word, c, d);
      SetBitIs(w.word, c, c);
    }
    if a.Unmark? && w.Unmarking? && w.previous.Some? { ClearBitIs(w.word, c, d); }
  }

  lemma SwitchKeeps(m: Machine, c: CoreId, a: Action)
    requires Good(m) && SP.MayWrite(m.lock, c)
    ensures Good(SwitchStep(m, c, a))
  {
    var t := SwitchStep(m, c, a);
    assert Busy(m, c);
    forall d: CoreId ensures Busy(t, d) && OwnerOk(t, d) && Fresh(t, d) {
      assert Busy(m, d) && Fresh(m, d);
      SwitchOwners(m, c, a, d);
      if m.C(c).phase.Joined? { assert SpreadOk(m, m.C(c).phase.next); }
    }
    forall u: CoreId, d: CoreId ensures UpdateOk(t, u, d) {
      assert UpdateOk(m, u, d) && UpdateOk(m, c, d);
      if u != c { OthersSteady(m, c, u); }
    }
    forall r: Root ensures SpreadOk(t, r) { assert SpreadOk(m, r); }
  }

  lemma UpdateProgress(m: Machine, c: CoreId, a: Action, d: CoreId)
    requires Good(m) && SP.MayWrite(m.lock, c)
    ensures UpdateOk(UpdateStep(m, c, a), c, d)
  {
    assert UpdateOk(m, c, d) && UpdateOk(m, c, c) && OwnerOk(m, d);
    var w := m.C(c).phase;
    if a.Snapshot? && w.Flushed? { ClearBitIs(m.R(w.root).owners, c, d); }
    if a.SendTo? && w.Sending? { ClearBitIs(w.left, a.d, d); }
  }

  lemma UpdateFresh(m: Machine, c: CoreId, a: Action, d: CoreId)
    requires Good(m) && SP.MayWrite(m.lock, c)
    ensures Fresh(UpdateStep(m, c, a), d)
  {
    assert Fresh(m, d) && UpdateOk(m, c, d);
    NoBits(d);
    if m.C(d).loaded.Some? { assert SpreadOk(m, m.C(d).loaded.value); }
  }

  lemma UpdateKeeps(m: Machine, c: CoreId, a: Action)
    requires Good(m) && SP.MayWrite(m.lock, c)
    ensures Good(UpdateStep(m, c, a))
  {
    var t := UpdateStep(m, c, a);
    forall d: CoreId ensures Busy(t, d) && OwnerOk(t, d) && Fresh(t, d) {
      assert Busy(m, d) && OwnerOk(m, d);
      if d != c { OthersSteady(m, c, d); }
      UpdateFresh(m, c, a, d);
    }
    forall u: CoreId, d: CoreId ensures UpdateOk(t, u, d) {
      if u != c { OthersSteady(m, c, u); } else { UpdateProgress(m, c, a, d); }
    }
    forall r: Root ensures SpreadOk(t, r) { assert SpreadOk(m, r); }
  }

  lemma InterruptKeeps(m: Machine, c: CoreId)
    requires Good(m)
    ensures Good(InterruptStep(m, c))
  {
    var t := InterruptStep(m, c);
    forall d: CoreId ensures Busy(t, d) && OwnerOk(t, d) && Fresh(t, d) {
      assert Busy(m, d) && OwnerOk(m, d) && Fresh(m, d);
      if m.C(d).loaded.Some? { assert SpreadOk(m, m.C(d).loaded.value); }
    }
    forall u: CoreId, d: CoreId ensures UpdateOk(t, u, d) { assert UpdateOk(m, u, d); }
    forall r: Root ensures SpreadOk(t, r) { assert SpreadOk(m, r); }
  }

  lemma ProtocolKeeps(m: Machine, c: CoreId, a: SP.Action)
    requires Good(m)
    ensures Good(Step(m, Protocol(c, a)))
  {
    var t := Step(m, Protocol(c, a));
    if m.C(c).phase.Steady? {
      SP.StepKeeps(m.lock, c, a);
      forall d: CoreId ensures Busy(t, d) && OwnerOk(t, d) && Fresh(t, d) {
        assert Busy(m, d) && OwnerOk(m, d) && Fresh(m, d);
        if !m.C(d).phase.Steady? { PermissionLasts(m.lock, d, c, a); }
      }
      forall u: CoreId, d: CoreId ensures UpdateOk(t, u, d) { assert UpdateOk(m, u, d); }
      forall r: Root ensures SpreadOk(t, r) { assert SpreadOk(m, r); }
    }
  }

  lemma StepKeeps(m: Machine, v: Move)
    requires Good(m)
    ensures Good(Step(m, v))
  {
    match v
    case Protocol(c, a) => ProtocolKeeps(m, c, a);
    case Access(c, a) =>
      if SP.MayWrite(m.lock, c) {
        SwitchKeeps(m, c, a);
        UpdateKeeps(m, c, a);
      }
    case Interrupt(c) => InterruptKeeps(m, c);
  }

  // ---------------------------------------------------------------- every interleaving

  ghost predicate Boot(m: Machine) {
    && SP.Boot(m.lock)
    && (forall c: CoreId :: m.C(c).loaded.None? && m.C(c).phase == Steady)
    && (forall r: Root :: SpreadOk(m, r))
  }

  ghost function Run(m: Machine, run: seq<Move>): Machine {
    if run == [] then m else Step(Run(m, run[..|run| - 1]), run[|run| - 1])
  }

  lemma {:induction false} EveryInterleavingIsGood(m: Machine, run: seq<Move>)
    requires Boot(m)
    ensures Good(Run(m, run))
    decreases |run|
  {
    if run == [] {
      SP.BootGood(m.lock);
      forall c: CoreId ensures Busy(m, c) && OwnerOk(m, c) && Fresh(m, c) { assert m.C(c).loaded.None?; }
      forall u: CoreId, d: CoreId ensures UpdateOk(m, u, d) { assert m.C(u).phase == Steady; }
    } else {
      EveryInterleavingIsGood(m, run[..|run| - 1]);
      StepKeeps(Run(m, run[..|run| - 1]), run[|run| - 1]);
    }
  }

  /** At every step of every interleaving, a core that has a root loaded is marked in that root's owner word. */
  lemma LoadedIsOwned(m: Machine, run: seq<Move>, c: CoreId)
    requires Boot(m) && Run(m, run).C(c).loaded.Some?
    ensures Has(Run(m, run).R(Run(m, run).C(c).loaded.value).owners, c)
  {
    EveryInterleavingIsGood(m, run);
    assert OwnerOk(Run(m, run), c);
  }

  /**
   When the interrupts of an update have all been sent, every core that uses the root has flushed since
   the update or is told to, whatever failed before; and from then on no user of the root falls behind
   that update again.
   */
  lemma UpdatesReachEveryUser(m: Machine, run: seq<Move>, u: CoreId, r: Root, d: CoreId)
    requires Boot(m) && Run(m, run).C(d).loaded == Some(r)
    ensures Run(m, run).C(u).phase == Sending(r, 0) ==>
      Run(m, run).C(d).told || Run(m, run).C(d).seen == Run(m, run).R(r).version
    ensures Run(m, run).C(d).told || Run(m, run).C(d).seen >= Run(m, run).R(r).spread
  {
    EveryInterleavingIsGood(m, run);
    assert UpdateOk(Run(m, run), u, d) && Fresh(Run(m, run), d);
    NoBits(d);
  }

  /** What was once spread stays spread. */
  lemma SpreadGrows(m: Machine, v: Move, r: Root)
    requires Good(m)
    ensures Step(m, v).R(r).spread >= m.R(r).spread
  {
    assert SpreadOk(m, r);
  }

  /** Without the lock a mark can be lost: two cores read the word of one root before either writes it. */
  lemma MarkLostWithoutLock(m: Machine)
    requires m.C(0).phase == Steady && m.C(1).phase == Steady && m.C(0).loaded.None? && m.C(1).loaded.None?
    requires m.R(0).owners == 0
    ensures var t := AccessStep(AccessStep(AccessStep(AccessStep(AccessStep(AccessStep(m,
        0, ReadNext(0)), 1, ReadNext(0)), 0, Mark), 0, Load), 1, Mark), 1, Load);
      t.C(0).loaded == Some(0) && !Has(t.R(0).owners, 0)
  {
    NoBits(1);
    SetBitIs(0, 1, 0);
    NoBits(0);
  }
}
