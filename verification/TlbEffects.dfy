/** What a whole context switch and a whole update of an address space do, once all their accesses are made. */
module TlbEffects {
  import opened Common
  import KS = KernelState
  import opened TlbShootdown

  // ---------------------------------------------------------------- a context switch

  /** The accesses of a switch to `next`, in order. */
  function Switch(m: Machine, c: CoreId, next: Root): Machine {
    SwitchStep(SwitchStep(SwitchStep(SwitchStep(SwitchStep(m, c, ReadNext(next)), c, Mark), c, Load), c, ReadPrevious), c, Unmark)
  }

  /** `r` is marked by core `d` exactly as the cores that have it loaded suggest. */
  ghost predicate MarkMoved(m: Machine, t: Machine, c: CoreId, next: Root, r: Root, d: nat) {
    Has(t.R(r).owners, d) ==
      if d == c && r == next then true
      else if d == c && m.C(c).loaded == Some(r) then false
      else Has(m.R(r).owners, d)
  }

  /** The new root is loaded and marked, the mark in the old root is gone, and every other mark is as it was. */
  lemma SwitchEffect(m: Machine, c: CoreId, next: Root, r: Root, d: nat)
    requires m.C(c).phase == Steady && m.C(c).loaded != Some(next)
    ensures var t := Switch(m, c, next);
      && t.C(c) == Core(Some(next), m.R(next).version, m.C(c).told, Steady) && (forall e: CoreId :: e != c ==> t.C(e) == m.C(e))
      && MarkMoved(m, t, c, next, r, d) && t.R(r).version == m.R(r).version && t.R(r).spread == m.R(r).spread
  {
    SetBitIs(m.R(next).owners, c, d);
    var m1 := SwitchStep(SwitchStep(m, c, ReadNext(next)), c, Mark);
    assert m1 == m.SetR(next, m.R(next).(owners := SetBit(m.R(next).owners, c))).At(c, Joined(next));
    var previous := m.C(c).loaded;
    if previous.Some? {
      ClearBitIs(m.R(previous.value).owners, c, d);
      var m3 := SwitchStep(SwitchStep(m1, c, Load), c, ReadPrevious);
      assert m3.C(c).phase == Unmarking(previous, m.R(previous.value).owners);
    }
  }

  // ---------------------------------------------------------------- an update

  lemma {:induction false} NoBitsIsZero(w: nat)
    requires forall i: nat :: !Has(w, i)
    ensures w == 0
    decreases w
  {
    if w != 0 {
      assert !Has(w, 0);
      forall i: nat ensures !Has(w / 2, i) { assert !Has(w, i + 1); }
      NoBitsIsZero(w / 2);
    }
  }

  /** Interrupts go to the marked cores from `i` on, and all are accepted. */
  function SendAll(m: Machine, c: CoreId, i: nat): Machine
    decreases KS.CPU_COUNT_MAX - i
  {
    if i >= KS.CPU_COUNT_MAX then m
    else SendAll(if i != c then UpdateStep(m, c, SendTo(i, true)) else m, c, i + 1)
  }

  /** Only cores that exist are marked. */
  ghost predicate Real(w: nat) {
    forall i: nat :: Has(w, i) ==> i < KS.CPU_COUNT_MAX
  }

  ghost predicate ToldOf(m: Machine, t: Machine, c: CoreId, left: nat, d: CoreId) {
    if d == c then t.C(d) == m.C(d).(phase := t.C(c).phase) else t.C(d) == m.C(d).(told := m.C(d).told || Has(left, d))
  }

  lemma {:induction false} SendAllTells(m: Machine, c: CoreId, r: Root, left: nat, i: nat)
    requires m.C(c).phase == Sending(r, left) && Real(left) && forall j: nat :: Has(left, j) ==> i <= j && j != c
    ensures var t := SendAll(m, c, i);
      && t.C(c).phase == Sending(r, 0) && t.spaces == m.spaces && t.lock == m.lock && forall d: CoreId :: ToldOf(m, t, c, left, d)
    decreases KS.CPU_COUNT_MAX - i
  {
    if i >= KS.CPU_COUNT_MAX {
      NoBitsIsZero(left);
      forall d: CoreId ensures ToldOf(m, m, c, left, d) { NoBits(d); }
    } else {
      var m1 := if i != c then UpdateStep(m, c, SendTo(i, true)) else m;
      var left1 := if Has(left, i) then ClearBit(left, i) else left;
      assert !Has(left, c);
      forall j: nat ensures Has(left1, j) == (j != i && Has(left, j)) { ClearBitIs(left, i, j); }
      assert m1.C(c).phase == Sending(r, left1);
      SendAllTells(m1, c, r, left1, i + 1);
      var t := SendAll(m1, c, i + 1);
      forall d: CoreId ensures ToldOf(m, t, c, left, d) { assert ToldOf(m1, t, c, left1, d); }
    }
  }

  /** The first accesses of an update: the tables change, the own translations go, and the marked cores are read. */
  function Begun(m: Machine, c: CoreId, r: Root): Machine {
    UpdateStep(UpdateStep(UpdateStep(m, c, Write(r)), c, Flush), c, Snapshot)
  }

  /** All the accesses, where every interrupt is accepted. */
  function Update(m: Machine, c: CoreId, r: Root): Machine {
    UpdateStep(SendAll(Begun(m, c, r), c, 0), c, Finish)
  }

  lemma BegunIs(m: Machine, c: CoreId, r: Root)
    requires m.C(c).phase == Steady
    ensures var t := Begun(m, c, r); var v := m.R(r).version + 1;
      && t.spaces == m.spaces[r := m.R(r).(version := v)] && (forall d: CoreId :: d != c ==> t.C(d) == m.C(d))
      && t.C(c) == m.C(c).(seen := if m.C(c).loaded == Some(r) then v else m.C(c).seen,
                           phase := Sending(r, ClearBit(m.R(r).owners, c)))
  {
  }

  /** The new version counts as spread; the updating core has flushed, and exactly the other marked cores were told. */
  lemma UpdateEffect(m: Machine, c: CoreId, r: Root)
    requires m.C(c).phase == Steady && Real(m.R(r).owners)
    ensures var t := Update(m, c, r); var v := m.R(r).version + 1;
      && t.spaces == m.spaces[r := m.R(r).(version := v, spread := v)]
      && t.C(c) == m.C(c).(seen := if m.C(c).loaded == Some(r) then v else m.C(c).seen)
      && forall d: CoreId :: d != c ==> t.C(d) == m.C(d).(told := m.C(d).told || Has(m.R(r).owners, d))
  {
    var m1 := Begun(m, c, r);
    var left := ClearBit(m.R(r).owners, c);
    BegunIs(m, c, r);
    forall j: nat ensures Has(left, j) == (j != c && Has(m.R(r).owners, j)) { ClearBitIs(m.R(r).owners, c, j); }
    SendAllTells(m1, c, r, left, 0);
    UpdateEnds(m, m1, SendAll(m1, c, 0), c, r, left);
  }

  lemma UpdateEnds(m: Machine, m1: Machine, m2: Machine, c: CoreId, r: Root, left: nat)
    requires m.C(c).phase == Steady && (forall d: CoreId :: d != c ==> m1.C(d) == m.C(d) && Has(left, d) == Has(m.R(r).owners, d))
    requires m1.spaces == m.spaces[r := m.R(r).(version := m.R(r).version + 1)] && m1.C(c) == m.C(c).(seen := m1.C(c).seen, phase := m1.C(c).phase)
    requires m2.C(c).phase == Sending(r, 0) && m2.spaces == m1.spaces && forall d: CoreId :: ToldOf(m1, m2, c, left, d)
    ensures var t := UpdateStep(m2, c, Finish); var v := m.R(r).version + 1;
      && t.spaces == m.spaces[r := m.R(r).(version := v, spread := v)] && t.C(c) == m.C(c).(seen := m1.C(c).seen)
      && forall d: CoreId :: d != c ==> t.C(d) == m.C(d).(told := m.C(d).told || Has(m.R(r).owners, d))
  {
    var t := UpdateStep(m2, c, Finish);
    assert ToldOf(m1, m2, c, left, c);
    forall d: CoreId | d != c ensures t.C(d) == m.C(d).(told := m.C(d).told || Has(m.R(r).owners, d)) { assert ToldOf(m1, m2, c, left, d); }
  }
}
