/**
 When a teardown succeeds. A teardown fails when it comes back to a slot that is itself being revoked.
 That cannot happen where the slots can be ranked so that whatever was made from an object, and whatever
 lies in it, ranks below every slot that names it.
 */
module TeardownSuccess {
  import opened Common
  import opened Reclamation
  import opened ReclamationSafety
  import opened DerivationChain
  import opened Subtree
  import opened Teardown

  // ---------------------------------------------------------------- ranks

  /** What was made from `p` ranks below every slot that names the object of `p`. */
  ghost predicate MadeLower(s: Forest, rank: SlotId -> nat, p: SlotId, z: SlotId, y: SlotId) {
    Below(s, p, z) && SameObject(s.S(p), s.S(y)) ==> rank(z) < rank(y)
  }

  /** What lies in the object of `x` ranks below `x`, unless it names that object itself. */
  ghost predicate HeldLower(s: Forest, rank: SlotId -> nat, x: SlotId, z: SlotId) {
    s.S(x).what.Some? && s.S(z).what.Some? && z in s.Inside(s.S(x).what.value) ==>
      || rank(z) < rank(x)
      || (s.S(z).what == s.S(x).what && (s.S(x).what.value.Node? || z != x))
  }

  ghost predicate Ranked(s: Forest, rank: SlotId -> nat) {
    && (forall p: SlotId, z: SlotId, y: SlotId :: MadeLower(s, rank, p, z, y))
    && (forall x: SlotId, z: SlotId :: HeldLower(s, rank, x, z))
  }

  /** Below `n` no slot is being revoked, except for names of Nodes that go, and no object refuses to go. */
  ghost predicate FreeAt(s: Forest, rank: SlotId -> nat, n: nat, z: SlotId) {
    && (s.S(z).reclaiming ==> s.S(z).what.Some? && (Active(s, s.S(z)) || rank(z) >= n))
    && (s.S(z).what.Some? && rank(z) < n ==> s.S(z).what.value !in s.failing)
  }

  ghost predicate Free(s: Forest, rank: SlotId -> nat, n: nat) {
    forall z: SlotId :: FreeAt(s, rank, n, z)
  }

  ghost predicate Ready(s: Forest, rank: SlotId -> nat, n: nat) {
    WellFormed(s) && Single(s.infos.Keys, s) && Ranked(s, rank) && Free(s, rank, n)
  }

  lemma FreeBelow(s: Forest, rank: SlotId -> nat, n: nat, m: nat)
    requires Free(s, rank, n) && m <= n
    ensures Free(s, rank, m)
  {
    forall z: SlotId ensures FreeAt(s, rank, m, z) { assert FreeAt(s, rank, n, z); }
  }

  lemma ShrinkFree(s: Forest, t: Forest, rank: SlotId -> nat, n: nat)
    requires Shrinks(s, t) && Free(s, rank, n)
    ensures Free(t, rank, n)
  {
    forall z: SlotId ensures FreeAt(t, rank, n, z) { assert FreeAt(s, rank, n, z) && (t.S(z) == s.S(z) || t.S(z) == EMPTY); }
  }

  lemma ShrinkSingle(s: Forest, t: Forest)
    requires Shrinks(s, t) && Single(s.infos.Keys, s)
    ensures Single(t.infos.Keys, t)
  {
    forall x: SlotId ensures Thinned(s, t, x) { assert t.S(x) == s.S(x) || t.S(x) == EMPTY; }
    SingleStays(s.infos.Keys, s, t);
  }

  // ---------------------------------------------------------------- ranks survive

  lemma SameRanked(s: Forest, t: Forest, rank: SlotId -> nat)
    requires Ranked(s, rank) && t.order == s.order && t.inside == s.inside && forall x: SlotId :: Alike(t.S(x), s.S(x))
    ensures Ranked(t, rank)
  {
    forall p: SlotId, z: SlotId, y: SlotId ensures MadeLower(t, rank, p, z, y) {
      assert MadeLower(s, rank, p, z, y) && Alike(t.S(p), s.S(p)) && Alike(t.S(y), s.S(y));
      if Below(t, p, z) {
        forall k | IndexOf(s.order, p) < k <= IndexOf(s.order, z) ensures DeeperAt(s, p, k) {
          assert DeeperAt(t, p, k) && Alike(t.S(s.order[k]), s.S(s.order[k]));
        }
      }
    }
    forall x: SlotId, z: SlotId ensures HeldLower(t, rank, x, z) {
      assert HeldLower(s, rank, x, z) && Alike(t.S(x), s.S(x)) && Alike(t.S(z), s.S(z));
    }
  }

  /** What is below `p` once `x` is gone was below `p` before, or below its alias `x`. */
  lemma ClearedBelow(s: Forest, x: SlotId, p: SlotId, z: SlotId)
    requires WellFormed(s) && x in s.order && Removable(s, x) && Below(Clear(s, x), p, z)
    ensures Below(s, p, z) || (SameObject(s.S(x), s.S(p)) && Below(s, x, z))
  {
    var t := Clear(s, x);
    var n := IndexOf(s.order, x);
    ClearListed(s, x);
    assert p in s.order && z in s.order && p != x && z != x;
    ClearedIndex(s, x, p);
    ClearedIndex(s, x, z);
    var i, j := IndexOf(s.order, p), IndexOf(s.order, z);
    forall k | i < k <= j && k != n ensures DeeperAt(s, p, k) { KeptDeeper(s, x, p, z, k); }
    if i < n < j && !DeeperAt(s, p, n) {
      RemovedAlias(s, x, p, i, n, j);
      forall k | n < k <= j ensures DeeperAt(s, x, k) { assert DeeperAt(s, p, k); }
    }
  }

  lemma KeptDeeper(s: Forest, x: SlotId, p: SlotId, z: SlotId, k: int)
    requires Listed(s) && x in s.order && p in s.order && z in s.order && p != x && z != x && Below(Clear(s, x), p, z)
    requires IndexOf(s.order, p) < k <= IndexOf(s.order, z) && k != IndexOf(s.order, x)
    ensures DeeperAt(s, p, k)
  {
    var t := Clear(s, x);
    var n := IndexOf(s.order, x);
    ClearedIndex(s, x, p);
    ClearedIndex(s, x, z);
    var k' := if k < n then k else k - 1;
    ClearAt(s, x, k');
    assert DeeperAt(t, p, k');
  }

  /** A slot no deeper than `p` among what is below `p` can only be removed as an alias right behind `p`. */
  lemma RemovedAlias(s: Forest, x: SlotId, p: SlotId, i: int, n: int, j: int)
    requires WellFormed(s) && 0 <= i < n < j < |s.order| && s.order[i] == p && s.order[n] == x && Removable(s, x)
    requires (forall k :: i < k <= j && k != n ==> DeeperAt(s, p, k)) && !DeeperAt(s, p, n)
    ensures Siblings(s.S(x), s.S(p)) && s.S(x).chain == s.S(p).chain
  {
    assert IndexOf(s.order, x) == n && IndexOf(s.order, p) == i;
    assert DeeperAt(s, p, j) && DeeperAt(s, p, n + 1);
    assert BlockOk(s, i, n, j);
    assert n - 1 > i ==> DeeperAt(s, p, n - 1);
  }

  lemma ClearRanked(s: Forest, x: SlotId, rank: SlotId -> nat)
    requires WellFormed(s) && Removable(s, x) && Ranked(s, rank)
    ensures Ranked(Clear(s, x), rank)
  {
    var t := Clear(s, x);
    if x in s.order {
      forall p: SlotId, z: SlotId, y: SlotId ensures MadeLower(t, rank, p, z, y) {
        if Below(t, p, z) && SameObject(t.S(p), t.S(y)) {
          ClearedBelow(s, x, p, z);
          assert MadeLower(s, rank, p, z, y) && MadeLower(s, rank, x, z, y);
        }
      }
      forall y: SlotId, z: SlotId ensures HeldLower(t, rank, y, z) { assert HeldLower(s, rank, y, z); }
    } else {
      assert s.S(x).what.None?;
      EmptyRanked(s, x, rank);
    }
  }

  lemma EmptyRanked(s: Forest, x: SlotId, rank: SlotId -> nat)
    requires Listed(s) && x !in s.order && Ranked(s, rank)
    ensures Ranked(Clear(s, x), rank)
  {
    var t := Clear(s, x);
    assert s.S(x).what.None?;
    forall p: SlotId, z: SlotId, y: SlotId ensures MadeLower(t, rank, p, z, y) {
      assert MadeLower(s, rank, p, z, y);
      if Below(t, p, z) {
        forall k | IndexOf(s.order, p) < k <= IndexOf(s.order, z) ensures DeeperAt(s, p, k) {
          assert DeeperAt(t, p, k) && s.order[k] in s.order;
        }
      }
    }
    forall y: SlotId, z: SlotId ensures HeldLower(t, rank, y, z) { assert HeldLower(s, rank, y, z); }
  }

  // ---------------------------------------------------------------- slots that just go

  /** Names of a Node whose finaliser is running just go. */
  lemma ActiveGoes(s: Forest, z: SlotId)
    requires WellFormed(s) && Active(s, s.S(z))
    ensures RemoveSlot(s, z) == (Clear(s, z), Done) && Removable(s, z)
  {
    ChildlessRemovable(s, z);
    if !s.S(z).reclaiming && !HasSibling(s, z) {
      var s1 := Pin(s, z);
      SameLinks(s, s1);
      LastAliasIs(s1, z, IndexOf(s1.order, z));
      NoDescendants(s1, z, LastAlias(s1, z, IndexOf(s1.order, z)));
      assert Unpin(s1, z).slots == s.slots;
      assert RevokeSlot(s, z) == (s, Done);
    }
  }

  /** No other name of the object of `x` is being revoked. */
  ghost predicate Alone(s: Forest, x: SlotId) {
    forall z: SlotId :: z != x && SameObject(s.S(x), s.S(z)) && s.S(z).reclaiming ==> Active(s, s.S(z))
  }

  lemma ShrinkAlone(s: Forest, t: Forest, x: SlotId)
    requires Shrinks(s, t) && Alone(s, x)
    ensures Alone(t, x)
  {
    forall z: SlotId | z != x && SameObject(t.S(x), t.S(z)) && t.S(z).reclaiming ensures Active(t, t.S(z)) {
      assert t.S(z) == s.S(z) || t.S(z) == EMPTY;
      assert t.S(x) == s.S(x) || t.S(x) == EMPTY;
    }
  }

  // ---------------------------------------------------------------- the teardown succeeds

  ghost predicate Succeeds(rank: SlotId -> nat, r: (Forest, Result)) {
    r.1 == Done && Ranked(r.0, rank)
  }

  /** Pinning `x` leaves everything below it free. */
  lemma PinReady(s: Forest, x: SlotId, rank: SlotId -> nat)
    requires Ready(s, rank, rank(x) + 1) && s.S(x).what.Some?
    ensures Ready(Pin(s, x), rank, rank(x))
  {
    var s1 := Pin(s, x);
    SameLinks(s, s1);
    SameRanked(s, s1, rank);
    forall z: SlotId ensures Thinned(s, s1, z) {}
    SingleStays(s.infos.Keys, s, s1);
    forall z: SlotId ensures FreeAt(s1, rank, rank(x), z) { assert FreeAt(s, rank, rank(x) + 1, z); }
  }

  lemma {:induction false} RevokeSucceeds(s: Forest, x: SlotId, rank: SlotId -> nat)
    requires Pinned(s) && Ready(s, rank, rank(x) + 1) && s.S(x).what.Some? && !s.S(x).reclaiming && Alone(s, x)
    ensures Succeeds(rank, RevokeSlot(s, x))
    decreases |LiveSlots(s)|, 1, 0
  {
    var o := s.S(x).what.value;
    assert FreeAt(s, rank, rank(x) + 1, x);
    DescentSound(s, x);
    DescentSucceeds(s, x, rank);
    var s2 := Descent(s, x).0;
    BareAfter(s.infos.Keys, s, x, s2);
    PinReady(s, x, rank);
    ShrinkSingle(Pin(s, x), s2);
    ShrinkFree(Pin(s, x), s2, rank, rank(x));
    assert PinKept(Pin(s, x), s2, x);
    if o.Node? && o in s.active {
      assert Finalise(s2, x) == (s2, true);
    } else {
      assert s2.S(x) == Pin(s, x).S(x);
      ShrinkAlone(Pin(s, x), s2, x);
      FinaliseSucceeds(s2, x, rank);
    }
    SameRanked(Finalise(s2, x).0, Unpin(Finalise(s2, x).0, x), rank);
  }

  lemma {:induction false} DescentSucceeds(s: Forest, x: SlotId, rank: SlotId -> nat)
    requires Pinned(s) && Ready(s, rank, rank(x) + 1) && s.S(x).what.Some? && !s.S(x).reclaiming
    ensures Succeeds(rank, Descent(s, x))
    decreases |LiveSlots(s)|, 0, 1
  {
    PinMeasure(s, x);
    PinReady(s, x, rank);
    var s1 := Pin(s, x);
    var last := LastAlias(s1, x, IndexOf(s1.order, x));
    LastAliasIs(s1, x, IndexOf(s1.order, x));
    if Childless(s1.S(x)) {
      NoDescendants(s1, x, last);
    } else {
      forall z: SlotId ensures PinnedAt(s1, z) { assert PinnedAt(s, z); }
      DescendantsSucceed(s1, x, last, rank);
    }
  }

  lemma {:induction false} DescendantsSucceed(s: Forest, x: SlotId, last: SlotId, rank: SlotId -> nat)
    requires Pinned(s) && Ready(s, rank, rank(x)) && s.S(x).what.Some? && s.S(x).what.value.Leaf? && s.S(x).reclaiming
    requires last in s.order ==> SameObject(s.S(last), s.S(x)) && s.S(last).depth == s.S(x).depth
    ensures Succeeds(rank, RemoveDescendants(s, x, last))
    decreases |LiveSlots(s)|, 3, |DeepSlots(s)|
  {
    if NextOf(s, last).Some? && s.S(NextOf(s, last).value).depth > s.S(x).depth {
      var y := NextOf(s, last).value;
      NextBelow(s, last, y);
      assert MadeLower(s, rank, last, y, x);
      FreeBelow(s, rank, rank(x), rank(y) + 1);
      RemoveSucceeds(s, y, rank);
      RemoveSound(s, y);
      var s1 := RemoveSlot(s, y).0;
      EmptiedIsShallower(s, s1, y);
      ShrinkPinned(s, s1);
      ShrinkSingle(s, s1);
      ShrinkFree(s, s1, rank, rank(x));
      assert PinKept(s, s1, x);
      assert s1.S(last) == s.S(last) || s1.S(last) == EMPTY;
      DescendantsSucceed(s1, x, last, rank);
    }
  }

  lemma NextBelow(s: Forest, p: SlotId, y: SlotId)
    requires Listed(s) && NextOf(s, p) == Some(y) && s.S(y).depth > s.S(p).depth
    ensures Below(s, p, y)
  {
    assert IndexOf(s.order, y) == IndexOf(s.order, p) + 1;
  }

  lemma {:induction false} RemoveSucceeds(s: Forest, x: SlotId, rank: SlotId -> nat)
    requires Pinned(s) && Ready(s, rank, rank(x) + 1)
    ensures Succeeds(rank, RemoveSlot(s, x))
    decreases |LiveSlots(s)|, 2, 0
  {
    assert FreeAt(s, rank, rank(x) + 1, x);
    if Active(s, s.S(x)) {
      ActiveGoes(s, x);
      ClearRanked(s, x, rank);
    } else if s.S(x).what.None? {
      ChildlessRemovable(s, x);
      ClearRanked(s, x, rank);
    } else if HasSibling(s, x) {
      ClearRanked(s, x, rank);
    } else {
      HasSiblingIff(s, x);
      RevokeSucceeds(s, x, rank);
      RevokeSound(s, x);
      ClearRanked(RevokeSlot(s, x).0, x, rank);
    }
  }

  lemma {:induction false} FinaliseSucceeds(s: Forest, x: SlotId, rank: SlotId -> nat)
    requires Ready(s, rank, rank(x)) && s.S(x).what.Some? && s.S(x).reclaiming && forall z: SlotId :: z != x ==> PinnedAt(s, z)
    requires s.S(x).what.value !in s.failing && s.S(x).what.value !in s.active
    requires Alone(s, x) && (Tracked(s.infos.Keys, s, x) ==> Bare(s, x))
    ensures Finalise(s, x).1 && Ranked(Finalise(s, x).0, rank)
    decreases |LiveSlots(s)|, 5, 0
  {
    var o := s.S(x).what.value;
    match o
    case Leaf(_) =>
      if Tracked(s.infos.Keys, s, x) {
        NoSibling(s.infos.Keys, s, x);
        LoneAlias(s, x);
      }
      SameRanked(s, Finished(s, o), rank);
    case Node(_) =>
      var s1 := s.(active := s.active + {o});
      SameLinks(s, s1);
      SameRanked(s, s1, rank);
      forall z: SlotId ensures PinnedAt(s1, z) { assert z != x ==> PinnedAt(s, z); }
      forall z: SlotId ensures FreeAt(s1, rank, rank(x), z) { assert FreeAt(s, rank, rank(x), z); }
      forall z | z in s1.Inside(o) ensures HeldBelow(s1, rank, rank(x), o, z) { assert HeldLower(s, rank, x, z); }
      EmptyNodeSucceeds(s1, o, x, 0, rank, rank(x));
      SameRanked(EmptyNode(s1, o, x, 0).0, Finalise(s, x).0, rank);
    case Holder(_) =>
      forall z: SlotId ensures PinnedAt(s, z) { assert z != x ==> PinnedAt(s, z); }
      forall z | z in s.Inside(o) ensures z != x && HeldBelow(s, rank, rank(x), o, z) { assert HeldLower(s, rank, x, z); }
      EmptyHolderSucceeds(s, o, x, 0, rank);
      SameRanked(EmptyHolder(s, o, 0).0, Finalise(s, x).0, rank);
  }

  /** A slot in `o` is vacant, names `o` or ranks below `n`. */
  ghost predicate HeldBelow(s: Forest, rank: SlotId -> nat, n: nat, o: Object, z: SlotId) {
    s.S(z).what.None? || s.S(z).what == Some(o) || rank(z) < n
  }

  lemma ShrinkHeld(s: Forest, t: Forest, rank: SlotId -> nat, n: nat, o: Object)
    requires Shrinks(s, t) && forall z :: z in s.Inside(o) ==> HeldBelow(s, rank, n, o, z)
    ensures forall z :: z in t.Inside(o) ==> HeldBelow(t, rank, n, o, z)
  {
    forall z | z in t.Inside(o) ensures HeldBelow(t, rank, n, o, z) {
      assert HeldBelow(s, rank, n, o, z) && (t.S(z) == s.S(z) || t.S(z) == EMPTY);
    }
  }

  lemma {:induction false} EmptyNodeSucceeds(s: Forest, o: Object, self: SlotId, i: nat, rank: SlotId -> nat, n: nat)
    requires Pinned(s) && Ready(s, rank, n) && o in s.active && (s.S(self).what.None? || s.S(self).what == Some(o))
    requires forall z :: z in s.Inside(o) ==> HeldBelow(s, rank, n, o, z)
    ensures EmptyNode(s, o, self, i).1 && Ranked(EmptyNode(s, o, self, i).0, rank)
    decreases |LiveSlots(s)|, 4, |s.Inside(o)| - i
  {
    if i < |s.Inside(o)| {
      var z := s.Inside(o)[i];
      if z == self || s.S(z).what.None? {
        EmptyNodeSucceeds(s, o, self, i + 1, rank, n);
      } else {
        var s1 := if SameObject(s.S(z), s.S(self)) then Clear(s, z) else RemoveSlot(s, z).0;
        assert HeldBelow(s, rank, n, o, z);
        if s.S(z).what == Some(o) {
          ActiveGoes(s, z);
          ClearRanked(s, z, rank);
          ClearKeeps(s, z);
        } else {
          FreeBelow(s, rank, n, rank(z) + 1);
          RemoveSucceeds(s, z, rank);
          RemoveSound(s, z);
        }
        NextSlot(s, s1, rank, n, o);
        assert s1.S(self) == s.S(self) || s1.S(self) == EMPTY;
        EmptyNodeSucceeds(s1, o, self, i + 1, rank, n);
      }
    }
  }

  /** One slot of `o` is gone; the next one is taken from a state that is as good. */
  lemma NextSlot(s: Forest, t: Forest, rank: SlotId -> nat, n: nat, o: Object)
    requires Pinned(s) && Ready(s, rank, n) && Shrinks(s, t) && WellFormed(t) && Ranked(t, rank)
    requires forall z :: z in s.Inside(o) ==> HeldBelow(s, rank, n, o, z)
    ensures Pinned(t) && Ready(t, rank, n) && |LiveSlots(t)| <= |LiveSlots(s)|
    ensures forall z :: z in t.Inside(o) ==> HeldBelow(t, rank, n, o, z)
  {
    ShrinkMeasures(s, t);
    ShrinkPinned(s, t);
    ShrinkSingle(s, t);
    ShrinkFree(s, t, rank, n);
    ShrinkHeld(s, t, rank, n, o);
  }

  lemma {:induction false} EmptyHolderSucceeds(s: Forest, o: Object, x: SlotId, i: nat, rank: SlotId -> nat)
    requires Pinned(s) && Ready(s, rank, rank(x)) && o.Holder? && s.S(x).what == Some(o) && s.S(x).reclaiming && Alone(s, x)
    requires x !in s.Inside(o) && forall z :: z in s.Inside(o) ==> HeldBelow(s, rank, rank(x), o, z)
    ensures EmptyHolder(s, o, i).1 && Ranked(EmptyHolder(s, o, i).0, rank)
    decreases |LiveSlots(s)|, 4, |s.Inside(o)| - i
  {
    if i < |s.Inside(o)| {
      var z := s.Inside(o)[i];
      HolderSlotGoes(s, o, x, z, rank);
      RemoveSound(s, z);
      var s1 := RemoveSlot(s, z).0;
      NextSlot(s, s1, rank, rank(x), o);
      ShrinkAlone(s, s1, x);
      assert PinKept(s, s1, x);
      EmptyHolderSucceeds(s1, o, x, i + 1, rank);
    }
  }

  lemma {:induction false} HolderSlotGoes(s: Forest, o: Object, x: SlotId, z: SlotId, rank: SlotId -> nat)
    requires Pinned(s) && Ready(s, rank, rank(x)) && o.Holder? && s.S(x).what == Some(o) && s.S(x).reclaiming && Alone(s, x)
    requires z != x && HeldBelow(s, rank, rank(x), o, z)
    ensures Succeeds(rank, RemoveSlot(s, z))
    decreases |LiveSlots(s)|, 3, 0
  {
    assert FreeAt(s, rank, rank(x), z);
    if s.S(z).what.None? {
      ChildlessRemovable(s, z);
      ClearRanked(s, z, rank);
    } else if s.S(z).what == Some(o) {
      HasSiblingIff(s, z);
      ClearRanked(s, z, rank);
    } else {
      FreeBelow(s, rank, rank(x), rank(z) + 1);
      RemoveSucceeds(s, z, rank);
    }
  }

  // ---------------------------------------------------------------- from rest

  /**
   Where the slots can be ranked and nothing below `x` refuses to go, `x` can be revoked and removed. The
   revocation finalises the object of `x`; if it is a Node or a process, only `x` itself may be left of its slots,
   and if it is a Generic, all of its region may be carved again.
   */
  lemma TeardownSucceeds(s: Forest, x: SlotId, rank: SlotId -> nat)
    requires WellFormed(s) && Settled(s) && Single(s.infos.Keys, s) && Ranked(s, rank)
    requires forall z: SlotId :: s.S(z).what.Some? && rank(z) <= rank(x) ==> s.S(z).what.value !in s.failing
    ensures RemoveSlot(s, x).1 == Done && s.log <= RemoveSlot(s, x).0.log && Accounted(s, RemoveSlot(s, x).0)
    ensures s.S(x).what.Some? ==>
      var (t, done) := RevokeSlot(s, x); var o := s.S(x).what.value;
      && done == Done && s.log <= t.log && Finalised(s, t, o) && TornDown(t, o) && (o.Leaf? || VacantBut(t, o, x))
  {
    var n := rank(x) + 1;
    forall z: SlotId ensures FreeAt(s, rank, n, z) {}
    forall z: SlotId ensures PinnedAt(s, z) {}
    RemoveSucceeds(s, x, rank);
    RemoveComplete(s, x);
    if s.S(x).what.Some? {
      RevokeSucceeds(s, x, rank);
      RevokeComplete(s, x);
    }
  }

  /** A process that owns the slot it is revoked through is never torn down. */
  lemma NeverFromWithin(s: Forest, x: SlotId, o: Object)
    requires WellFormed(s) && Pinned(s) && s.S(x).what == Some(o) && o.Holder? && x in s.Inside(o)
    ensures RevokeSlot(s, x).1 != Done
  {
    if !s.S(x).reclaiming {
      DescentSound(s, x);
      var (s2, done) := Descent(s, x);
      assert PinKept(Pin(s, x), s2, x);
      if done == Done && o !in s2.failing {
        forall z: SlotId ensures PinnedAt(s2, z) { assert z != x ==> PinnedAt(s2, z); }
        EmptyHolderSound(s2, o, 0);
        EmptyHolderComplete(s2, o, 0);
        var t := EmptyHolder(s2, o, 0).0;
        assert PinKept(s2, t, x);
        var j :| 0 <= j < |s2.Inside(o)| && s2.Inside(o)[j] == x;
        assert t.S(s2.Inside(o)[j]).what.Some?;
      }
    }
  }
}
