/** What reclamation keeps: alias groups, the depth encoding and pinned slots; and that it never uses an empty slot. */
module ReclamationSafety {
  import opened Common
  import opened Reclamation

  // ---------------------------------------------------------------- well-formed forests

  /** Positions `i` and `j` of the sequence belong to one chain. */
  ghost predicate SameChain(s: Forest, i: int, j: int)
    requires 0 <= i < |s.order| && 0 <= j < |s.order|
  {
    s.S(s.order[i]).chain == s.S(s.order[j]).chain
  }

  ghost predicate Same(s: Forest, i: int, j: int)
    requires 0 <= i < |s.order| && 0 <= j < |s.order|
  {
    SameObject(s.S(s.order[i]), s.S(s.order[j]))
  }

  /** Nodes and processes contain slots but have no children in the chain. */
  ghost predicate Childless(r: Slot) {
    r.what.Some? && !r.what.value.Leaf?
  }

  /** Position `i + 1` is a child of position `i` or something no deeper. */
  ghost predicate StepOk(s: Forest, i: int)
    requires 0 <= i < |s.order| - 1
  {
    SameChain(s, i, i + 1) ==>
      && s.S(s.order[i + 1]).depth <= s.S(s.order[i]).depth + 1
      && (Childless(s.S(s.order[i])) ==> s.S(s.order[i + 1]).depth <= s.S(s.order[i]).depth)
  }

  /** Everything between two slots of one chain is in the chain; aliases are together at one depth. */
  ghost predicate BlockOk(s: Forest, i: int, k: int, j: int)
    requires 0 <= i <= k <= j < |s.order|
  {
    && (SameChain(s, i, j) ==> SameChain(s, i, k))
    && (Same(s, i, j) ==> Same(s, i, k) && SameChain(s, i, k) && s.S(s.order[i]).depth == s.S(s.order[k]).depth)
  }

  ghost predicate Steps(s: Forest) {
    forall i :: 0 <= i < |s.order| - 1 ==> StepOk(s, i)
  }

  ghost predicate Blocks(s: Forest) {
    forall i, k, j :: 0 <= i <= k <= j < |s.order| ==> BlockOk(s, i, k, j)
  }

  /** The sequence lists exactly the slots in use, each once. */
  ghost predicate Listed(s: Forest) {
    Distinct(s.order) && forall x: SlotId :: x in s.order <==> s.S(x).what.Some?
  }

  ghost predicate WellFormed(s: Forest) {
    Listed(s) && Steps(s) && Blocks(s) && forall o :: o in s.active ==> o.Node?
  }

  /** Removing `x` leaves no child without a parent: nothing deeper follows, or an alias precedes. */
  ghost predicate Removable(s: Forest, x: SlotId) {
    || x !in s.order
    || NextOf(s, x).None? || s.S(NextOf(s, x).value).depth <= s.S(x).depth
    || (PreviousOf(s, x).Some? && Siblings(s.S(x), s.S(PreviousOf(s, x).value)))
  }

  /** The position before a removal at `n` of what is now at position `i`. */
  ghost function Before(n: int, i: int): int {
    if i < n then i else i + 1
  }

  lemma ClearAt(s: Forest, x: SlotId, i: int)
    requires Distinct(s.order) && x in s.order && 0 <= i < |s.order| - 1
    ensures var t := Clear(s, x); var n := IndexOf(s.order, x);
      && |t.order| == |s.order| - 1
      && t.order[i] == s.order[Before(n, i)] && t.S(t.order[i]) == s.S(s.order[Before(n, i)])
  {
  }

  lemma ClearListed(s: Forest, x: SlotId)
    requires Listed(s)
    ensures Listed(Clear(s, x)) && |Clear(s, x).order| == if x in s.order then |s.order| - 1 else |s.order|
  {
    var t := Clear(s, x);
    var n := IndexOf(s.order, x);
    if x in s.order {
      forall i, j | 0 <= i < j < |t.order| ensures t.order[i] != t.order[j] {
        assert t.order[i] == s.order[Before(n, i)] && t.order[j] == s.order[Before(n, j)];
      }
      forall z: SlotId ensures z in t.order <==> z in s.order && z != x {
        assert s.order == s.order[..n] + [x] + s.order[n + 1..];
      }
    }
  }

  lemma ClearSteps(s: Forest, x: SlotId)
    requires Distinct(s.order) && x in s.order && Steps(s) && Blocks(s) && Removable(s, x)
    ensures Steps(Clear(s, x))
  {
    var t := Clear(s, x);
    var n := IndexOf(s.order, x);
    forall i | 0 <= i < |t.order| - 1 ensures StepOk(t, i) {
      ClearAt(s, x, i);
      ClearAt(s, x, i + 1);
      if i + 1 == n {
        assert StepOk(s, i) && StepOk(s, n) && BlockOk(s, i, n, n + 1);
      } else {
        assert StepOk(s, Before(n, i));
      }
    }
  }

  lemma ClearBlocks(s: Forest, x: SlotId)
    requires Distinct(s.order) && x in s.order && Blocks(s)
    ensures Blocks(Clear(s, x))
  {
    var t := Clear(s, x);
    var n := IndexOf(s.order, x);
    forall i, k, j | 0 <= i <= k <= j < |t.order| ensures BlockOk(t, i, k, j) {
      ClearAt(s, x, i);
      ClearAt(s, x, k);
      ClearAt(s, x, j);
      assert BlockOk(s, Before(n, i), Before(n, k), Before(n, j));
    }
  }

  lemma ClearKeeps(s: Forest, x: SlotId)
    requires WellFormed(s) && Removable(s, x)
    ensures WellFormed(Clear(s, x))
  {
    ClearListed(s, x);
    if x in s.order {
      ClearSteps(s, x);
      ClearBlocks(s, x);
    } else {
      assert s.slots[x := EMPTY][x] == EMPTY;
      SameEntries(s, Clear(s, x));
    }
  }

  /** The links depend only on the slots that are listed. */
  lemma SameEntries(s: Forest, t: Forest)
    requires Steps(s) && Blocks(s) && t.order == s.order
    requires forall i :: 0 <= i < |s.order| ==> t.S(s.order[i]).(reclaiming := false) == s.S(s.order[i]).(reclaiming := false)
    ensures Steps(t) && Blocks(t)
  {
    forall i | 0 <= i < |t.order| - 1 ensures StepOk(t, i) { assert StepOk(s, i); }
    forall i, k, j | 0 <= i <= k <= j < |t.order| ensures BlockOk(t, i, k, j) { assert BlockOk(s, i, k, j); }
  }

  // ---------------------------------------------------------------- what every step keeps

  /** The finaliser of the object that `r` names is running. */
  ghost predicate Active(s: Forest, r: Slot) {
    r.what.Some? && r.what.value in s.active
  }

  ghost predicate PinnedAt(s: Forest, z: SlotId) {
    s.S(z).reclaiming && s.S(z).what.Some? && s.S(z).what.value.Node? ==> Active(s, s.S(z))
  }

  /** Whenever a slot can be removed, the Nodes that are being revoked are being finalised. */
  ghost predicate Pinned(s: Forest) {
    forall z: SlotId :: PinnedAt(s, z)
  }

  /** A slot that is being revoked is left alone, unless it names a Node whose finaliser is running. */
  ghost predicate PinKept(s: Forest, t: Forest, z: SlotId) {
    s.S(z).reclaiming && !Active(s, s.S(z)) ==> t.S(z) == s.S(z)
  }

  lemma ShrinkPinned(s: Forest, t: Forest)
    requires Pinned(s) && Shrinks(s, t)
    ensures Pinned(t)
  {
    forall z: SlotId ensures PinnedAt(t, z) { assert PinnedAt(s, z) && (t.S(z) == s.S(z) || t.S(z) == EMPTY); }
  }

  ghost predicate Sound(s: Forest, t: Forest) {
    WellFormed(t) && (t.crashed ==> s.crashed) && forall z: SlotId :: PinKept(s, t, z)
  }

  lemma SoundTrans(s: Forest, t: Forest, u: Forest)
    requires Sound(s, t) && Sound(t, u) && t.active == s.active
    ensures Sound(s, u)
  {
    forall z: SlotId ensures PinKept(s, u, z) { assert PinKept(s, t, z) && PinKept(t, u, z); }
  }

  /** Pins, the finaliser stack and the log matter to no link. */
  lemma SameLinks(s: Forest, t: Forest)
    requires WellFormed(s) && t.order == s.order && (forall o :: o in t.active ==> o.Node?)
    requires forall x: SlotId :: t.S(x).(reclaiming := false) == s.S(x).(reclaiming := false)
    ensures WellFormed(t)
  {
    SameEntries(s, t);
    forall x: SlotId ensures x in t.order <==> t.S(x).what.Some? {
      assert t.S(x).(reclaiming := false) == s.S(x).(reclaiming := false);
    }
  }

  lemma UnpinSound(s: Forest, x: SlotId, t: Forest)
    requires !s.S(x).reclaiming && WellFormed(t) && (t.crashed ==> s.crashed)
    requires forall z: SlotId :: z != x ==> PinKept(Pin(s, x), t, z)
    ensures Sound(s, Unpin(t, x))
  {
    SameLinks(t, Unpin(t, x));
    forall z: SlotId ensures PinKept(s, Unpin(t, x), z) { assert z != x ==> PinKept(Pin(s, x), t, z); }
  }

  lemma ChildlessRemovable(s: Forest, x: SlotId)
    requires WellFormed(s) && (Childless(s.S(x)) || s.S(x).what.None?)
    ensures Removable(s, x)
  {
    var i := IndexOf(s.order, x);
    if i + 1 < |s.order| { assert StepOk(s, i); }
  }

  lemma {:induction false} LastAliasIs(s: Forest, x: SlotId, i: nat)
    requires (i < |s.order| && s.order[i] == x) || i == |s.order|
    ensures var y := LastAlias(s, x, i);
      && s.S(y).depth == s.S(x).depth && s.S(y).chain == s.S(x).chain && s.S(y).what == s.S(x).what
      && (y == x || y in s.order)
    decreases |s.order| - i
  {
    if i + 1 < |s.order| && s.S(s.order[i + 1]).chain == s.S(x).chain && Siblings(s.S(x), s.S(s.order[i + 1])) {
      LastAliasIs(s, s.order[i + 1], i + 1);
    }
  }

  // ---------------------------------------------------------------- the teardown is sound

  lemma {:induction false} RevokeSound(s: Forest, x: SlotId)
    requires WellFormed(s) && Pinned(s)
    ensures Sound(s, RevokeSlot(s, x).0)
    ensures RevokeSlot(s, x).1 == Done && !HasSibling(s, x) ==> Removable(RevokeSlot(s, x).0, x)
    decreases |LiveSlots(s)|, 1, 0
  {
    if s.S(x).what.Some? && !s.S(x).reclaiming {
      DescentSound(s, x);
      var (s2, done) := Descent(s, x);
      if done == Done {
        FinaliseSound(s2, x);
        FinalisedSound(s, x, s2);
      } else {
        UnpinSound(s, x, s2);
      }
    }
  }

  /** The first half of a revocation: the slot is pinned and its descendants go. */
  function Descent(s: Forest, x: SlotId): (Forest, Result) {
    RemoveDescendants(Pin(s, x), x, LastAlias(Pin(s, x), x, IndexOf(s.order, x)))
  }

  lemma {:induction false} DescentSound(s: Forest, x: SlotId)
    requires WellFormed(s) && Pinned(s) && s.S(x).what.Some? && !s.S(x).reclaiming
    ensures var (t, done) := Descent(s, x);
      && WellFormed(t) && t.S(x).what == s.S(x).what && (t.crashed ==> s.crashed) && |LiveSlots(t)| < |LiveSlots(s)|
      && Shrinks(Pin(s, x), t)
      && (forall z: SlotId :: PinKept(Pin(s, x), t, z)) && (forall z: SlotId :: z != x ==> PinnedAt(t, z))
      && (done == Done ==> Childless(s.S(x)) || HasSibling(s, x) || NextOf(t, x).None? || t.S(NextOf(t, x).value).depth <= t.S(x).depth)
    decreases |LiveSlots(s)|, 0, 1
  {
    PinMeasure(s, x);
    var s1 := Pin(s, x);
    SameLinks(s, s1);
    var i := IndexOf(s1.order, x);
    var last := LastAlias(s1, x, i);
    LastAliasIs(s1, x, i);
    var (s2, done) := RemoveDescendants(s1, x, last);
    ShrinkMeasures(s1, s2);
    if Childless(s1.S(x)) {
      NoDescendants(s1, x, last);
    } else {
      forall z: SlotId ensures PinnedAt(s1, z) { assert PinnedAt(s, z); }
      DescendantsSound(s1, x, last);
      assert PinKept(s1, s2, x);
    }
    forall z: SlotId | z != x ensures PinnedAt(s2, z) { assert PinnedAt(s, z) && (s2.S(z) == s1.S(z) || s2.S(z) == EMPTY); }
    if !HasSibling(s, x) { LoneAlias(s, x); }
  }

  /** What finalising does once the descendants are gone. */
  lemma FinalisedSound(s: Forest, x: SlotId, s2: Forest)
    requires s.S(x).what.Some? && !s.S(x).reclaiming && s2.S(x).what == s.S(x).what && (s2.crashed ==> s.crashed)
    requires s2.active == s.active && forall z: SlotId :: PinKept(Pin(s, x), s2, z)
    requires var s3 := Finalise(s2, x).0;
      && WellFormed(s3) && (s3.crashed ==> s2.crashed) && (forall z: SlotId :: z != x ==> PinKept(s2, s3, z))
      && (s2.S(x).what.value.Leaf? ==> s3.slots == s2.slots && s3.order == s2.order)
    requires Childless(s.S(x)) || HasSibling(s, x)
      || NextOf(s2, x).None? || s2.S(NextOf(s2, x).value).depth <= s2.S(x).depth
    ensures var s3 := Finalise(s2, x).0;
      Sound(s, Unpin(s3, x)) && (!HasSibling(s, x) ==> Removable(Unpin(s3, x), x))
  {
    var s3 := Finalise(s2, x).0;
    forall z: SlotId | z != x ensures PinKept(Pin(s, x), s3, z) { assert PinKept(Pin(s, x), s2, z) && PinKept(s2, s3, z); }
    UnpinSound(s, x, s3);
    if Childless(s.S(x)) {
      assert s3.S(x) == s2.S(x) || s3.S(x) == EMPTY;
      ChildlessRemovable(Unpin(s3, x), x);
    } else if !HasSibling(s, x) {
      LeafRemovable(s2, s3, x);
    }
  }

  /** A slot without siblings is the last alias of its group. */
  lemma LoneAlias(s: Forest, x: SlotId)
    requires !HasSibling(s, x)
    ensures LastAlias(Pin(s, x), x, IndexOf(s.order, x)) == x
  {
  }

  lemma LeafRemovable(s: Forest, t: Forest, x: SlotId)
    requires t.slots == s.slots && t.order == s.order
    requires NextOf(s, x).None? || s.S(NextOf(s, x).value).depth <= s.S(x).depth
    ensures Removable(Unpin(t, x), x)
  {
  }

  lemma NoDescendants(s: Forest, x: SlotId, last: SlotId)
    requires WellFormed(s) && Childless(s.S(x)) && s.S(last).what == s.S(x).what && s.S(last).depth == s.S(x).depth
    ensures RemoveDescendants(s, x, last) == (s, Done)
  {
    var i := IndexOf(s.order, last);
    if i + 1 < |s.order| { assert StepOk(s, i); }
  }

  lemma {:induction false} DescendantsSound(s: Forest, x: SlotId, last: SlotId)
    requires WellFormed(s) && Pinned(s)
    ensures var (t, done) := RemoveDescendants(s, x, last);
      && Sound(s, t)
      && (done == Done ==> NextOf(t, last).None? || t.S(NextOf(t, last).value).depth <= t.S(x).depth)
    decreases |LiveSlots(s)|, 3, |DeepSlots(s)|
  {
    if NextOf(s, last).Some? && s.S(NextOf(s, last).value).depth > s.S(x).depth {
      var y := NextOf(s, last).value;
      RemoveSound(s, y);
      var (s1, done) := RemoveSlot(s, y);
      if done == Done {
        EmptiedIsShallower(s, s1, y);
        ShrinkPinned(s, s1);
        DescendantsSound(s1, x, last);
        SoundTrans(s, s1, RemoveDescendants(s1, x, last).0);
      }
    }
  }

  lemma {:induction false} RemoveSound(s: Forest, x: SlotId)
    requires WellFormed(s) && Pinned(s)
    ensures Sound(s, RemoveSlot(s, x).0)
    decreases |LiveSlots(s)|, 2, 0
  {
    if s.S(x).reclaiming {
      if s.S(x).what.Some? && s.S(x).what.value in s.active {
        ChildlessRemovable(s, x);
        ClearKeeps(s, x);
      }
    } else if s.S(x).what.None? || HasSibling(s, x) {
      ClearKeeps(s, x);
    } else {
      RevokeSound(s, x);
      var (s1, done) := RevokeSlot(s, x);
      if done == Done { RevokedClears(s, s1, x); }
    }
  }

  /** Once revoked, a slot that was not pinned may go. */
  lemma RevokedClears(s: Forest, t: Forest, x: SlotId)
    requires Sound(s, t) && Removable(t, x) && !s.S(x).reclaiming
    ensures Sound(s, Clear(t, x))
  {
    ClearKeeps(t, x);
    forall z: SlotId ensures PinKept(s, Clear(t, x), z) { assert PinKept(s, t, z); }
  }

  /** The slot whose object is finalised may itself go, if it lies in a Node that goes. */
  lemma {:induction false} FinaliseSound(s: Forest, x: SlotId)
    requires WellFormed(s) && s.S(x).what.Some? && forall z: SlotId :: z != x ==> PinnedAt(s, z)
    ensures var t := Finalise(s, x).0;
      WellFormed(t) && (t.crashed ==> s.crashed) && forall z: SlotId :: z != x ==> PinKept(s, t, z)
    ensures s.S(x).what.value.Leaf? ==> Finalise(s, x).0.slots == s.slots && Finalise(s, x).0.order == s.order
    decreases |LiveSlots(s)|, 5, 0
  {
    var o := s.S(x).what.value;
    var t := Finalise(s, x).0;
    match o
    case Leaf(_) => SameLinks(s, t);
    case Node(_) =>
      if o !in s.active {
        var s1 := s.(active := s.active + {o});
        SameLinks(s, s1);
        forall z: SlotId ensures PinnedAt(s1, z) { assert z != x ==> PinnedAt(s, z); }
        EmptyNodeSound(s1, o, x, 0);
        var t1 := EmptyNode(s1, o, x, 0).0;
        SameLinks(t1, t);
        forall z: SlotId | z != x ensures PinKept(s, t, z) { assert PinnedAt(s, z) && PinKept(s1, t1, z); }
      }
    case Holder(_) =>
      forall z: SlotId ensures PinnedAt(s, z) { assert z != x ==> PinnedAt(s, z); }
      if o !in s.failing {
        EmptyHolderSound(s, o, 0);
        var t1 := EmptyHolder(s, o, 0).0;
        SameLinks(t1, t);
        forall z: SlotId ensures PinKept(s, t, z) { assert PinKept(s, t1, z); }
      }
  }

  lemma {:induction false} EmptyNodeSound(s: Forest, o: Object, self: SlotId, i: nat)
    requires WellFormed(s) && Pinned(s) && o.Node? && (s.S(self).what.Some? ==> Active(s, s.S(self)))
    ensures Sound(s, EmptyNode(s, o, self, i).0)
    decreases |LiveSlots(s)|, 4, |s.Inside(o)| - i
  {
    if i < |s.Inside(o)| {
      var z := s.Inside(o)[i];
      if z == self || (s.S(z).what.None? && !SameObject(s.S(z), s.S(self))) {
        EmptyNodeSound(s, o, self, i + 1);
      } else {
        var (s1, done) := if SameObject(s.S(z), s.S(self)) then (Clear(s, z), Done) else RemoveSlot(s, z);
        if SameObject(s.S(z), s.S(self)) {
          ChildlessRemovable(s, z);
          ClearKeeps(s, z);
        } else {
          RemoveSound(s, z);
        }
        assert Shrinks(s, s1);
        ShrinkMeasures(s, s1);
        if done == Done {
          assert s1.S(self) == s.S(self) || s1.S(self) == EMPTY;
          ShrinkPinned(s, s1);
          EmptyNodeSound(s1, o, self, i + 1);
          SoundTrans(s, s1, EmptyNode(s1, o, self, i + 1).0);
        }
      }
    }
  }

  lemma {:induction false} EmptyHolderSound(s: Forest, o: Object, i: nat)
    requires WellFormed(s) && Pinned(s)
    ensures Sound(s, EmptyHolder(s, o, i).0)
    decreases |LiveSlots(s)|, 4, |s.Inside(o)| - i
  {
    if i < |s.Inside(o)| {
      var z := s.Inside(o)[i];
      RemoveSound(s, z);
      var (s1, done) := RemoveSlot(s, z);
      ShrinkMeasures(s, s1);
      if done == Done {
        ShrinkPinned(s, s1);
        EmptyHolderSound(s1, o, i + 1);
        SoundTrans(s, s1, EmptyHolder(s1, o, i + 1).0);
      }
    }
  }
}
