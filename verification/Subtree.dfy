/**
 What hangs below a slot: reclamation never takes a slot whose object has no other alias out of the
 chain while something is left below it, and nothing is left below an object that was finalised.
 */
module Subtree {
  import opened Common
  import opened Reclamation
  import opened ReclamationSafety
  import opened DerivationChain

  // `g` is a set of objects that are never copied.

  ghost predicate Tracked(g: set<Object>, s: Forest, p: SlotId) {
    s.S(p).what.Some? && s.S(p).what.value in g
  }

  /** Each object of `g` has at most one slot, and all Generics are in `g`. */
  ghost predicate Single(g: set<Object>, s: Forest) {
    && s.infos.Keys <= g
    && forall x: SlotId, y: SlotId :: Tracked(g, s, x) && s.S(y).what == s.S(x).what ==> x == y
  }

  /** Position `k` of the sequence is in the chain of `p` and deeper than `p`. */
  ghost predicate DeeperAt(s: Forest, p: SlotId, k: int)
    requires 0 <= k < |s.order|
  {
    s.S(s.order[k]).chain == s.S(p).chain && s.S(s.order[k]).depth > s.S(p).depth
  }

  /** `x` was made from `p`, or from something made from `p`. */
  ghost predicate Below(s: Forest, p: SlotId, x: SlotId) {
    && p in s.order && x in s.order && IndexOf(s.order, p) < IndexOf(s.order, x)
    && forall k :: IndexOf(s.order, p) < k <= IndexOf(s.order, x) ==> DeeperAt(s, p, k)
  }

  /** Nothing is below `p`. */
  ghost predicate Bare(s: Forest, p: SlotId) {
    NextOf(s, p).None? || s.S(NextOf(s, p).value).depth <= s.S(p).depth
  }

  lemma NotBare(s: Forest, p: SlotId, x: SlotId)
    requires Below(s, p, x)
    ensures !Bare(s, p)
  {
    assert DeeperAt(s, p, IndexOf(s.order, p) + 1);
  }

  lemma SameBelow(s: Forest, t: Forest, p: SlotId, x: SlotId)
    requires t.slots == s.slots && t.order == s.order
    ensures Below(t, p, x) == Below(s, p, x)
  {
    if Below(s, p, x) {
      forall k | IndexOf(s.order, p) < k <= IndexOf(s.order, x) ensures DeeperAt(t, p, k) { assert DeeperAt(s, p, k); }
    }
    if Below(t, p, x) {
      forall k | IndexOf(s.order, p) < k <= IndexOf(s.order, x) ensures DeeperAt(s, p, k) { assert DeeperAt(t, p, k); }
    }
  }

  // ---------------------------------------------------------------- what every step keeps

  ghost predicate UnderKept(g: set<Object>, s: Forest, t: Forest, p: SlotId, x: SlotId) {
    Tracked(g, s, p) && Below(s, p, x) && t.S(x).what.Some? ==> t.S(p).what.Some? && Below(t, p, x)
  }

  ghost predicate Finalised(s: Forest, t: Forest, o: Object)
    requires |s.log| <= |t.log|
  {
    o in t.log[|s.log|..]
  }

  ghost predicate BareKept(g: set<Object>, s: Forest, t: Forest, p: SlotId)
    requires |s.log| <= |t.log|
  {
    Tracked(g, s, p) && t.S(p).what.Some? && (Bare(s, p) || Finalised(s, t, s.S(p).what.value)) ==> Bare(t, p)
  }

  ghost predicate Thinned(s: Forest, t: Forest, x: SlotId) {
    t.S(x).what.None? || Alike(t.S(x), s.S(x))
  }

  /** The region of a Generic starts again only when the Generic was finalised. */
  ghost predicate RegionsKept(s: Forest, t: Forest)
    requires |s.log| <= |t.log|
  {
    && t.infos.Keys == s.infos.Keys
    && forall o :: o in s.infos ==> t.infos[o] == s.infos[o] || (Finalised(s, t, o) && t.infos[o] == Restarted(s.infos[o]))
  }

  ghost predicate Keeps(g: set<Object>, s: Forest, t: Forest) {
    && s.log <= t.log && RegionsKept(s, t) && (t.refused ==> s.refused)
    && (forall x: SlotId :: Thinned(s, t, x))
    && (forall p: SlotId, x: SlotId :: UnderKept(g, s, t, p, x))
    && (forall p: SlotId :: BareKept(g, s, t, p))
  }

  lemma SingleStays(g: set<Object>, s: Forest, t: Forest)
    requires Single(g, s) && t.infos.Keys == s.infos.Keys && forall x: SlotId :: Thinned(s, t, x)
    ensures Single(g, t)
  {
    forall x: SlotId, y: SlotId | Tracked(g, t, x) && t.S(y).what == t.S(x).what ensures x == y {
      assert Thinned(s, t, x) && Thinned(s, t, y) && Tracked(g, s, x);
    }
  }

  lemma KeepsTrans(g: set<Object>, s: Forest, t: Forest, u: Forest)
    requires Keeps(g, s, t) && Keeps(g, t, u)
    ensures Keeps(g, s, u)
  {
    forall x: SlotId ensures Thinned(s, u, x) { assert Thinned(s, t, x) && Thinned(t, u, x); }
    forall p: SlotId, x: SlotId ensures UnderKept(g, s, u, p, x) {
      assert UnderKept(g, s, t, p, x) && UnderKept(g, t, u, p, x) && Thinned(t, u, x) && Thinned(s, t, p);
    }
    forall p: SlotId ensures BareKept(g, s, u, p) {
      assert BareKept(g, s, t, p) && BareKept(g, t, u, p) && Thinned(t, u, p) && Thinned(s, t, p);
      if s.S(p).what.Some? { FinalisedWhen(s, t, u, s.S(p).what.value); }
    }
    forall o | o in s.infos ensures u.infos[o] == s.infos[o] || (Finalised(s, u, o) && u.infos[o] == Restarted(s.infos[o])) {
      FinalisedWhen(s, t, u, o);
    }
  }

  lemma FinalisedWhen(s: Forest, t: Forest, u: Forest, o: Object)
    requires s.log <= t.log <= u.log
    ensures Finalised(s, u, o) ==> Finalised(s, t, o) || Finalised(t, u, o)
  {
    assert u.log[|s.log|..] == t.log[|s.log|..] + u.log[|t.log|..];
  }

  /** Pins, the finaliser stack and the crash flag do not matter. */
  lemma SameTrees(g: set<Object>, s: Forest, t: Forest)
    requires t.order == s.order && t.log == s.log && t.infos == s.infos && (t.refused ==> s.refused)
    requires forall x: SlotId :: Alike(t.S(x), s.S(x))
    ensures Keeps(g, s, t)
  {
    forall x: SlotId ensures Thinned(s, t, x) { assert Alike(t.S(x), s.S(x)); }
    forall p: SlotId, x: SlotId ensures UnderKept(g, s, t, p, x) {
      assert Alike(t.S(p), s.S(p)) && Alike(t.S(x), s.S(x));
      if Below(s, p, x) {
        forall k | IndexOf(s.order, p) < k <= IndexOf(s.order, x) ensures DeeperAt(t, p, k) {
          assert DeeperAt(s, p, k) && Alike(t.S(s.order[k]), s.S(s.order[k]));
        }
      }
    }
    forall p: SlotId ensures BareKept(g, s, t, p) {
      assert t.log[|s.log|..] == [];
      var i := IndexOf(s.order, p);
      assert Alike(t.S(p), s.S(p));
      if i + 1 < |s.order| { assert Alike(t.S(s.order[i + 1]), s.S(s.order[i + 1])); }
    }
  }

  // ---------------------------------------------------------------- one slot goes

  lemma ClearedIndex(s: Forest, x: SlotId, z: SlotId)
    requires Distinct(s.order) && x in s.order && z in s.order && z != x
    ensures var n := IndexOf(s.order, x); var t := Clear(s, x);
      z in t.order && Before(n, IndexOf(t.order, z)) == IndexOf(s.order, z)
  {
    var n := IndexOf(s.order, x);
    var t := Clear(s, x);
    var i := IndexOf(s.order, z);
    var j := if i < n then i else i - 1;
    assert Before(n, j) == i;
    ClearAt(s, x, j);
    var m := IndexOf(t.order, z);
    ClearAt(s, x, m);
  }

  lemma ClearUnder(g: set<Object>, s: Forest, x: SlotId, p: SlotId, z: SlotId)
    requires Distinct(s.order) && x in s.order && (Tracked(g, s, x) ==> Bare(s, x))
    ensures UnderKept(g, s, Clear(s, x), p, z)
  {
    var t := Clear(s, x);
    if Tracked(g, s, p) && Below(s, p, z) && t.S(z).what.Some? {
      NotBare(s, p, z);
      var n := IndexOf(s.order, x);
      ClearedIndex(s, x, p);
      ClearedIndex(s, x, z);
      forall k | IndexOf(t.order, p) < k <= IndexOf(t.order, z) ensures DeeperAt(t, p, k) {
        ClearAt(s, x, k);
        assert DeeperAt(s, p, Before(n, k));
      }
    }
  }

  lemma ClearBare(g: set<Object>, s: Forest, x: SlotId, p: SlotId)
    requires Distinct(s.order) && Blocks(s) && x in s.order && Removable(s, x)
    requires Single(g, s) && Tracked(g, s, p) && p in s.order && p != x && Bare(s, p)
    ensures Bare(Clear(s, x), p)
  {
    var t := Clear(s, x);
    var n := IndexOf(s.order, x);
    ClearedIndex(s, x, p);
    var i := IndexOf(t.order, p);
    if i + 1 < |t.order| && t.S(t.order[i + 1]).chain == t.S(p).chain {
      ClearAt(s, x, i + 1);
      if i + 1 == n { BehindRemoved(g, s, x, p, n); }
    }
  }

  /** What follows the removed slot `x` right behind `p` is not below `p`. */
  lemma BehindRemoved(g: set<Object>, s: Forest, x: SlotId, p: SlotId, n: nat)
    requires Distinct(s.order) && Blocks(s) && x in s.order && n == IndexOf(s.order, x) && 0 < n && n + 1 < |s.order| && s.order[n - 1] == p
    requires Removable(s, x) && Single(g, s) && Tracked(g, s, p) && p != x && Bare(s, p)
    ensures s.S(s.order[n + 1]).chain == s.S(p).chain ==> s.S(s.order[n + 1]).depth <= s.S(p).depth
  {
    assert IndexOf(s.order, p) == n - 1;
    assert BlockOk(s, n - 1, n, n + 1);
    assert !Siblings(s.S(x), s.S(p));
  }

  lemma ClearTrees(g: set<Object>, s: Forest, x: SlotId)
    requires Listed(s) && Blocks(s) && Removable(s, x) && Single(g, s) && (Tracked(g, s, x) ==> Bare(s, x))
    ensures Keeps(g, s, Clear(s, x))
  {
    var t := Clear(s, x);
    if x in s.order {
      forall p: SlotId, z: SlotId ensures UnderKept(g, s, t, p, z) { ClearUnder(g, s, x, p, z); }
      forall p: SlotId ensures BareKept(g, s, t, p) {
        assert t.log[|s.log|..] == [];
        if Tracked(g, s, p) && t.S(p).what.Some? && Bare(s, p) { ClearBare(g, s, x, p); }
      }
    } else {
      assert s.S(x).what.None?;
      ClearEmpty(g, s, x);
    }
  }

  lemma ClearEmpty(g: set<Object>, s: Forest, x: SlotId)
    requires Listed(s) && x !in s.order
    ensures Keeps(g, s, Clear(s, x))
  {
    var t := Clear(s, x);
    assert s.S(x).what.None?;
    forall p: SlotId, z: SlotId ensures UnderKept(g, s, t, p, z) {
      if Below(s, p, z) {
        forall k | IndexOf(s.order, p) < k <= IndexOf(s.order, z) ensures DeeperAt(t, p, k) {
          assert DeeperAt(s, p, k) && s.order[k] in s.order;
        }
      }
    }
    forall p: SlotId ensures BareKept(g, s, t, p) {
      assert t.log[|s.log|..] == [];
      var i := IndexOf(s.order, p);
      if i + 1 < |s.order| { assert s.order[i + 1] in s.order; }
    }
  }

  // ---------------------------------------------------------------- the teardown

  lemma ChildlessBare(s: Forest, x: SlotId)
    requires WellFormed(s) && Childless(s.S(x))
    ensures Bare(s, x)
  {
    var i := IndexOf(s.order, x);
    if i + 1 < |s.order| { assert StepOk(s, i); }
  }

  lemma NothingBelowChildless(s: Forest, o: Object)
    requires WellFormed(s) && !o.Leaf?
    ensures forall p: SlotId :: s.S(p).what == Some(o) ==> Bare(s, p)
  {
    forall p: SlotId | s.S(p).what == Some(o) ensures Bare(s, p) { ChildlessBare(s, p); }
  }

  lemma NoSibling(g: set<Object>, s: Forest, x: SlotId)
    requires Distinct(s.order) && Single(g, s) && Tracked(g, s, x)
    ensures !HasSibling(s, x)
  {
    var i := IndexOf(s.order, x);
    if i + 1 < |s.order| { assert s.order[i + 1] != x; }
  }

  lemma RemovableIsBare(g: set<Object>, s: Forest, x: SlotId)
    requires Listed(s) && Removable(s, x) && Single(g, s) && Tracked(g, s, x)
    ensures Bare(s, x)
  {
    assert x in s.order;
    NoSibling(g, s, x);
  }

  lemma {:induction false} RevokeTrees(g: set<Object>, s: Forest, x: SlotId)
    requires Single(g, s) && WellFormed(s) && Pinned(s)
    ensures Keeps(g, s, RevokeSlot(s, x).0)
    decreases |LiveSlots(s)|, 1, 0
  {
    if s.S(x).what.None? || s.S(x).reclaiming {
      SameTrees(g, s, s);
    } else {
      DescentSound(s, x);
      DescentTrees(g, s, x);
      var (s2, done) := Descent(s, x);
      if done != Done {
        SameTrees(g, s2, Unpin(s2, x));
        KeepsTrans(g, s, s2, Unpin(s2, x));
      } else {
        RevokeFinishes(g, s, x, s2);
      }
    }
  }

  lemma {:induction false} DescentTrees(g: set<Object>, s: Forest, x: SlotId)
    requires Single(g, s) && WellFormed(s) && Pinned(s) && s.S(x).what.Some? && !s.S(x).reclaiming
    ensures Keeps(g, s, Descent(s, x).0)
    decreases |LiveSlots(s)|, 0, 1
  {
    PinMeasure(s, x);
    var s1 := Pin(s, x);
    SameTrees(g, s, s1);
    SameLinks(s, s1);
    var i := IndexOf(s1.order, x);
    var last := LastAlias(s1, x, i);
    LastAliasIs(s1, x, i);
    if Childless(s1.S(x)) {
      NoDescendants(s1, x, last);
    } else {
      forall z: SlotId ensures PinnedAt(s1, z) { assert PinnedAt(s, z); }
      DescendantsTrees(g, s1, x, last);
    }
    KeepsTrans(g, s, s1, Descent(s, x).0);
  }

  /** Once the loop over the descendants ends, nothing is below an object that has no other slot. */
  lemma BareAfter(g: set<Object>, s: Forest, x: SlotId, s2: Forest)
    requires Single(g, s) && Distinct(s.order) && WellFormed(s2) && s2.S(x).what == s.S(x).what
    requires Childless(s.S(x)) || HasSibling(s, x) || NextOf(s2, x).None? || s2.S(NextOf(s2, x).value).depth <= s2.S(x).depth
    ensures Tracked(g, s2, x) ==> Bare(s2, x)
  {
    if Tracked(g, s2, x) {
      if Childless(s2.S(x)) {
        ChildlessBare(s2, x);
      } else {
        NoSibling(g, s, x);
      }
    }
  }

  /** The descendants are gone; the object is finalised and the slot released. */
  lemma {:induction false} RevokeFinishes(g: set<Object>, s: Forest, x: SlotId, s2: Forest)
    requires Single(g, s) && WellFormed(s) && Pinned(s) && s.S(x).what.Some? && !s.S(x).reclaiming
    requires Descent(s, x) == (s2, Done)
    requires WellFormed(s2) && s2.S(x).what == s.S(x).what && |LiveSlots(s2)| < |LiveSlots(s)|
    requires Childless(s.S(x)) || HasSibling(s, x) || NextOf(s2, x).None? || s2.S(NextOf(s2, x).value).depth <= s2.S(x).depth
    requires Keeps(g, s, s2)
    ensures Keeps(g, s, RevokeSlot(s, x).0)
    decreases |LiveSlots(s2)|, 6, 0
  {
    var s1 := Pin(s, x);
    assert Shrinks(s1, s2);
    forall z: SlotId | z != x ensures PinnedAt(s2, z) { assert PinnedAt(s, z) && (s2.S(z) == s1.S(z) || s2.S(z) == EMPTY); }
    BareAfter(g, s, x, s2);
    SingleStays(g, s, s2);
    FinaliseTrees(g, s2, x);
    var s3 := Finalise(s2, x).0;
    KeepsTrans(g, s, s2, s3);
    SameTrees(g, s3, Unpin(s3, x));
    KeepsTrans(g, s, s3, Unpin(s3, x));
  }

  lemma {:induction false} DescendantsTrees(g: set<Object>, s: Forest, x: SlotId, last: SlotId)
    requires Single(g, s) && WellFormed(s) && Pinned(s)
    ensures Keeps(g, s, RemoveDescendants(s, x, last).0)
    decreases |LiveSlots(s)|, 3, |DeepSlots(s)|
  {
    if NextOf(s, last).Some? && s.S(NextOf(s, last).value).depth > s.S(x).depth {
      var y := NextOf(s, last).value;
      RemoveTrees(g, s, y);
      RemoveSound(s, y);
      var (s1, done) := RemoveSlot(s, y);
      if done == Done {
        EmptiedIsShallower(s, s1, y);
        ShrinkPinned(s, s1);
        SingleStays(g, s, s1);
        DescendantsTrees(g, s1, x, last);
        KeepsTrans(g, s, s1, RemoveDescendants(s1, x, last).0);
      }
    } else {
      SameTrees(g, s, s);
    }
  }

  lemma {:induction false} RemoveTrees(g: set<Object>, s: Forest, x: SlotId)
    requires Single(g, s) && WellFormed(s) && Pinned(s)
    ensures Keeps(g, s, RemoveSlot(s, x).0)
    decreases |LiveSlots(s)|, 2, 0
  {
    if s.S(x).reclaiming {
      if s.S(x).what.Some? && s.S(x).what.value in s.active {
        ChildlessRemovable(s, x);
        ChildlessBare(s, x);
        ClearTrees(g, s, x);
      } else {
        SameTrees(g, s, s);
      }
    } else if s.S(x).what.None? {
      ChildlessRemovable(s, x);
      ClearTrees(g, s, x);
    } else if HasSibling(s, x) {
      if Tracked(g, s, x) { NoSibling(g, s, x); }
      ClearTrees(g, s, x);
    } else {
      RevokeTrees(g, s, x);
      RevokeSound(s, x);
      var (s1, done) := RevokeSlot(s, x);
      if done == Done {
        if Tracked(g, s1, x) { RemovableIsBare(g, s1, x); }
        ClearTrees(g, s1, x);
        KeepsTrans(g, s, s1, Clear(s1, x));
      }
    }
  }

  lemma {:induction false} FinaliseTrees(g: set<Object>, s: Forest, x: SlotId)
    requires Single(g, s) && WellFormed(s) && s.S(x).what.Some? && (forall z: SlotId :: z != x ==> PinnedAt(s, z))
    requires Tracked(g, s, x) ==> Bare(s, x)
    ensures Keeps(g, s, Finalise(s, x).0)
    decreases |LiveSlots(s)|, 5, 0
  {
    var o := s.S(x).what.value;
    FinaliseSound(s, x);
    match o
    case Leaf(_) =>
      SameTrees(g, s, s);
      if Tracked(g, s, x) {
        NoSibling(g, s, x);
        LoneAlias(s, x);
      }
      if o !in s.failing && !(o in s.infos && HasChild(s, x)) {
        LogTrees(g, s, s, o);
        RestartTrees(g, s, s.(log := s.log + [o]), o);
      }
    case Node(_) =>
      if o in s.active {
        SameTrees(g, s, s);
      } else {
        NodeTrees(g, s, x, o);
      }
    case Holder(_) =>
      forall z: SlotId ensures PinnedAt(s, z) { assert z != x ==> PinnedAt(s, z); }
      SameTrees(g, s, s);
      if o !in s.failing {
        EmptyHolderTrees(g, s, o, 0);
        EmptyHolderSound(s, o, 0);
        var (t, ok) := EmptyHolder(s, o, 0);
        NothingBelowChildless(t, o);
        if ok { LogTrees(g, s, t, o); }
      }
  }

  lemma {:induction false} NodeTrees(g: set<Object>, s: Forest, x: SlotId, o: Object)
    requires Single(g, s) && WellFormed(s) && s.S(x).what == Some(o) && o.Node? && o !in s.active && (forall z: SlotId :: z != x ==> PinnedAt(s, z))
    ensures Keeps(g, s, Finalise(s, x).0)
    decreases |LiveSlots(s)|, 4, |s.Inside(o)| + 1
  {
    var s1 := s.(active := s.active + {o});
    SameTrees(g, s, s1);
    SameLinks(s, s1);
    forall z: SlotId ensures PinnedAt(s1, z) { assert z != x ==> PinnedAt(s, z); }
    EmptyNodeTrees(g, s1, o, x, 0);
    EmptyNodeSound(s1, o, x, 0);
    var (t1, ok) := EmptyNode(s1, o, x, 0);
    var t := t1.(active := s.active);
    KeepsTrans(g, s, s1, t1);
    SameTrees(g, t1, t);
    KeepsTrans(g, s, t1, t);
    if ok {
      SameLinks(t1, t);
      NothingBelowChildless(t, o);
      LogTrees(g, s, t, o);
      assert Finalise(s, x).0 == t.(log := t.log + [o]);
    } else {
      assert Finalise(s, x).0 == t;
    }
  }

  /** Recording that `o` was finalised, once nothing is below the only slot for it. */
  lemma LogTrees(g: set<Object>, s: Forest, t: Forest, o: Object)
    requires Keeps(g, s, t) && forall p: SlotId :: t.S(p).what == Some(o) && Tracked(g, t, p) ==> Bare(t, p)
    ensures Keeps(g, s, t.(log := t.log + [o]))
  {
    var u := t.(log := t.log + [o]);
    assert u.log[|s.log|..] == t.log[|s.log|..] + [o];
    forall x: SlotId ensures Thinned(s, u, x) { assert Thinned(s, t, x); }
    forall p: SlotId, x: SlotId ensures UnderKept(g, s, u, p, x) {
      assert UnderKept(g, s, t, p, x);
      if Below(t, p, x) {
        forall k | IndexOf(t.order, p) < k <= IndexOf(t.order, x) ensures DeeperAt(u, p, k) { assert DeeperAt(t, p, k); }
      }
    }
    forall p: SlotId ensures BareKept(g, s, u, p) {
      assert BareKept(g, s, t, p) && Thinned(s, t, p);
      assert u.log[|s.log|..] == t.log[|s.log|..] + [o];
      assert Bare(u, p) == Bare(t, p);
    }
  }

  lemma RestartTrees(g: set<Object>, s: Forest, t: Forest, o: Object)
    requires Keeps(g, s, t) && Finalised(s, t, o)
    ensures o in t.infos ==> Keeps(g, s, t.(infos := t.infos[o := Restarted(t.infos[o])]))
  {
    if o in t.infos {
      var u := t.(infos := t.infos[o := Restarted(t.infos[o])]);
      SameTrees(g, t, t);
      forall x: SlotId ensures Thinned(s, u, x) { assert Thinned(s, t, x); }
      forall p: SlotId, x: SlotId ensures UnderKept(g, s, u, p, x) {
        assert UnderKept(g, s, t, p, x);
        if Below(t, p, x) {
          forall k | IndexOf(t.order, p) < k <= IndexOf(t.order, x) ensures DeeperAt(u, p, k) { assert DeeperAt(t, p, k); }
        }
      }
      forall p: SlotId ensures BareKept(g, s, u, p) {
        assert BareKept(g, s, t, p);
        assert Bare(u, p) == Bare(t, p);
      }
    }
  }

  lemma {:induction false} EmptyNodeTrees(g: set<Object>, s: Forest, o: Object, self: SlotId, i: nat)
    requires Single(g, s) && WellFormed(s) && Pinned(s) && o.Node? && (s.S(self).what.Some? ==> Active(s, s.S(self)))
    ensures Keeps(g, s, EmptyNode(s, o, self, i).0)
    decreases |LiveSlots(s)|, 4, |s.Inside(o)| - i
  {
    if i >= |s.Inside(o)| {
      SameTrees(g, s, s);
    } else {
      var z := s.Inside(o)[i];
      if z == self || (s.S(z).what.None? && !SameObject(s.S(z), s.S(self))) {
        EmptyNodeTrees(g, s, o, self, i + 1);
      } else {
        var (s1, done) := if SameObject(s.S(z), s.S(self)) then (Clear(s, z), Done) else RemoveSlot(s, z);
        if SameObject(s.S(z), s.S(self)) {
          ChildlessRemovable(s, z);
          ChildlessBare(s, z);
          ClearTrees(g, s, z);
          ClearKeeps(s, z);
        } else {
          RemoveTrees(g, s, z);
          RemoveSound(s, z);
        }
        assert Shrinks(s, s1);
        ShrinkMeasures(s, s1);
        if done == Done {
          assert s1.S(self) == s.S(self) || s1.S(self) == EMPTY;
          ShrinkPinned(s, s1);
          SingleStays(g, s, s1);
          EmptyNodeTrees(g, s1, o, self, i + 1);
          KeepsTrans(g, s, s1, EmptyNode(s1, o, self, i + 1).0);
        }
      }
    }
  }

  lemma {:induction false} EmptyHolderTrees(g: set<Object>, s: Forest, o: Object, i: nat)
    requires Single(g, s) && WellFormed(s) && Pinned(s)
    ensures Keeps(g, s, EmptyHolder(s, o, i).0)
    decreases |LiveSlots(s)|, 4, |s.Inside(o)| - i
  {
    if i >= |s.Inside(o)| {
      SameTrees(g, s, s);
    } else {
      var z := s.Inside(o)[i];
      RemoveTrees(g, s, z);
      RemoveSound(s, z);
      var (s1, done) := RemoveSlot(s, z);
      ShrinkMeasures(s, s1);
      if done == Done {
        ShrinkPinned(s, s1);
        SingleStays(g, s, s1);
        EmptyHolderTrees(g, s1, o, i + 1);
        KeepsTrans(g, s, s1, EmptyHolder(s1, o, i + 1).0);
      }
    }
  }

  // ---------------------------------------------------------------- new and moved slots

  lemma InsertedIndex(s: Forest, x: SlotId, y: SlotId, r: Slot, z: SlotId)
    requires Listed(s) && x in s.order && y !in s.order && z in s.order
    ensures var t := InsertAfter(s, x, y, r); var n := IndexOf(s.order, x) + 1;
      && z in t.order && IndexOf(t.order, z) != n && Was(n, IndexOf(t.order, z)) == IndexOf(s.order, z)
      && y in t.order && IndexOf(t.order, y) == n && |t.order| == |s.order| + 1
  {
    var t := InsertAfter(s, x, y, r);
    var n := IndexOf(s.order, x) + 1;
    var i := IndexOf(s.order, z);
    var j := if i < n then i else i + 1;
    InsertedAt(s, x, y, r, j);
    InsertedAt(s, x, y, r, n);
    InsertedAt(s, x, y, r, IndexOf(t.order, z));
    InsertedAt(s, x, y, r, IndexOf(t.order, y));
  }

  /** A slot that comes in deeper than `p` does not part `p` from what is below it. */
  lemma InsertBelow(s: Forest, x: SlotId, y: SlotId, r: Slot, p: SlotId, z: SlotId)
    requires Listed(s) && x in s.order && y !in s.order && Below(s, p, z)
    requires r.chain == s.S(x).chain && r.depth >= s.S(x).depth && (x == p ==> r.depth > s.S(p).depth)
    ensures Below(InsertAfter(s, x, y, r), p, z)
  {
    var t := InsertAfter(s, x, y, r);
    var n := IndexOf(s.order, x) + 1;
    InsertedIndex(s, x, y, r, p);
    InsertedIndex(s, x, y, r, z);
    forall k | IndexOf(t.order, p) < k <= IndexOf(t.order, z) ensures DeeperAt(t, p, k) {
      InsertedAt(s, x, y, r, k);
      if k != n {
        assert DeeperAt(s, p, Was(n, k));
      } else if x != p {
        assert DeeperAt(s, p, n - 1);
      }
    }
  }

  /** A slot behind `p` or behind something below `p`, and deeper than `p`, is below `p`. */
  lemma InsertedBelow(s: Forest, x: SlotId, y: SlotId, r: Slot, p: SlotId)
    requires Listed(s) && x in s.order && y !in s.order && (x == p || Below(s, p, x))
    requires r.chain == s.S(x).chain && r.depth > s.S(p).depth
    ensures Below(InsertAfter(s, x, y, r), p, y)
  {
    var t := InsertAfter(s, x, y, r);
    var n := IndexOf(s.order, x) + 1;
    InsertedIndex(s, x, y, r, p);
    forall k | IndexOf(t.order, p) < k <= n ensures DeeperAt(t, p, k) {
      InsertedAt(s, x, y, r, k);
      if k != n { assert DeeperAt(s, p, Was(n, k)); }
      if x != p { assert DeeperAt(s, p, n - 1); }
    }
  }

  ghost function Renamed(destination: SlotId, source: SlotId, z: SlotId): SlotId {
    if z == source then destination else z
  }

  lemma MovedIndex(s: Forest, destination: SlotId, source: SlotId, z: SlotId)
    requires Listed(s) && source in s.order && destination !in s.order && z in s.order
    ensures var t := MoveSlot(s, destination, source).0; var z' := Renamed(destination, source, z);
      z' in t.order && IndexOf(t.order, z') == IndexOf(s.order, z) && Alike(t.S(z'), s.S(z))
  {
    var t := MoveSlot(s, destination, source).0;
    var n := IndexOf(s.order, source);
    assert t.order == s.order[n := destination];
    assert t.order[IndexOf(s.order, z)] == Renamed(destination, source, z);
  }

  lemma MoveBelow(s: Forest, destination: SlotId, source: SlotId, p: SlotId, z: SlotId)
    requires Listed(s) && source in s.order && destination !in s.order && Below(s, p, z)
    ensures Below(MoveSlot(s, destination, source).0, Renamed(destination, source, p), Renamed(destination, source, z))
  {
    var t := MoveSlot(s, destination, source).0;
    var p' := Renamed(destination, source, p);
    MovedIndex(s, destination, source, p);
    MovedIndex(s, destination, source, z);
    forall k | IndexOf(s.order, p) < k <= IndexOf(s.order, z) ensures DeeperAt(t, p', k) {
      assert DeeperAt(s, p, k);
      MovedIndex(s, destination, source, s.order[k]);
      assert t.order[k] == Renamed(destination, source, s.order[k]);
    }
  }

  lemma RootBelow(s: Forest, y: SlotId, o: Object, p: SlotId, z: SlotId)
    requires Listed(s) && s.S(y).what.None? && Below(s, p, z)
    ensures Below(CreateRoot(s, y, o), p, z)
  {
    var t := CreateRoot(s, y, o);
    assert t.order[IndexOf(s.order, p)] == p && t.order[IndexOf(s.order, z)] == z;
    assert y !in s.order;
    forall k | IndexOf(s.order, p) < k <= IndexOf(s.order, z) ensures DeeperAt(t, p, k) {
      assert DeeperAt(s, p, k);
      RootAt(s, y, o, k);
    }
  }
}
