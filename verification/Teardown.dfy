/**
 What a teardown accomplishes. Whatever it reports as finalised holds no slots any more, no object
 loses its last name without being finalised, and where nothing contains what it descends from, the
 teardown succeeds.
 */
module Teardown {
  import opened Common
  import opened Reclamation
  import opened ReclamationSafety
  import opened DerivationChain
  import opened Subtree

  // ---------------------------------------------------------------- finalised means empty

  ghost predicate Named(s: Forest, o: Object) {
    exists z: SlotId :: s.S(z).what == Some(o)
  }

  /** No slot of `o` is in use, except for one that names `o` itself. */
  ghost predicate Emptied(s: Forest, o: Object) {
    forall z :: z in s.Inside(o) ==> s.S(z).what.None? || s.S(z).what == Some(o)
  }

  /** If `o` is a Generic, all of its region may be carved again. */
  ghost predicate Reset(s: Forest, o: Object) {
    o in s.infos ==> s.infos[o].watermark == s.infos[o].base
  }

  /** Slots of `t` name what they named in `s`, or nothing; regions stay or start again. */
  ghost predicate Less(s: Forest, t: Forest) {
    && t.inside == s.inside && s.log <= t.log && SameRegions(s.infos, t.infos)
    && forall z: SlotId :: t.S(z).what.None? || t.S(z).what == s.S(z).what
  }

  /** What finalising `o` brings about: Nodes and processes are empty, Generics start again. */
  ghost predicate TornDown(t: Forest, o: Object) {
    if o.Leaf? then Reset(t, o) else Emptied(t, o)
  }

  /** Everything that was finalised on the way is finished. */
  ghost predicate Complete(s: Forest, t: Forest) {
    Less(s, t) && forall o :: Finalised(s, t, o) ==> TornDown(t, o)
  }

  /** The object of the slot still has a name, or was finalised, or is about to be. */
  ghost predicate AccountedAt(s: Forest, t: Forest, busy: set<Object>, x: SlotId)
    requires |s.log| <= |t.log|
  {
    s.S(x).what.Some? ==>
      var o := s.S(x).what.value; Named(t, o) || Finalised(s, t, o) || o in busy
  }

  /** Nothing lost its last name without being finalised. */
  ghost predicate Accounted(s: Forest, t: Forest)
    requires |s.log| <= |t.log|
  {
    forall x: SlotId :: AccountedAt(s, t, s.active, x)
  }

  lemma StaysTornDown(s: Forest, t: Forest, o: Object)
    requires Less(s, t) && TornDown(s, o)
    ensures TornDown(t, o)
  {
    if !o.Leaf? {
      forall z | z in t.Inside(o) ensures t.S(z).what.None? || t.S(z).what == Some(o) {
        assert z in s.Inside(o) && (t.S(z).what.None? || t.S(z).what == s.S(z).what);
      }
    }
  }

  lemma CompleteTwice(s: Forest, t: Forest, u: Forest)
    requires Complete(s, t) && Complete(t, u)
    ensures Complete(s, u)
    ensures Accounted(s, t) && Accounted(t, u) && t.active == s.active ==> Accounted(s, u)
  {
    forall z: SlotId ensures u.S(z).what.None? || u.S(z).what == s.S(z).what {
      assert t.S(z).what.None? || t.S(z).what == s.S(z).what;
      assert u.S(z).what.None? || u.S(z).what == t.S(z).what;
    }
    forall o | Finalised(s, u, o) ensures TornDown(u, o) {
      FinalisedWhen(s, t, u, o);
      if Finalised(s, t, o) { StaysTornDown(t, u, o); }
    }
    if Accounted(s, t) && Accounted(t, u) && t.active == s.active {
      forall x: SlotId ensures AccountedAt(s, u, s.active, x) {
        assert AccountedAt(s, t, s.active, x);
        if s.S(x).what.Some? {
          var o := s.S(x).what.value;
          FinalisedWhen(s, t, u, o);
          if z: SlotId :| t.S(z).what == Some(o) { assert AccountedAt(t, u, t.active, z); }
        }
      }
    }
  }

  lemma SameNames(s: Forest, t: Forest)
    requires t.inside == s.inside && t.log == s.log && t.infos == s.infos && forall z: SlotId :: t.S(z).what == s.S(z).what
    ensures Complete(s, t) && Accounted(s, t)
  {
    assert t.log[|s.log|..] == [];
    forall x: SlotId ensures AccountedAt(s, t, s.active, x) { assert t.S(x).what == s.S(x).what; }
  }

  /** A slot goes whose object has another name, or is finalised or being so. */
  lemma ClearComplete(s: Forest, x: SlotId)
    ensures Complete(s, Clear(s, x)) && Clear(s, x).log == s.log
    ensures forall z: SlotId :: z != x ==> Clear(s, x).S(z) == s.S(z)
  {
    assert s.log[|s.log|..] == [];
  }

  lemma ClearAccounted(s: Forest, x: SlotId)
    requires s.S(x).what.None? || Active(s, s.S(x)) || exists y: SlotId :: y != x && SameObject(s.S(x), s.S(y))
    ensures Accounted(s, Clear(s, x))
  {
    var t := Clear(s, x);
    ClearComplete(s, x);
    forall z: SlotId ensures AccountedAt(s, t, s.active, z) {
      if z != x {
        assert t.S(z) == s.S(z);
      } else if y: SlotId :| y != x && SameObject(s.S(x), s.S(y)) {
        assert t.S(y) == s.S(y);
      }
    }
  }

  /** No slot of `o` is in use, except perhaps for `x`. */
  ghost predicate VacantBut(t: Forest, o: Object, x: SlotId) {
    forall z :: z in t.Inside(o) && z != x ==> t.S(z).what.None?
  }

  /** The object `o` of slot `x` was finalised, or that is under way. */
  ghost predicate Settles(s: Forest, t: Forest, o: Object, x: SlotId)
    requires |s.log| <= |t.log|
  {
    o in s.active || (Finalised(s, t, o) && (o.Leaf? || VacantBut(t, o, x)))
  }

  lemma {:induction false} RevokeComplete(s: Forest, x: SlotId)
    requires WellFormed(s) && Pinned(s)
    ensures var (t, done) := RevokeSlot(s, x);
      && Complete(s, t)
      && (done == Done ==> Accounted(s, t) && s.S(x).what.Some? && Settles(s, t, s.S(x).what.value, x))
    decreases |LiveSlots(s)|, 1, 0
  {
    if s.S(x).what.None? || s.S(x).reclaiming {
      SameNames(s, s);
    } else {
      DescentSound(s, x);
      DescentComplete(s, x);
      var (s2, done) := Descent(s, x);
      if done == Done {
        FinaliseComplete(s2, x);
        var (s3, ok) := Finalise(s2, x);
        CompleteTwice(s, s2, s3);
        SameNames(s3, Unpin(s3, x));
        CompleteTwice(s, s3, Unpin(s3, x));
        FinalisedWhen(s, s2, s3, s.S(x).what.value);
        assert Unpin(s3, x).log == s3.log;
      } else {
        SameNames(s2, Unpin(s2, x));
        CompleteTwice(s, s2, Unpin(s2, x));
      }
    }
  }

  lemma {:induction false} DescentComplete(s: Forest, x: SlotId)
    requires WellFormed(s) && Pinned(s) && s.S(x).what.Some? && !s.S(x).reclaiming
    ensures var (t, done) := Descent(s, x); Complete(s, t) && (done == Done ==> Accounted(s, t))
    decreases |LiveSlots(s)|, 0, 1
  {
    PinMeasure(s, x);
    var s1 := Pin(s, x);
    SameNames(s, s1);
    SameLinks(s, s1);
    var last := LastAlias(s1, x, IndexOf(s1.order, x));
    LastAliasIs(s1, x, IndexOf(s1.order, x));
    if Childless(s1.S(x)) {
      NoDescendants(s1, x, last);
    } else {
      forall z: SlotId ensures PinnedAt(s1, z) { assert PinnedAt(s, z); }
      DescendantsComplete(s1, x, last);
      CompleteTwice(s, s1, Descent(s, x).0);
    }
  }

  lemma {:induction false} DescendantsComplete(s: Forest, x: SlotId, last: SlotId)
    requires WellFormed(s) && Pinned(s)
    ensures var (t, done) := RemoveDescendants(s, x, last); Complete(s, t) && (done == Done ==> Accounted(s, t))
    decreases |LiveSlots(s)|, 3, |DeepSlots(s)|
  {
    SameNames(s, s);
    if NextOf(s, last).Some? && s.S(NextOf(s, last).value).depth > s.S(x).depth {
      var y := NextOf(s, last).value;
      RemoveComplete(s, y);
      RemoveSound(s, y);
      var (s1, done) := RemoveSlot(s, y);
      if done == Done {
        EmptiedIsShallower(s, s1, y);
        ShrinkPinned(s, s1);
        DescendantsComplete(s1, x, last);
        CompleteTwice(s, s1, RemoveDescendants(s1, x, last).0);
      }
    }
  }

  lemma {:induction false} RemoveComplete(s: Forest, x: SlotId)
    requires WellFormed(s) && Pinned(s)
    ensures var (t, done) := RemoveSlot(s, x); Complete(s, t) && (done == Done ==> Accounted(s, t))
    decreases |LiveSlots(s)|, 2, 0
  {
    SameNames(s, s);
    ClearComplete(s, x);
    if s.S(x).reclaiming {
      if Active(s, s.S(x)) { ClearAccounted(s, x); }
    } else if s.S(x).what.None? {
      ClearAccounted(s, x);
    } else if HasSibling(s, x) {
      HasSiblingIff(s, x);
      ClearAccounted(s, x);
    } else {
      RevokeComplete(s, x);
      var (s1, done) := RevokeSlot(s, x);
      if done == Done { RevokedComplete(s, s1, x); }
    }
  }

  /** The last name of a finalised object goes. */
  lemma RevokedComplete(s: Forest, t: Forest, x: SlotId)
    requires Complete(s, t) && Accounted(s, t) && s.S(x).what.Some? && Settles(s, t, s.S(x).what.value, x)
    ensures Complete(s, Clear(t, x)) && Accounted(s, Clear(t, x))
  {
    var u := Clear(t, x);
    ClearComplete(t, x);
    CompleteTwice(s, t, u);
    assert t.S(x).what.None? || t.S(x).what == s.S(x).what;
    forall z: SlotId ensures AccountedAt(s, u, s.active, z) {
      assert AccountedAt(s, t, s.active, z);
      if s.S(z).what.Some? && s.S(z).what != s.S(x).what {
        if y: SlotId :| t.S(y).what == s.S(z).what { assert u.S(y) == t.S(y); }
      }
    }
  }

  lemma {:induction false} FinaliseComplete(s: Forest, x: SlotId)
    requires WellFormed(s) && s.S(x).what.Some? && forall z: SlotId :: z != x ==> PinnedAt(s, z)
    ensures var (t, ok) := Finalise(s, x);
      && Complete(s, t) && (ok ==> Accounted(s, t) && Settles(s, t, s.S(x).what.value, x))
    decreases |LiveSlots(s)|, 5, 0
  {
    var o := s.S(x).what.value;
    SameNames(s, s);
    match o
    case Leaf(_) =>
      if !(o in s.failing || (o in s.infos && HasChild(s, x))) {
        RestartComplete(s, o);
      } else {
        SameNames(s, s.(refused := true));
      }
    case Node(_) => if o !in s.active { NodeComplete(s, x, o); }
    case Holder(_) =>
      forall z: SlotId ensures PinnedAt(s, z) { assert z != x ==> PinnedAt(s, z); }
      if o !in s.failing {
        EmptyHolderComplete(s, o, 0);
        var (t, ok) := EmptyHolder(s, o, 0);
        if ok {
          assert t.S(x).what.None? || t.S(x).what == s.S(x).what;
          EmptiedNow(t, o, x, None);
          forall k: SlotId ensures AccountedAt(s, t, s.active + {o}, k) { assert AccountedAt(s, t, s.active, k); }
          LogComplete(s, t, o);
        }
      }
  }

  /** The cleanup of an object without slots. */
  lemma RestartComplete(s: Forest, o: Object)
    requires o.Leaf?
    ensures var t := Finished(s, o); Complete(s, t) && Accounted(s, t) && Finalised(s, t, o)
  {
    var s1 := s.(infos := if o in s.infos then s.infos[o := Restarted(s.infos[o])] else s.infos);
    assert s1.log[|s.log|..] == [];
    forall k: SlotId ensures AccountedAt(s, s1, s.active + {o}, k) { assert s1.S(k) == s.S(k); }
    LogComplete(s, s1, o);
    assert Finished(s, o) == s1.(log := s1.log + [o]);
  }

  /** An object that is finished is recorded as finalised. */
  lemma LogComplete(s: Forest, t: Forest, o: Object)
    requires Complete(s, t) && TornDown(t, o)
    requires forall x: SlotId :: AccountedAt(s, t, s.active + {o}, x)
    ensures var u := t.(log := t.log + [o]); Complete(s, u) && Accounted(s, u) && Finalised(s, u, o)
  {
    var u := t.(log := t.log + [o]);
    assert u.log[|s.log|..] == t.log[|s.log|..] + [o];
    forall k | Finalised(s, u, k) ensures TornDown(u, k) {
      assert TornDown(t, k);
      if !k.Leaf? {
        forall z | z in u.Inside(k) ensures u.S(z).what.None? || u.S(z).what == Some(k) { assert z in t.Inside(k); }
      }
    }
    forall x: SlotId ensures AccountedAt(s, u, s.active, x) {
      assert AccountedAt(s, t, s.active + {o}, x);
      if s.S(x).what.Some? {
        if z: SlotId :| t.S(z).what == s.S(x).what { assert u.S(z).what == s.S(x).what; }
      }
    }
  }

  lemma {:induction false} NodeComplete(s: Forest, x: SlotId, o: Object)
    requires WellFormed(s) && s.S(x).what == Some(o) && o.Node? && o !in s.active && forall z: SlotId :: z != x ==> PinnedAt(s, z)
    ensures var (t, ok) := Finalise(s, x);
      && Complete(s, t) && (ok ==> Accounted(s, t) && Finalised(s, t, o) && VacantBut(t, o, x))
    decreases |LiveSlots(s)|, 4, |s.Inside(o)| + 1
  {
    var s1 := s.(active := s.active + {o});
    SameLinks(s, s1);
    forall z: SlotId ensures PinnedAt(s1, z) { assert z != x ==> PinnedAt(s, z); }
    EmptyNodeComplete(s1, o, x, 0);
    var (t1, ok) := EmptyNode(s1, o, x, 0);
    var t := t1.(active := s.active);
    SameNames(s, s1);
    CompleteTwice(s, s1, t1);
    SameNames(t1, t);
    CompleteTwice(s, t1, t);
    if ok {
      forall k: SlotId ensures AccountedAt(s, t, s.active + {o}, k) {
        assert AccountedAt(s1, t1, s1.active, k);
        if s.S(k).what.Some? {
          if z: SlotId :| t1.S(z).what == s.S(k).what { assert t.S(z).what == s.S(k).what; }
        }
      }
      assert t.S(x).what.None? || t.S(x).what == s.S(x).what;
      assert t.Inside(o) == s1.Inside(o);
      EmptiedNow(t, o, x, Some(x));
      LogComplete(s, t, o);
      assert Finalise(s, x).0 == t.(log := t.log + [o]);
    } else {
      assert Finalise(s, x).0 == t;
    }
  }

  /** From the `i`th on the slots are vacant, except for the one to be left alone. */
  ghost predicate VacantFrom(q: seq<SlotId>, t: Forest, i: nat, but: Option<SlotId>) {
    forall j :: i <= j < |q| && but != Some(q[j]) ==> t.S(q[j]).what.None?
  }

  /** One slot is vacated, then the ones after it. */
  lemma OneMoreVacant(s: Forest, s1: Forest, t: Forest, o: Object, i: nat, but: Option<SlotId>, ok: bool)
    requires i < |s.Inside(o)| && s1.S(s.Inside(o)[i]).what.None? && s1.active == s.active
    requires Complete(s, s1) && Accounted(s, s1) && Complete(s1, t)
    requires ok ==> Accounted(s1, t) && VacantFrom(s1.Inside(o), t, i + 1, but)
    ensures Complete(s, t) && (ok ==> Accounted(s, t) && VacantFrom(s.Inside(o), t, i, but))
  {
    CompleteTwice(s, s1, t);
    var z := s.Inside(o)[i];
    assert t.S(z).what != s1.S(z).what ==> t.S(z).what.None?;
  }

  lemma EmptiedNow(t: Forest, o: Object, x: SlotId, but: Option<SlotId>)
    requires VacantFrom(t.Inside(o), t, 0, but) && (but == Some(x) || but == None)
    requires t.S(x).what.None? || t.S(x).what == Some(o)
    ensures Emptied(t, o) && VacantBut(t, o, x)
  {
    forall z | z in t.Inside(o) ensures t.S(z).what.None? || (z == x && t.S(z).what == Some(o)) {
      var j :| 0 <= j < |t.Inside(o)| && t.Inside(o)[j] == z;
    }
  }

  /** The loop over a Node's slots leaves them empty, up to the slot that is being revoked. */
  lemma {:induction false} EmptyNodeComplete(s: Forest, o: Object, self: SlotId, i: nat)
    requires WellFormed(s) && Pinned(s) && o in s.active && (s.S(self).what.None? || s.S(self).what == Some(o))
    ensures var (t, ok) := EmptyNode(s, o, self, i);
      && Complete(s, t)
      && (ok ==> Accounted(s, t) && VacantFrom(s.Inside(o), t, i, Some(self)))
    decreases |LiveSlots(s)|, 4, |s.Inside(o)| - i
  {
    SameNames(s, s);
    if i < |s.Inside(o)| {
      var z := s.Inside(o)[i];
      var same := SameObject(s.S(z), s.S(self));
      if z == self || (s.S(z).what.None? && !same) {
        EmptyNodeComplete(s, o, self, i + 1);
        var (t, ok) := EmptyNode(s, o, self, i + 1);
        if z != self { OneMoreVacant(s, s, t, o, i, Some(self), ok); }
      } else {
        var (s1, done) := if same then (Clear(s, z), Done) else RemoveSlot(s, z);
        if same {
          ClearComplete(s, z);
          ClearAccounted(s, z);
          ChildlessRemovable(s, z);
          ClearKeeps(s, z);
        } else {
          RemoveComplete(s, z);
          RemoveSound(s, z);
        }
        ShrinkMeasures(s, s1);
        if done == Done {
          ShrinkPinned(s, s1);
          assert s1.S(self) == s.S(self) || s1.S(self) == EMPTY;
          EmptyNodeComplete(s1, o, self, i + 1);
          var (t, ok) := EmptyNode(s1, o, self, i + 1);
          OneMoreVacant(s, s1, t, o, i, Some(self), ok);
        }
      }
    }
  }

  lemma {:induction false} EmptyHolderComplete(s: Forest, o: Object, i: nat)
    requires WellFormed(s) && Pinned(s)
    ensures var (t, ok) := EmptyHolder(s, o, i);
      && Complete(s, t)
      && (ok ==> Accounted(s, t) && VacantFrom(s.Inside(o), t, i, None))
    decreases |LiveSlots(s)|, 4, |s.Inside(o)| - i
  {
    SameNames(s, s);
    if i < |s.Inside(o)| {
      var z := s.Inside(o)[i];
      RemoveComplete(s, z);
      RemoveSound(s, z);
      var (s1, done) := RemoveSlot(s, z);
      ShrinkMeasures(s, s1);
      if done == Done {
        ShrinkPinned(s, s1);
        EmptyHolderComplete(s1, o, i + 1);
        var (t, ok) := EmptyHolder(s1, o, i + 1);
        OneMoreVacant(s, s1, t, o, i, None, ok);
      }
    }
  }

  // ---------------------------------------------------------------- one Node or process

  /** A successful revocation of a Node or a process leaves none of its slots in use but the revoked one. */
  lemma RevokeEmpties(s: Forest, x: SlotId)
    requires WellFormed(s) && Pinned(s) && RevokeSlot(s, x).1 == Done
    requires !s.S(x).what.value.Leaf? && s.S(x).what.value !in s.active
    ensures var t := RevokeSlot(s, x).0; var o := s.S(x).what.value;
      && s.log <= t.log && Finalised(s, t, o)
      && forall z :: z in s.Inside(o) && z != x ==> t.S(z).what.None?
  {
    RevokeComplete(s, x);
    var t := RevokeSlot(s, x).0;
    assert VacantBut(t, s.S(x).what.value, x) && t.inside == s.inside;
  }

  /** Removing the last name of a Node or a process empties it; removing another name leaves it alone. */
  lemma RemoveEmpties(s: Forest, x: SlotId)
    requires WellFormed(s) && Pinned(s) && RemoveSlot(s, x).1 == Done && s.S(x).what.Some? && !s.S(x).reclaiming
    requires !s.S(x).what.value.Leaf? && s.S(x).what.value !in s.active
    ensures var t := RemoveSlot(s, x).0;
      if HasSibling(s, x) then t == Clear(s, x)
      else s.log <= t.log && Finalised(s, t, s.S(x).what.value) && forall z :: z in s.Inside(s.S(x).what.value) ==> t.S(z).what.None?
  {
    RemoveComplete(s, x);
    if !HasSibling(s, x) {
      RevokeEmpties(s, x);
      var t := RemoveSlot(s, x).0;
      assert t.log == RevokeSlot(s, x).0.log && t.S(x) == EMPTY;
      forall z | z in s.Inside(s.S(x).what.value) ensures t.S(z).what.None? {
        assert z != x ==> t.S(z) == RevokeSlot(s, x).0.S(z);
      }
    }
  }
}
