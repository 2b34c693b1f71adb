/** What copying, moving and creating do to the slots and to the links, and that removing a copy undoes it. */
module SlotEffects {
  import opened Common
  import opened Reclamation
  import opened ReclamationSafety
  import opened DerivationChain

  /** Only `y` changes, and the other slots keep their order. */
  ghost predicate OnlyAdds(s: Forest, t: Forest, y: SlotId) {
    && (forall z: SlotId :: z != y ==> t.S(z) == s.S(z))
    && y in t.order && Clear(t, y) == s.Set(y, EMPTY)
  }

  lemma Added(s: Forest, y: SlotId, r: Slot, order: seq<SlotId>, n: nat)
    requires n < |order| && order[n] == y && y !in order[..n] && order[..n] + order[n + 1..] == s.order
    ensures IndexOf(order, y) == n && OnlyAdds(s, s.Set(y, r).(order := order), y)
  {
    assert forall j :: 0 <= j < n ==> order[j] == order[..n][j];
    assert s.slots[y := r][y := EMPTY] == s.slots[y := EMPTY];
  }

  lemma InsertedEffect(s: Forest, x: SlotId, y: SlotId, r: Slot)
    requires Listed(s) && x in s.order && y !in s.order && r.chain == s.S(x).chain
    ensures var t := InsertAfter(s, x, y, r);
      && OnlyAdds(s, t, y) && t.S(y) == r
      && NextOf(t, x) == Some(y) && PreviousOf(t, y) == Some(x) && NextOf(t, y) == NextOf(s, x)
  {
    var t := InsertAfter(s, x, y, r);
    var n := IndexOf(s.order, x) + 1;
    InsertedAt(s, x, y, r, n - 1);
    InsertedAt(s, x, y, r, n);
    if n < |s.order| { InsertedAt(s, x, y, r, n + 1); }
    assert IndexOf(t.order, x) == n - 1;
    assert t.order[..n] == s.order[..n];
    assert t.order[..n] + t.order[n + 1..] == s.order;
    Added(s, y, r, t.order, n);
  }

  /** COPY: a vacant destination becomes a peer alias right behind the source; otherwise nothing happens. */
  lemma CopyEffect(s: Forest, destination: SlotId, source: SlotId)
    requires WellFormed(s)
    ensures var (t, ok) := CopySlot(s, destination, source);
      && (ok <==> s.S(destination).what.None?)
      && (!ok ==> t == s)
      && (ok && s.S(source).what.None? ==> t == s.Set(destination, EMPTY))
      && (ok && s.S(source).what.Some? ==>
            && OnlyAdds(s, t, destination)
            && t.S(destination) == s.S(source).(reclaiming := false)
            && NextOf(t, source) == Some(destination) && NextOf(t, destination) == NextOf(s, source))
  {
    if s.S(destination).what.None? && s.S(source).what.Some? {
      assert source in s.order && destination !in s.order;
      InsertedEffect(s, source, destination, s.S(source).(reclaiming := false));
    }
  }

  /** Removing the copy brings back the chain as it was. */
  lemma CopyThenRemove(s: Forest, destination: SlotId, source: SlotId)
    requires WellFormed(s) && s.S(destination).what.None? && s.S(source).what.Some?
    ensures RemoveSlot(CopySlot(s, destination, source).0, destination) == (s.Set(destination, EMPTY), Done)
  {
    var t := CopySlot(s, destination, source).0;
    CopyEffect(s, destination, source);
    CopyKeeps(s, destination, source);
    assert source != destination && SameObject(t.S(destination), t.S(source));
    HasSiblingIff(t, destination);
  }

  lemma MovedTo(q: seq<SlotId>, y: SlotId, n: nat)
    requires n < |q| && y !in q
    ensures IndexOf(q[n := y], y) == n
  {
    assert forall j :: 0 <= j < n ==> q[n := y][j] == q[j] && q[j] in q;
    assert q[n := y][n] == y;
  }

  /** MOVE: the destination takes over the source's record and both its neighbours; the source is empty. */
  lemma MoveEffect(s: Forest, destination: SlotId, source: SlotId)
    requires WellFormed(s)
    ensures var (t, ok) := MoveSlot(s, destination, source);
      && (ok <==> s.S(destination).what.None?)
      && (!ok ==> t == s)
      && (ok && s.S(source).what.None? ==> t == s.Set(destination, EMPTY))
      && (ok && s.S(source).what.Some? ==>
            && t.S(destination) == s.S(source).(reclaiming := false) && t.S(source) == EMPTY
            && (forall z: SlotId :: z != source && z != destination ==> t.S(z) == s.S(z))
            && NextOf(t, destination) == NextOf(s, source) && PreviousOf(t, destination) == PreviousOf(s, source)
            && t == s.(slots := t.slots, order := t.order))
  {
    if s.S(destination).what.None? && s.S(source).what.Some? {
      var t := MoveSlot(s, destination, source).0;
      var n := IndexOf(s.order, source);
      assert source in s.order && destination !in s.order;
      assert t.order == s.order[n := destination];
      MovedTo(s.order, destination, n);
      if n + 1 < |s.order| { assert s.order[n + 1] in s.order && s.order[n + 1] != source; }
      if 0 < n { assert s.order[n - 1] in s.order && s.order[n - 1] != source; }
    }
  }

  /** Moving back brings back everything. */
  lemma MoveBack(s: Forest, destination: SlotId, source: SlotId)
    requires WellFormed(s) && s.S(destination).what.None? && s.S(source).what.Some? && !s.S(source).reclaiming
    ensures MoveSlot(MoveSlot(s, destination, source).0, source, destination) == (s.Set(destination, EMPTY), true)
  {
    var t := MoveSlot(s, destination, source).0;
    var n := IndexOf(s.order, source);
    assert source in s.order && destination !in s.order;
    assert t.order == s.order[n := destination];
    MovedTo(s.order, destination, n);
    assert s.order[n := destination][n := source] == s.order;
    assert t.slots[source := s.S(source)][destination := EMPTY] == s.slots[destination := EMPTY];
  }

  ghost predicate ChildMade(s: Forest, t: Forest, parent: SlotId, last: SlotId, y: SlotId, o: Object) {
    && OnlyAdds(s, t, y) && t.S(y) == Slot(Some(o), s.S(parent).depth + 1, s.S(parent).chain, false)
    && PreviousOf(t, y) == Some(last) && Siblings(s.S(parent), s.S(last)) && NextOf(t, y) == NextOf(s, last)
  }

  /** A new object comes one deeper than its parent, right behind the last alias of the parent. */
  lemma ChildEffect(s: Forest, parent: SlotId, y: SlotId, o: Object)
    requires WellFormed(s) && s.S(parent).what.Some? && s.S(y).what.None?
    ensures ChildMade(s, InsertChild(s, parent, y, o), parent, LastAlias(s, parent, IndexOf(s.order, parent)), y, o)
  {
    assert parent in s.order && y !in s.order;
    var last := LastAlias(s, parent, IndexOf(s.order, parent));
    LastAliasIs(s, parent, IndexOf(s.order, parent));
    var r := Slot(Some(o), s.S(parent).depth + 1, s.S(parent).chain, false);
    InsertedEffect(s, last, y, r);
    assert ChildMade(s, InsertAfter(s, last, y, r), parent, last, y, o);
  }

  /** A root has no neighbours. */
  lemma RootEffect(s: Forest, y: SlotId, o: Object)
    requires WellFormed(s) && s.S(y).what.None?
    ensures var t := CreateRoot(s, y, o);
      && OnlyAdds(s, t, y) && t.S(y).what == Some(o) && t.S(y).depth == 0 && !t.S(y).reclaiming
      && NextOf(t, y).None? && PreviousOf(t, y).None?
  {
    var t := CreateRoot(s, y, o);
    var n := |s.order|;
    assert y !in s.order;
    assert t.order[..n] == s.order;
    Added(s, y, t.S(y), t.order, n);
    if 0 < n { RootAt(s, y, o, n - 1); }
  }
}
