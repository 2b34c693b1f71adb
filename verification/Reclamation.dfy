/**
 Reclamation of capabilities: revoking a slot removes its descendants and finalises its object, and
 finalising a Node or a process removes the slots it contains, which may lead back to slots
 that are already being revoked.

 The dependency links are held as one sequence of slots: the chains one after the other, each slot
 labelled with its chain. A slot that is in no chain, or alone in one, has no neighbours.
 */
module Reclamation {
  import opened Common
  import G = GenericAllocator

  const SLOTS: nat := 0x1_0000_0000_0000_0000
  type SlotId = x: nat | x < SLOTS

  /** Nodes and processes contain slots; everything else (`Leaf`) does not. */
  datatype Object = Node(id: nat) | Holder(id: nat) | Leaf(id: nat)

  datatype Slot = Slot(what: Option<Object>, depth: nat, chain: nat, reclaiming: bool)

  const EMPTY: Slot := Slot(None, 0, 0, false)

  type Slots = q: seq<Slot> | |q| == SLOTS ghost witness seq(SLOTS, i => EMPTY)

  /**
   `active` are the Nodes whose finaliser is running, `log` the objects finalised so far, `failing`
   the objects whose own cleanup reports an error, and `crashed` says that the object of an empty
   slot was used. `infos` are the regions of the Generics, which their slots hold, and `refused` says
   that a Generic was to be cleaned up while something made from it was left.
   */
  datatype Forest = Forest(
    slots: Slots,
    order: seq<SlotId>,
    inside: map<Object, seq<SlotId>>,
    active: set<Object>,
    failing: set<Object>,
    log: seq<Object>,
    crashed: bool,
    infos: map<Object, G.Info>,
    refused: bool)
  {
    function S(x: SlotId): Slot { slots[x] }
    function Set(x: SlotId, r: Slot): Forest { this.(slots := slots[x := r]) }
    function Inside(o: Object): seq<SlotId> { if o in inside then inside[o] else [] }
  }

  datatype Result = Done | IllegalArgument | Unexpected

  // ---------------------------------------------------------------- links

  function IndexFrom(q: seq<SlotId>, x: SlotId, k: nat): (i: nat)
    requires k <= |q|
    ensures k <= i <= |q| && (i < |q| ==> q[i] == x)
    ensures forall j :: k <= j < i ==> q[j] != x
    decreases |q| - k
  {
    if k == |q| || q[k] == x then k else IndexFrom(q, x, k + 1)
  }

  /** The position of `x`, or the length of the sequence. */
  function IndexOf(q: seq<SlotId>, x: SlotId): (i: nat)
    ensures i <= |q| && (i < |q| <==> x in q)
    ensures i < |q| ==> q[i] == x
    ensures forall j :: 0 <= j < i ==> q[j] != x
  {
    IndexFrom(q, x, 0)
  }

  function NextOf(s: Forest, x: SlotId): Option<SlotId> {
    var i := IndexOf(s.order, x);
    if i + 1 < |s.order| && s.S(s.order[i + 1]).chain == s.S(x).chain then Some(s.order[i + 1]) else None
  }

  function PreviousOf(s: Forest, x: SlotId): Option<SlotId> {
    var i := IndexOf(s.order, x);
    if 0 < i < |s.order| && s.S(s.order[i - 1]).chain == s.S(x).chain then Some(s.order[i - 1]) else None
  }

  predicate SameObject(a: Slot, b: Slot) {
    a.what.Some? && a.what == b.what
  }

  predicate Siblings(a: Slot, b: Slot) {
    a.depth == b.depth && SameObject(a, b)
  }

  /** The neighbours name the same object at the same depth. */
  predicate HasSibling(s: Forest, x: SlotId) {
    || (NextOf(s, x).Some? && Siblings(s.S(x), s.S(NextOf(s, x).value)))
    || (PreviousOf(s, x).Some? && Siblings(s.S(x), s.S(PreviousOf(s, x).value)))
  }

  function LastAlias(s: Forest, x: SlotId, i: nat): (y: SlotId)
    requires (i < |s.order| && s.order[i] == x) || i == |s.order|
    decreases |s.order| - i
  {
    if i + 1 < |s.order| && s.S(s.order[i + 1]).chain == s.S(x).chain && Siblings(s.S(x), s.S(s.order[i + 1]))
    then LastAlias(s, s.order[i + 1], i + 1) else x
  }

  /** Something hangs below the alias group of `x`. */
  predicate HasChild(s: Forest, x: SlotId) {
    var last := LastAlias(s, x, IndexOf(s.order, x));
    NextOf(s, last).Some? && s.S(NextOf(s, last).value).depth > s.S(x).depth
  }

  /** The slot leaves its chain and is emptied. */
  function Clear(s: Forest, x: SlotId): Forest {
    var i := IndexOf(s.order, x);
    if i < |s.order| then s.Set(x, EMPTY).(order := s.order[..i] + s.order[i + 1..]) else s.Set(x, EMPTY)
  }

  function Pin(s: Forest, x: SlotId): Forest { s.Set(x, s.S(x).(reclaiming := true)) }
  function Unpin(s: Forest, x: SlotId): Forest { s.Set(x, s.S(x).(reclaiming := false)) }

  // ---------------------------------------------------------------- what reclamation may change

  /** Slots are emptied or left as they are; nothing else happens to them. */
  ghost predicate Shrinks(s: Forest, t: Forest) {
    && (forall x: SlotId :: t.S(x) == s.S(x) || t.S(x) == EMPTY)
    && t.inside == s.inside && t.failing == s.failing && t.active == s.active && SameRegions(s.infos, t.infos)
  }

  /** All of the region may be carved again. */
  function Restarted(g: G.Info): G.Info { g.(watermark := g.base) }

  ghost predicate SameRegions(a: map<Object, G.Info>, b: map<Object, G.Info>) {
    a.Keys == b.Keys && forall o :: o in a ==> b[o] == a[o] || b[o] == Restarted(a[o])
  }

  ghost function LiveSlots(s: Forest): set<int> {
    set x: int | 0 <= x < SLOTS && s.slots[x].what.Some? && !s.slots[x].reclaiming
  }

  ghost function DeepSlots(s: Forest): set<int> {
    set x: int | 0 <= x < SLOTS && s.slots[x].depth > 0
  }

  lemma Fewer(a: set<int>, b: set<int>)
    requires a <= b
    ensures |a| <= |b| && (a != b ==> |a| < |b|)
  {
    assert b == a + (b - a);
  }

  lemma ShrinkMeasures(s: Forest, t: Forest)
    requires Shrinks(s, t)
    ensures |LiveSlots(t)| <= |LiveSlots(s)| && |DeepSlots(t)| <= |DeepSlots(s)|
  {
    forall x | x in LiveSlots(t) ensures x in LiveSlots(s) { var y: SlotId := x; assert t.S(y) == s.S(y) || t.S(y) == EMPTY; }
    forall x | x in DeepSlots(t) ensures x in DeepSlots(s) { var y: SlotId := x; assert t.S(y) == s.S(y) || t.S(y) == EMPTY; }
    Fewer(LiveSlots(t), LiveSlots(s));
    Fewer(DeepSlots(t), DeepSlots(s));
  }

  lemma ShrinkTrans(s: Forest, t: Forest, u: Forest)
    requires Shrinks(s, t) && Shrinks(t, u)
    ensures Shrinks(s, u)
  {
    forall x: SlotId ensures u.S(x) == s.S(x) || u.S(x) == EMPTY {
      assert t.S(x) == s.S(x) || t.S(x) == EMPTY;
      assert u.S(x) == t.S(x) || u.S(x) == EMPTY;
    }
  }

  lemma ClearShrinks(s: Forest, x: SlotId)
    ensures Shrinks(s, Clear(s, x)) && Clear(s, x).S(x) == EMPTY
  {
  }

  lemma PinMeasure(s: Forest, x: SlotId)
    requires s.S(x).what.Some? && !s.S(x).reclaiming
    ensures |LiveSlots(Pin(s, x))| < |LiveSlots(s)|
  {
    assert x in LiveSlots(s) && x !in LiveSlots(Pin(s, x));
    forall y | y in LiveSlots(Pin(s, x)) ensures y in LiveSlots(s) {}
    Fewer(LiveSlots(Pin(s, x)), LiveSlots(s));
  }

  /** Between pinning and unpinning only emptying happens, so on the whole only emptying happens. */
  lemma UnpinShrinks(s: Forest, x: SlotId, t: Forest)
    requires !s.S(x).reclaiming && Shrinks(Pin(s, x), t)
    ensures Shrinks(s, Unpin(t, x))
  {
    forall y: SlotId ensures Unpin(t, x).S(y) == s.S(y) || Unpin(t, x).S(y) == EMPTY {
      assert t.S(y) == Pin(s, x).S(y) || t.S(y) == EMPTY;
    }
  }

  lemma EmptiedIsShallower(s: Forest, t: Forest, x: SlotId)
    requires Shrinks(s, t) && s.S(x).depth > 0 && t.S(x) == EMPTY
    ensures |LiveSlots(t)| <= |LiveSlots(s)| && |DeepSlots(t)| < |DeepSlots(s)|
  {
    ShrinkMeasures(s, t);
    assert x in DeepSlots(s) && x !in DeepSlots(t);
    forall y | y in DeepSlots(t) ensures y in DeepSlots(s) { var z: SlotId := y; assert t.S(z) == s.S(z) || t.S(z) == EMPTY; }
    Fewer(DeepSlots(t), DeepSlots(s));
  }

  // ---------------------------------------------------------------- the teardown

  /** Revoke: the descendants go first, then the object itself is finalised. */
  function RevokeSlot(s: Forest, x: SlotId): (r: (Forest, Result))
    ensures Shrinks(s, r.0)
    decreases |LiveSlots(s)|, 1, 0
  {
    if s.S(x).what.None? || s.S(x).reclaiming then (s, IllegalArgument)
    else
      PinMeasure(s, x);
      var s1 := Pin(s, x);
      var (s2, done) := RemoveDescendants(s1, x, LastAlias(s1, x, IndexOf(s1.order, x)));
      ShrinkMeasures(s1, s2);
      UnpinShrinks(s, x, s2);
      if done != Done then (Unpin(s2, x), done)
      else if s2.S(x).what.None? then (Unpin(s2, x).(crashed := true), Unexpected)
      else
        var (s3, ok) := Finalise(s2, x);
        ShrinkTrans(s1, s2, s3);
        UnpinShrinks(s, x, s3);
        (Unpin(s3, x), if ok then Done else Unexpected)
  }

  function RemoveDescendants(s: Forest, x: SlotId, last: SlotId): (r: (Forest, Result))
    ensures Shrinks(s, r.0)
    decreases |LiveSlots(s)|, 3, |DeepSlots(s)|
  {
    if NextOf(s, last).Some? && s.S(NextOf(s, last).value).depth > s.S(x).depth then
      var y := NextOf(s, last).value;
      var (s1, done) := RemoveSlot(s, y);
      if done != Done then (s1, done)
      else
        EmptiedIsShallower(s, s1, y);
        var r := RemoveDescendants(s1, x, last);
        ShrinkTrans(s, s1, r.0);
        r
    else (s, Done)
  }

  function RemoveSlot(s: Forest, x: SlotId): (r: (Forest, Result))
    ensures Shrinks(s, r.0)
    ensures r.1 == Done ==> r.0.S(x) == EMPTY
    decreases |LiveSlots(s)|, 2, 0
  {
    ClearShrinks(s, x);
    if s.S(x).reclaiming then
      if s.S(x).what.Some? && s.S(x).what.value in s.active then (Clear(s, x), Done) else (s, IllegalArgument)
    else if s.S(x).what.None? || HasSibling(s, x) then (Clear(s, x), Done)
    else
      var (s1, done) := RevokeSlot(s, x);
      ClearShrinks(s1, x);
      ShrinkTrans(s, s1, Clear(s1, x));
      if done != Done then (s1, Unexpected)
      else (Clear(s1, x), Done)
  }

  /** An object that holds no slots is cleaned up; a Generic starts again at its base. */
  function Finished(s: Forest, o: Object): Forest {
    s.(log := s.log + [o], infos := if o in s.infos then s.infos[o := Restarted(s.infos[o])] else s.infos)
  }

  /** The object's own cleanup. */
  function Finalise(s: Forest, x: SlotId): (r: (Forest, bool))
    requires s.S(x).what.Some?
    ensures Shrinks(s, r.0)
    decreases |LiveSlots(s)|, 5, 0
  {
    var o := s.S(x).what.value;
    match o
    case Leaf(_) =>
      if o in s.failing then (s, false)
      else if o in s.infos && HasChild(s, x) then (s.(refused := true), false)
      else (Finished(s, o), true)
    case Node(_) =>
      if o in s.active then (s, true)
      else
        var s1 := s.(active := s.active + {o});
        var (t, ok) := EmptyNode(s1, o, x, 0);
        assert forall y: SlotId :: (t.S(y) == s1.S(y) || t.S(y) == EMPTY) ==> (t.S(y) == s.S(y) || t.S(y) == EMPTY);
        (t.(active := s.active, log := if ok then t.log + [o] else t.log), ok)
    case Holder(_) =>
      if o in s.failing then (s, false)
      else
        var (t, ok) := EmptyHolder(s, o, 0);
        (if ok then t.(log := t.log + [o]) else t, ok)
  }

  /** A Node's slots in order; the slot being revoked stays, other aliases of the Node just go. */
  function EmptyNode(s: Forest, o: Object, self: SlotId, i: nat): (r: (Forest, bool))
    ensures Shrinks(s, r.0)
    decreases |LiveSlots(s)|, 4, |s.Inside(o)| - i
  {
    if i >= |s.Inside(o)| then (s, true)
    else
      var z := s.Inside(o)[i];
      if z == self || (s.S(z).what.None? && !SameObject(s.S(z), s.S(self))) then EmptyNode(s, o, self, i + 1)
      else
        var (s1, done) := if SameObject(s.S(z), s.S(self)) then (Clear(s, z), Done) else RemoveSlot(s, z);
        ShrinkMeasures(s, s1);
        if done != Done then (s1, false)
        else
          var r := EmptyNode(s1, o, self, i + 1);
          ShrinkTrans(s, s1, r.0);
          r
  }

  /** A process gives up the slots it owns, stopping at the first that cannot be removed. */
  function EmptyHolder(s: Forest, o: Object, i: nat): (r: (Forest, bool))
    ensures Shrinks(s, r.0)
    decreases |LiveSlots(s)|, 4, |s.Inside(o)| - i
  {
    if i >= |s.Inside(o)| then (s, true)
    else
      var (s1, done) := RemoveSlot(s, s.Inside(o)[i]);
      ShrinkMeasures(s, s1);
      if done != Done then (s1, false)
      else
        var r := EmptyHolder(s1, o, i + 1);
        ShrinkTrans(s, s1, r.0);
        r
  }
}
