/**
 Generics together with the derivation chain: CONVERT carves memory and hangs the new object below the
 Generic's slot, and the watermark returns to the base when the Generic is finalised. Whether memory is
 reused too early is a question about the chain.
 */
module GenericChain {
  import opened Common
  import opened Reclamation
  import opened ReclamationSafety
  import opened DerivationChain
  import opened Subtree
  import G = GenericAllocator

  /** From which Generic an object was carved, and where it lies. */
  datatype Carving = Carving(generic: Object, block: G.Block)

  /**
   The slots and what was carved for every object. A Generic's region is data of its slot; since
   Generic slots cannot be copied, there is one per object.
   */
  datatype Machine = Machine(f: Forest, made: map<Object, Carving>)
  {
    const infos: map<Object, G.Info> := f.infos
  }

  // ---------------------------------------------------------------- operations

  datatype Target = Target(slot: SlotId, what: Object)

  /** The object `o` in slot `y` is carved from `g`, whose slot is `x`; `child` is its region if it is a Generic. */
  function Place(m: Machine, x: SlotId, g: Object, y: SlotId, o: Object, block: G.Block, h: G.Info, child: Option<G.Info>): Machine {
    var infos := (m.infos - {o})[g := h];
    Machine(
      InsertChild(m.f, x, y, o).(infos := if child.Some? then infos[o := child.value] else infos),
      m.made[o := Carving(g, block)])
  }

  /** One object per target slot, until a slot is taken or memory runs out. */
  function ConvertEach(m: Machine, x: SlotId, g: Object, bits: nat, targets: seq<Target>): Machine
    requires g in m.infos
    decreases |targets|
  {
    if targets == [] || m.f.S(targets[0].slot).what.Some? then m
    else match G.TryAllocate(m.infos[g], bits)
      case None => m
      case Some((start, h)) =>
        ConvertEach(Place(m, x, g, targets[0].slot, targets[0].what, G.Block(start, bits), h, None), x, g, bits, targets[1..])
  }

  function Convert(m: Machine, x: SlotId, bits: nat, targets: seq<Target>): Machine {
    if m.f.S(x).what.None? || m.f.S(x).what.value !in m.infos then m
    else
      var g := m.f.S(x).what.value;
      if targets == [] || !G.IsAllocatable(m.infos[g], bits, |targets|) then m
      else ConvertEach(m, x, g, bits, targets)
  }

  /** A new Generic is carved; this resets the links of `x`, so it is described for a slot without links only. */
  function ConvertGeneric(m: Machine, x: SlotId, bits: nat, target: Target): Machine {
    if m.f.S(x).what.None? || m.f.S(x).what.value !in m.infos || m.f.S(target.slot).what.Some? then m
    else
      var g := m.f.S(x).what.value;
      if !G.IsAllocatable(m.infos[g], bits, 1) then m
      else match G.TryAllocate(m.infos[g], bits)
        case None => m
        case Some((start, h)) =>
          Place(m, x, g, target.slot, target.what, G.Block(start, bits), h, Some(G.Info(start, bits, start)))
  }

  /** Boot hands out regions that belong to no other Generic. */
  function CreateGeneric(m: Machine, y: SlotId, o: Object, base: G.Word64, bits: nat): Machine {
    Machine(CreateRoot(m.f, y, o).(infos := m.infos[o := G.Info(base, bits, base)]), m.made - {o})
  }

  function CreateOther(m: Machine, y: SlotId, o: Object): Machine {
    Machine(CreateRoot(m.f, y, o).(infos := m.infos - {o}), m.made - {o})
  }

  /** A Generic slot has no right to be copied. */
  function Copy(m: Machine, destination: SlotId, source: SlotId): Machine {
    if m.f.S(source).what.Some? && m.f.S(source).what.value in m.infos then m
    else m.(f := CopySlot(m.f, destination, source).0)
  }

  datatype Action =
    | NewGeneric(y: SlotId, o: Object, base: G.Word64, bits: nat)
    | NewOther(y: SlotId, o: Object)
    | ConvertTo(x: SlotId, bits: nat, targets: seq<Target>)
    | ConvertToGeneric(x: SlotId, bits: nat, target: Target)
    | CopyTo(destination: SlotId, source: SlotId)
    | MoveTo(destination: SlotId, source: SlotId)
    | Remove(x: SlotId)
    | Revoke(x: SlotId)

  function Apply(m: Machine, a: Action): Machine {
    match a
    case NewGeneric(y, o, base, bits) => CreateGeneric(m, y, o, base, bits)
    case NewOther(y, o) => CreateOther(m, y, o)
    case ConvertTo(x, bits, targets) => Convert(m, x, bits, targets)
    case ConvertToGeneric(x, bits, target) => ConvertGeneric(m, x, bits, target)
    case CopyTo(destination, source) => Copy(m, destination, source)
    case MoveTo(destination, source) => m.(f := MoveSlot(m.f, destination, source).0)
    case Remove(x) => m.(f := RemoveSlot(m.f, x).0)
    case Revoke(x) => m.(f := RevokeSlot(m.f, x).0)
  }

  // ---------------------------------------------------------------- the invariant

  /** `x` hangs below a slot of the Generic from which its object was carved. */
  ghost predicate Home(m: Machine, p: SlotId, x: SlotId)
    requires m.f.S(x).what.Some? && m.f.S(x).what.value in m.made
  {
    m.f.S(p).what == Some(m.made[m.f.S(x).what.value].generic) && Below(m.f, p, x)
  }

  ghost predicate Carved(m: Machine, x: SlotId) {
    m.f.S(x).what.Some? && m.f.S(x).what.value in m.made
  }

  ghost predicate Housed(m: Machine, x: SlotId) {
    Carved(m, x) ==>
      var c := m.made[m.f.S(x).what.value];
      c.generic in m.infos && G.Inside(m.infos[c.generic], c.block) && exists p: SlotId :: Home(m, p, x)
  }

  /** Two live objects of one Generic do not overlap. */
  ghost predicate Disjoint(m: Machine, x: SlotId, y: SlotId) {
    Carved(m, x) && Carved(m, y) && m.f.S(x).what != m.f.S(y).what ==>
      var c, d := m.made[m.f.S(x).what.value], m.made[m.f.S(y).what.value];
      c.generic == d.generic ==> G.Apart(c.block, d.block)
  }

  ghost predicate RegionOk(m: Machine, o: Object) {
    o in m.infos ==> o.Leaf? && o !in m.f.failing && G.Sane(m.infos[o])
  }

  ghost predicate Inv(m: Machine) {
    && WellFormed(m.f) && Settled(m.f) && Single(m.infos.Keys, m.f)
    && (forall o :: RegionOk(m, o))
    && (forall x: SlotId :: Housed(m, x))
    && (forall x: SlotId, y: SlotId :: Disjoint(m, x, y))
  }

  /** New objects are new, and the sizes of a request do not wrap. */
  ghost predicate Admissible(m: Machine, a: Action) {
    match a
    case NewGeneric(y, o, base, bits) =>
      m.f.S(y).what.None? && Unnamed(m.f, o) && o.Leaf? && o !in m.f.failing && base + G.UnitSize(bits) < G.WORD
    case NewOther(y, o) => m.f.S(y).what.None? && Unnamed(m.f, o)
    case ConvertTo(x, bits, targets) =>
      && (forall i :: 0 <= i < |targets| ==> Unnamed(m.f, targets[i].what))
      && (forall i, j :: 0 <= i < j < |targets| ==> targets[i].what != targets[j].what)
      && (targets != [] && m.f.S(x).what.Some? && m.f.S(x).what.value in m.infos ==>
            G.Reach(m.infos[m.f.S(x).what.value], bits, |targets|) < G.WORD)
    case ConvertToGeneric(x, bits, target) =>
      && Unnamed(m.f, target.what) && target.what.Leaf? && target.what !in m.f.failing
      && NextOf(m.f, x).None? && PreviousOf(m.f, x).None? && m.f.S(x).depth == 0
      && (m.f.S(x).what.Some? && m.f.S(x).what.value in m.infos ==>
            G.Reach(m.infos[m.f.S(x).what.value], bits, 1) < G.WORD)
    case _ => true
  }

  // ---------------------------------------------------------------- carving

  /** A Generic is the last, because the only, alias of its group. */
  lemma GenericIsAlone(m: Machine, x: SlotId)
    requires Inv(m) && Tracked(m.infos.Keys, m.f, x)
    ensures LastAlias(m.f, x, IndexOf(m.f.order, x)) == x && x in m.f.order
  {
    NoSibling(m.infos.Keys, m.f, x);
  }

  lemma PlaceIs(m: Machine, x: SlotId, y: SlotId, o: Object)
    requires Inv(m) && Tracked(m.infos.Keys, m.f, x)
    ensures InsertChild(m.f, x, y, o) == InsertAfter(m.f, x, y, Slot(Some(o), m.f.S(x).depth + 1, m.f.S(x).chain, false))
  {
    GenericIsAlone(m, x);
  }

  lemma PlaceKeeps(m: Machine, x: SlotId, g: Object, y: SlotId, o: Object, bits: nat, start: nat, h: G.Info, child: Option<G.Info>)
    requires Inv(m) && m.f.S(x).what == Some(g) && g in m.infos && m.f.S(y).what.None? && Unnamed(m.f, o)
    requires G.Takes(m.infos[g], bits, start, h)
    requires child.Some? ==> o.Leaf? && o !in m.f.failing && G.Sane(child.value)
    ensures Inv(Place(m, x, g, y, o, G.Block(start, bits), h, child))
  {
    var t := Place(m, x, g, y, o, G.Block(start, bits), h, child);
    assert RegionOk(m, g);
    ChildKeeps(m.f, x, y, o);
    ChildSettled(m.f, x, y, o);
    SameLinks(InsertChild(m.f, x, y, o), t.f);
    PlaceIs(m, x, y, o);
    assert o != g;
    forall k: Object ensures RegionOk(t, k) { assert RegionOk(m, k); }
    PlaceSingle(m, x, g, y, o, G.Block(start, bits), h, child);
    forall z: SlotId ensures Housed(t, z) { PlaceHoused(m, x, g, y, o, bits, start, h, child, z); }
    forall z: SlotId, w: SlotId ensures Disjoint(t, z, w) { PlaceDisjoint(m, x, g, y, o, bits, start, h, child, z, w); }
  }

  lemma PlacedSlot(m: Machine, x: SlotId, g: Object, y: SlotId, o: Object, block: G.Block, h: G.Info, child: Option<G.Info>, z: SlotId)
    requires Inv(m) && Tracked(m.infos.Keys, m.f, x) && m.f.S(y).what.None?
    ensures var t := Place(m, x, g, y, o, block, h, child);
      if z == y then t.f.S(z).what == Some(o) else t.f.S(z) == m.f.S(z)
  {
    PlaceIs(m, x, y, o);
    GenericIsAlone(m, x);
  }

  lemma PlaceSingle(m: Machine, x: SlotId, g: Object, y: SlotId, o: Object, block: G.Block, h: G.Info, child: Option<G.Info>)
    requires Inv(m) && m.f.S(x).what == Some(g) && g in m.infos && m.f.S(y).what.None? && Unnamed(m.f, o)
    ensures var t := Place(m, x, g, y, o, block, h, child); Single(t.infos.Keys, t.f)
  {
    var t := Place(m, x, g, y, o, block, h, child);
    forall a: SlotId, b: SlotId | Tracked(t.infos.Keys, t.f, a) && t.f.S(b).what == t.f.S(a).what ensures a == b {
      PlacedSlot(m, x, g, y, o, block, h, child, a);
      PlacedSlot(m, x, g, y, o, block, h, child, b);
      if a != y && b != y { assert Tracked(m.infos.Keys, m.f, a); }
    }
  }

  lemma PlaceHoused(m: Machine, x: SlotId, g: Object, y: SlotId, o: Object, bits: nat, start: nat, h: G.Info, child: Option<G.Info>, z: SlotId)
    requires Inv(m) && m.f.S(x).what == Some(g) && g in m.infos && m.f.S(y).what.None? && Unnamed(m.f, o)
    requires G.Takes(m.infos[g], bits, start, h)
    ensures Housed(Place(m, x, g, y, o, G.Block(start, bits), h, child), z)
  {
    var block := G.Block(start, bits);
    var t := Place(m, x, g, y, o, block, h, child);
    PlacedSlot(m, x, g, y, o, block, h, child, z);
    assert RegionOk(m, g);
    G.TakenApart(m.infos[g], bits, start, h, block);
    if z == y {
      PlacedHome(m, x, g, y, o, block, h, child);
    } else if Carved(t, z) {
      assert Housed(m, z) && m.f.S(z).what != Some(o);
      var c := m.made[m.f.S(z).what.value];
      var p: SlotId :| Home(m, p, z);
      OldHome(m, x, g, y, o, block, h, child, p, z);
      G.TakenApart(m.infos[g], bits, start, h, c.block);
    }
  }

  /** The new object hangs below the Generic's slot. */
  lemma PlacedHome(m: Machine, x: SlotId, g: Object, y: SlotId, o: Object, block: G.Block, h: G.Info, child: Option<G.Info>)
    requires Inv(m) && m.f.S(x).what == Some(g) && g in m.infos && m.f.S(y).what.None?
    ensures var t := Place(m, x, g, y, o, block, h, child); t.f.S(y).what == Some(o) && o in t.made && Home(t, x, y)
  {
    var t := Place(m, x, g, y, o, block, h, child);
    PlaceIs(m, x, y, o);
    GenericIsAlone(m, x);
    assert y !in m.f.order;
    InsertedBelow(m.f, x, y, Slot(Some(o), m.f.S(x).depth + 1, m.f.S(x).chain, false), x);
    SameBelow(InsertChild(m.f, x, y, o), t.f, x, y);
    PlacedSlot(m, x, g, y, o, block, h, child, x);
    PlacedSlot(m, x, g, y, o, block, h, child, y);
  }

  lemma OldHome(m: Machine, x: SlotId, g: Object, y: SlotId, o: Object, block: G.Block, h: G.Info, child: Option<G.Info>, p: SlotId, z: SlotId)
    requires Inv(m) && m.f.S(x).what == Some(g) && g in m.infos && m.f.S(y).what.None? && z != y
    requires Carved(m, z) && m.f.S(z).what != Some(o) && Home(m, p, z)
    ensures var t := Place(m, x, g, y, o, block, h, child); Carved(t, z) && Home(t, p, z)
  {
    var t := Place(m, x, g, y, o, block, h, child);
    PlaceIs(m, x, y, o);
    GenericIsAlone(m, x);
    assert y !in m.f.order;
    InsertBelow(m.f, x, y, Slot(Some(o), m.f.S(x).depth + 1, m.f.S(x).chain, false), p, z);
    SameBelow(InsertChild(m.f, x, y, o), t.f, p, z);
    PlacedSlot(m, x, g, y, o, block, h, child, p);
    PlacedSlot(m, x, g, y, o, block, h, child, z);
  }

  lemma PlaceDisjoint(m: Machine, x: SlotId, g: Object, y: SlotId, o: Object, bits: nat, start: nat, h: G.Info, child: Option<G.Info>, z: SlotId, w: SlotId)
    requires Inv(m) && m.f.S(x).what == Some(g) && g in m.infos && m.f.S(y).what.None? && Unnamed(m.f, o)
    requires G.Takes(m.infos[g], bits, start, h)
    ensures Disjoint(Place(m, x, g, y, o, G.Block(start, bits), h, child), z, w)
  {
    var block := G.Block(start, bits);
    PlacedSlot(m, x, g, y, o, block, h, child, z);
    PlacedSlot(m, x, g, y, o, block, h, child, w);
    assert Disjoint(m, z, w) && Housed(m, z) && Housed(m, w) && RegionOk(m, g);
    assert m.f.S(z).what != Some(o) && m.f.S(w).what != Some(o);
    if z != y && Carved(m, z) { G.TakenApart(m.infos[g], bits, start, h, m.made[m.f.S(z).what.value].block); }
    if w != y && Carved(m, w) { G.TakenApart(m.infos[g], bits, start, h, m.made[m.f.S(w).what.value].block); }
  }

  /** An accepted request makes one object for every vacant slot up to the first that is taken. */
  lemma {:induction false} ConvertEachKeeps(m: Machine, x: SlotId, g: Object, bits: nat, targets: seq<Target>)
    requires Inv(m) && m.f.S(x).what == Some(g) && g in m.infos
    requires targets == [] || G.AllTaken(m.infos[g], bits, |targets|)
    requires forall i :: 0 <= i < |targets| ==> Unnamed(m.f, targets[i].what)
    requires forall i, j :: 0 <= i < j < |targets| ==> targets[i].what != targets[j].what
    ensures Inv(ConvertEach(m, x, g, bits, targets))
    decreases |targets|
  {
    if targets != [] && m.f.S(targets[0].slot).what.None? {
      var (start, h) := G.TryAllocate(m.infos[g], bits).value;
      var y, o := targets[0].slot, targets[0].what;
      var t := Place(m, x, g, y, o, G.Block(start, bits), h, None);
      PlaceKeeps(m, x, g, y, o, bits, start, h, None);
      PlacedSlot(m, x, g, y, o, G.Block(start, bits), h, None, x);
      var rest := targets[1..];
      forall i | 0 <= i < |rest| ensures Unnamed(t.f, rest[i].what) {
        assert rest[i] == targets[i + 1] && Unnamed(m.f, targets[i + 1].what);
        forall z: SlotId ensures t.f.S(z).what != Some(rest[i].what) {
          PlacedSlot(m, x, g, y, o, G.Block(start, bits), h, None, z);
        }
      }
      ConvertEachKeeps(t, x, g, bits, rest);
    }
  }

  lemma ConvertKeeps(m: Machine, x: SlotId, bits: nat, targets: seq<Target>)
    requires Inv(m) && Admissible(m, ConvertTo(x, bits, targets))
    ensures Inv(Convert(m, x, bits, targets))
  {
    if m.f.S(x).what.Some? && m.f.S(x).what.value in m.infos {
      var g := m.f.S(x).what.value;
      assert RegionOk(m, g);
      if targets != [] && G.IsAllocatable(m.infos[g], bits, |targets|) {
        G.AcceptedIff(m.infos[g], bits, |targets|);
        ConvertEachKeeps(m, x, g, bits, targets);
      }
    }
  }

  lemma ConvertGenericKeeps(m: Machine, x: SlotId, bits: nat, target: Target)
    requires Inv(m) && Admissible(m, ConvertToGeneric(x, bits, target))
    ensures Inv(ConvertGeneric(m, x, bits, target))
  {
    if m.f.S(x).what.Some? && m.f.S(x).what.value in m.infos && m.f.S(target.slot).what.None? {
      var g := m.f.S(x).what.value;
      assert RegionOk(m, g);
      if G.IsAllocatable(m.infos[g], bits, 1) {
        G.AcceptedIff(m.infos[g], bits, 1);
        assert G.AllTaken(m.infos[g], bits, 1);
        var (start, h) := G.TryAllocate(m.infos[g], bits).value;
        PlaceKeeps(m, x, g, target.slot, target.what, bits, start, h, Some(G.Info(start, bits, start)));
      }
    }
  }

  // ---------------------------------------------------------------- roots, copies and moves

  /** The regions and carvings of `t` are those of `m`, up to an object that no slot named. */
  ghost predicate SameRecords(m: Machine, t: Machine, o: Object) {
    && (forall k :: k != o ==> (k in t.infos <==> k in m.infos) && (k in t.made <==> k in m.made))
    && (forall k :: k != o && k in m.infos ==> t.infos[k] == m.infos[k])
    && (forall k :: k != o && k in m.made ==> t.made[k] == m.made[k])
    && o !in t.made && t.f.failing == m.f.failing
  }

  lemma RootRecords(m: Machine, t: Machine, y: SlotId, o: Object)
    requires Inv(m) && m.f.S(y).what.None? && Unnamed(m.f, o) && SameRecords(m, t, o)
    requires t.f == CreateRoot(m.f, y, o).(infos := t.infos) && RegionOk(t, o)
    ensures Inv(t)
  {
    RootKeeps(m.f, y, o);
    SameLinks(CreateRoot(m.f, y, o), t.f);
    forall z: SlotId ensures !t.f.S(z).reclaiming { assert !m.f.S(z).reclaiming; }
    forall k: Object ensures RegionOk(t, k) { assert RegionOk(m, k); }
    forall a: SlotId, b: SlotId | Tracked(t.infos.Keys, t.f, a) && t.f.S(b).what == t.f.S(a).what ensures a == b {
      assert m.f.S(a).what != Some(o) && m.f.S(b).what != Some(o);
      if a != y && b != y { assert Tracked(m.infos.Keys, m.f, a); }
    }
    forall z: SlotId ensures Housed(t, z) {
      assert m.f.S(z).what != Some(o);
      if Carved(t, z) {
        assert Housed(m, z);
        var p: SlotId :| Home(m, p, z);
        RootBelow(m.f, y, o, p, z);
        SameBelow(CreateRoot(m.f, y, o), t.f, p, z);
        assert p != y && m.f.S(p).what != Some(o);
        assert Home(t, p, z);
      }
    }
    forall z: SlotId, w: SlotId ensures Disjoint(t, z, w) { assert Disjoint(m, z, w) && m.f.S(z).what != Some(o) && m.f.S(w).what != Some(o); }
  }

  /** Every slot in use after a copy or a move names what some slot named before, and hangs where that slot hung. */
  lemma CopyGenericKeeps(m: Machine, destination: SlotId, source: SlotId)
    requires Inv(m)
    ensures Inv(Copy(m, destination, source))
  {
    var t := Copy(m, destination, source);
    if t != m && m.f.S(destination).what.None? {
      CopyKeeps(m.f, destination, source);
      ActSettled(m.f, SlotAction.Copy(destination, source));
      if m.f.S(source).what.Some? {
        assert source in m.f.order && destination !in m.f.order;
        CopiedKeeps(m, destination, source, t);
      } else {
        ClearedKeeps(m, destination, t);
      }
    }
  }

  lemma CopiedKeeps(m: Machine, destination: SlotId, source: SlotId, t: Machine)
    requires Inv(m) && source in m.f.order && destination !in m.f.order && !Tracked(m.infos.Keys, m.f, source)
    requires m.f.S(source).what.Some? && m.f.S(destination).what.None?
    requires t == m.(f := InsertAfter(m.f, source, destination, m.f.S(source).(reclaiming := false)))
    requires WellFormed(t.f) && Settled(t.f)
    ensures Inv(t)
  {
    var r := m.f.S(source).(reclaiming := false);
    forall z: SlotId ensures t.f.S(z) == if z == destination then r else m.f.S(z) {}
    forall k: Object ensures RegionOk(t, k) { assert RegionOk(m, k); }
    forall a: SlotId, b: SlotId | Tracked(t.infos.Keys, t.f, a) && t.f.S(b).what == t.f.S(a).what ensures a == b {
      assert a != destination && b != destination && Tracked(m.infos.Keys, m.f, a);
    }
    forall z: SlotId ensures Housed(t, z) {
      var z' := if z == destination then source else z;
      assert Housed(m, z');
      if Carved(m, z') {
        var p: SlotId :| Home(m, p, z');
        assert m.f.S(p).what.value in m.infos && p != source && p != destination;
        if z == destination {
          assert DeeperAt(m.f, p, IndexOf(m.f.order, source));
          InsertedBelow(m.f, source, destination, r, p);
        } else {
          InsertBelow(m.f, source, destination, r, p, z);
        }
        assert Home(t, p, z);
      }
    }
    forall z: SlotId, w: SlotId ensures Disjoint(t, z, w) {
      assert Disjoint(m, if z == destination then source else z, if w == destination then source else w);
    }
  }

  /** Resetting an empty slot changes nothing. */
  lemma ClearedKeeps(m: Machine, y: SlotId, t: Machine)
    requires Inv(m) && m.f.S(y).what.None? && t == m.(f := m.f.Set(y, EMPTY)) && WellFormed(t.f) && Settled(t.f)
    ensures Inv(t)
  {
    assert y !in m.f.order;
    forall z: SlotId ensures t.f.S(z).what == m.f.S(z).what {}
    forall k: Object ensures RegionOk(t, k) { assert RegionOk(m, k); }
    forall a: SlotId, b: SlotId | Tracked(t.infos.Keys, t.f, a) && t.f.S(b).what == t.f.S(a).what ensures a == b {
      assert Tracked(m.infos.Keys, m.f, a);
    }
    assert t.f == Clear(m.f, y);
    ClearEmpty(m.infos.Keys, m.f, y);
    forall z: SlotId ensures Housed(t, z) {
      assert Housed(m, z);
      if Carved(m, z) {
        var p: SlotId :| Home(m, p, z);
        assert UnderKept(m.infos.Keys, m.f, t.f, p, z) && Home(t, p, z);
      }
    }
    forall z: SlotId, w: SlotId ensures Disjoint(t, z, w) { assert Disjoint(m, z, w); }
  }

  lemma MoveGenericKeeps(m: Machine, destination: SlotId, source: SlotId)
    requires Inv(m)
    ensures Inv(m.(f := MoveSlot(m.f, destination, source).0))
  {
    var t := m.(f := MoveSlot(m.f, destination, source).0);
    if m.f.S(destination).what.None? {
      MoveKeeps(m.f, destination, source);
      ActSettled(m.f, Move(destination, source));
      if m.f.S(source).what.Some? {
        assert source in m.f.order && destination !in m.f.order;
        MovedKeeps(m, destination, source, t);
      } else {
        ClearedKeeps(m, destination, t);
      }
    }
  }

  /** What `z` was called before the move, for slots in use after it. */
  ghost function OldName(destination: SlotId, source: SlotId, z: SlotId): SlotId {
    if z == destination then source else z
  }

  lemma MovedKeeps(m: Machine, destination: SlotId, source: SlotId, t: Machine)
    requires Inv(m) && source in m.f.order && destination !in m.f.order && m.f.S(source).what.Some?
    requires m.f.S(destination).what.None?
    requires t == m.(f := MoveSlot(m.f, destination, source).0) && WellFormed(t.f) && Settled(t.f)
    ensures Inv(t)
  {
    forall z: SlotId ensures t.f.S(z).what == if z == source then None else m.f.S(OldName(destination, source, z)).what {}
    forall k: Object ensures RegionOk(t, k) { assert RegionOk(m, k); }
    forall a: SlotId, b: SlotId | Tracked(t.infos.Keys, t.f, a) && t.f.S(b).what == t.f.S(a).what ensures a == b {
      assert Tracked(m.infos.Keys, m.f, OldName(destination, source, a));
      assert OldName(destination, source, a) == OldName(destination, source, b);
    }
    forall z: SlotId ensures Housed(t, z) {
      if Carved(t, z) {
        var z' := OldName(destination, source, z);
        assert Housed(m, z');
        var p: SlotId :| Home(m, p, z');
        MoveBelow(m.f, destination, source, p, z');
        assert p != destination;
        assert Home(t, Renamed(destination, source, p), z);
      }
    }
    forall z: SlotId, w: SlotId ensures Disjoint(t, z, w) {
      assert Disjoint(m, OldName(destination, source, z), OldName(destination, source, w));
    }
  }

  // ---------------------------------------------------------------- reclamation

  /** A Generic that was finalised has no live object left, so its region may be used again. */
  lemma ReclaimKeeps(m: Machine, t: Forest)
    requires Inv(m) && WellFormed(t) && Shrinks(m.f, t) && Keeps(m.infos.Keys, m.f, t)
    ensures Inv(m.(f := t))
  {
    var u := m.(f := t);
    ShrinkSettled(m.f, t);
    assert u.infos.Keys == m.infos.Keys;
    SingleStays(m.infos.Keys, m.f, t);
    forall k: Object ensures RegionOk(u, k) { assert RegionOk(m, k); }
    forall z: SlotId ensures Housed(u, z) {
      assert Thinned(m.f, t, z) && Housed(m, z);
      if Carved(u, z) { ReclaimHoused(m, t, z); }
    }
    forall z: SlotId, w: SlotId ensures Disjoint(u, z, w) {
      assert Thinned(m.f, t, z) && Thinned(m.f, t, w) && Disjoint(m, z, w);
    }
  }

  lemma ReclaimHoused(m: Machine, t: Forest, z: SlotId)
    requires Inv(m) && Keeps(m.infos.Keys, m.f, t) && Carved(m.(f := t), z)
    ensures Housed(m.(f := t), z)
  {
    var u := m.(f := t);
    assert Thinned(m.f, t, z) && Housed(m, z);
    var p: SlotId :| Home(m, p, z);
    var g := m.made[m.f.S(z).what.value].generic;
    assert UnderKept(m.infos.Keys, m.f, t, p, z) && Thinned(m.f, t, p);
    NotBare(t, p, z);
    assert BareKept(m.infos.Keys, m.f, t, p);
    assert !Finalised(m.f, t, g);
    assert Home(u, p, z);
  }

  // ---------------------------------------------------------------- theorems

  lemma ApplyKeeps(m: Machine, a: Action)
    requires Inv(m) && Admissible(m, a)
    ensures Inv(Apply(m, a))
  {
    match a
    case NewGeneric(y, o, base, bits) => RootRecords(m, CreateGeneric(m, y, o, base, bits), y, o);
    case NewOther(y, o) => RootRecords(m, CreateOther(m, y, o), y, o);
    case ConvertTo(x, bits, targets) => ConvertKeeps(m, x, bits, targets);
    case ConvertToGeneric(x, bits, target) => ConvertGenericKeeps(m, x, bits, target);
    case CopyTo(destination, source) => CopyGenericKeeps(m, destination, source);
    case MoveTo(destination, source) => MoveGenericKeeps(m, destination, source);
    case Remove(x) =>
      RemoveSound(m.f, x);
      RemoveTrees(m.infos.Keys, m.f, x);
      ReclaimKeeps(m, RemoveSlot(m.f, x).0);
    case Revoke(x) =>
      RevokeSound(m.f, x);
      RevokeTrees(m.infos.Keys, m.f, x);
      ReclaimKeeps(m, RevokeSlot(m.f, x).0);
  }

  function Run(m: Machine, run: seq<Action>): Machine {
    if run == [] then m else Apply(Run(m, run[..|run| - 1]), run[|run| - 1])
  }

  /** Live objects lie in their Generic's region below the watermark, aligned, and do not overlap. */
  ghost predicate AllApart(m: Machine) {
    && (forall x: SlotId :: Carved(m, x) ==>
          var c := m.made[m.f.S(x).what.value]; c.generic in m.infos && G.Inside(m.infos[c.generic], c.block))
    && (forall x: SlotId, y: SlotId :: Disjoint(m, x, y))
  }

  /**
   Starting with no slots, in every run of creating roots, converting, copying, moving, removing and
   revoking, every live carved object hangs below its Generic, live objects of one Generic occupy
   disjoint aligned blocks of its region, and no Generic ever refused to be cleaned up.
   */
  lemma {:induction false} RunsStayCarved(inside: map<Object, seq<SlotId>>, failing: set<Object>, run: seq<Action>, i: nat)
    requires i <= |run|
    requires forall j :: 0 <= j < |run| ==> Admissible(Run(Machine(NoSlots(inside, failing), map[]), run[..j]), run[j])
    ensures var m := Run(Machine(NoSlots(inside, failing), map[]), run[..i]); Inv(m) && AllApart(m) && !m.f.refused
    decreases i
  {
    var m0 := Machine(NoSlots(inside, failing), map[]);
    if i == 0 {
      assert run[..0] == [];
    } else {
      RunsStayCarved(inside, failing, run, i - 1);
      assert run[..i][..i - 1] == run[..i - 1];
      assert Admissible(Run(m0, run[..i - 1]), run[i - 1]);
      ApplyKeeps(Run(m0, run[..i - 1]), run[i - 1]);
      GenericNeverRefuses(Run(m0, run[..i - 1]), run[i - 1]);
    }
    var m := Run(m0, run[..i]);
    forall x: SlotId | Carved(m, x) ensures var c := m.made[m.f.S(x).what.value]; c.generic in m.infos && G.Inside(m.infos[c.generic], c.block) {
      assert Housed(m, x);
    }
  }

  /** Only a Generic with nothing below it has no live object, so the test of its chain guards its memory. */
  lemma NoChildNoLive(m: Machine, x: SlotId)
    requires Inv(m) && Tracked(m.infos.Keys, m.f, x) && !HasChild(m.f, x)
    ensures forall z: SlotId :: Carved(m, z) ==> m.made[m.f.S(z).what.value].generic != m.f.S(x).what.value
  {
    GenericIsAlone(m, x);
    forall z: SlotId | Carved(m, z) ensures m.made[m.f.S(z).what.value].generic != m.f.S(x).what.value {
      assert Housed(m, z);
      var p: SlotId :| Home(m, p, z);
      NotBare(m.f, p, z);
      assert Tracked(m.infos.Keys, m.f, p);
    }
  }

  /** Whatever is removed or revoked, in the whole recursion no Generic is ever asked to clean up too early. */
  lemma GenericNeverRefuses(m: Machine, a: Action)
    requires Inv(m) && Admissible(m, a)
    ensures Apply(m, a).f.refused ==> m.f.refused
  {
    match a
    case ConvertTo(x, bits, targets) => ConvertRefusesNothing(m, x, bits, targets);
    case Remove(x) => RemoveTrees(m.infos.Keys, m.f, x);
    case Revoke(x) => RevokeTrees(m.infos.Keys, m.f, x);
    case _ =>
  }

  lemma {:induction false} ConvertEachRefusesNothing(m: Machine, x: SlotId, g: Object, bits: nat, targets: seq<Target>)
    requires g in m.infos
    ensures ConvertEach(m, x, g, bits, targets).f.refused == m.f.refused
    decreases |targets|
  {
    if targets != [] && m.f.S(targets[0].slot).what.None? && G.TryAllocate(m.infos[g], bits).Some? {
      var (start, h) := G.TryAllocate(m.infos[g], bits).value;
      var t := Place(m, x, g, targets[0].slot, targets[0].what, G.Block(start, bits), h, None);
      ConvertEachRefusesNothing(t, x, g, bits, targets[1..]);
    }
  }

  lemma ConvertRefusesNothing(m: Machine, x: SlotId, bits: nat, targets: seq<Target>)
    ensures Convert(m, x, bits, targets).f.refused == m.f.refused
  {
    if m.f.S(x).what.Some? && m.f.S(x).what.value in m.infos {
      ConvertEachRefusesNothing(m, x, m.f.S(x).what.value, bits, targets);
    }
  }
}
