/**
 All memory of the machine at once: if Boot hands out disjoint regions, two live objects, whatever
 Generics they were carved from, share memory only if one of them was made from the other.
 */
module MemoryRegions {
  import opened Common
  import opened Reclamation
  import opened DerivationChain
  import opened Subtree
  import opened GenericChain
  import G = GenericAllocator

  function Region(g: G.Info): G.Block { G.Block(g.base, g.sizeBits) }

  ghost predicate Named(m: Machine, o: Object) {
    exists x: SlotId :: m.f.S(x).what == Some(o)
  }

  /** The region of a Generic that was itself carved is what was carved for it. */
  ghost predicate CarvedRegion(m: Machine, o: Object) {
    Named(m, o) && o in m.infos && o in m.made ==> Region(m.infos[o]) == m.made[o].block
  }

  /** A live Generic that Boot handed out. */
  ghost predicate IsRoot(m: Machine, o: Object) {
    Named(m, o) && o in m.infos && o !in m.made
  }

  ghost predicate RootsApart(m: Machine, a: Object, b: Object) {
    IsRoot(m, a) && IsRoot(m, b) && a != b ==> G.Apart(Region(m.infos[a]), Region(m.infos[b]))
  }

  ghost predicate Regions(m: Machine) {
    && (forall o :: CarvedRegion(m, o))
    && (forall a, b :: RootsApart(m, a, b))
  }

  /** Boot hands out memory that belongs to no other Generic of Boot. */
  ghost predicate Separate(m: Machine, a: Action) {
    a.NewGeneric? ==> forall o :: IsRoot(m, o) ==> G.Apart(G.Block(a.base, a.bits), Region(m.infos[o]))
  }

  // ---------------------------------------------------------------- every action keeps the regions

  /** Nobody but `o` is new, and the others have the memory that they had. */
  ghost predicate SameMemory(m: Machine, t: Machine, o: Object) {
    forall k :: k != o && Named(t, k) ==>
      && Named(m, k) && (k in t.infos <==> k in m.infos) && (k in t.made <==> k in m.made)
      && (k in m.made ==> t.made[k] == m.made[k]) && (k in m.infos ==> Region(t.infos[k]) == Region(m.infos[k]))
  }

  lemma OthersKeep(m: Machine, t: Machine, o: Object)
    requires Regions(m) && SameMemory(m, t, o) && CarvedRegion(t, o)
    requires forall k :: RootsApart(t, o, k)
    ensures Regions(t)
  {
    forall k ensures CarvedRegion(t, k) { assert CarvedRegion(m, k); }
    forall a, b ensures RootsApart(t, a, b) {
      if a == o {
      } else if b == o {
        assert RootsApart(t, o, a);
      } else {
        assert RootsApart(m, a, b);
      }
    }
  }

  /** The slots of `t` name nothing that no slot of `m` named. */
  lemma NothingNew(m: Machine, t: Machine)
    requires Regions(m) && t.made == m.made && t.infos.Keys == m.infos.Keys
    requires forall k :: k in m.infos ==> Region(t.infos[k]) == Region(m.infos[k])
    requires forall x: SlotId :: t.f.S(x).what.Some? ==> Named(m, t.f.S(x).what.value)
    ensures Regions(t)
  {
    forall k | Named(t, k) ensures Named(m, k) { var x: SlotId :| t.f.S(x).what == Some(k); }
    forall k ensures CarvedRegion(t, k) { assert CarvedRegion(m, k); }
    forall a, b ensures RootsApart(t, a, b) { assert RootsApart(m, a, b); }
  }

  lemma PlaceRegions(m: Machine, x: SlotId, g: Object, y: SlotId, o: Object, bits: nat, start: nat, h: G.Info, child: Option<G.Info>)
    requires Inv(m) && Regions(m) && m.f.S(x).what == Some(g) && g in m.infos && m.f.S(y).what.None? && Unnamed(m.f, o)
    requires Region(h) == Region(m.infos[g]) && (child.Some? ==> Region(child.value) == G.Block(start, bits))
    ensures Regions(Place(m, x, g, y, o, G.Block(start, bits), h, child))
  {
    var t := Place(m, x, g, y, o, G.Block(start, bits), h, child);
    assert m.f.S(x).what != Some(o);
    forall k | k != o && Named(t, k) ensures Named(m, k) {
      var z: SlotId :| t.f.S(z).what == Some(k);
      PlacedSlot(m, x, g, y, o, G.Block(start, bits), h, child, z);
      assert m.f.S(z).what == Some(k);
    }
    OthersKeep(m, t, o);
  }

  lemma {:induction false} ConvertEachRegions(m: Machine, x: SlotId, g: Object, bits: nat, targets: seq<Target>)
    requires Inv(m) && Regions(m) && m.f.S(x).what == Some(g) && g in m.infos
    requires targets == [] || G.AllTaken(m.infos[g], bits, |targets|)
    requires forall i :: 0 <= i < |targets| ==> Unnamed(m.f, targets[i].what)
    requires forall i, j :: 0 <= i < j < |targets| ==> targets[i].what != targets[j].what
    ensures Regions(ConvertEach(m, x, g, bits, targets))
    decreases |targets|
  {
    if targets != [] && m.f.S(targets[0].slot).what.None? {
      var (start, h) := G.TryAllocate(m.infos[g], bits).value;
      var y, o := targets[0].slot, targets[0].what;
      var t := Place(m, x, g, y, o, G.Block(start, bits), h, None);
      PlaceKeeps(m, x, g, y, o, bits, start, h, None);
      PlaceRegions(m, x, g, y, o, bits, start, h, None);
      PlacedSlot(m, x, g, y, o, G.Block(start, bits), h, None, x);
      var rest := targets[1..];
      forall i | 0 <= i < |rest| ensures Unnamed(t.f, rest[i].what) {
        assert rest[i] == targets[i + 1] && Unnamed(m.f, targets[i + 1].what);
        forall z: SlotId ensures t.f.S(z).what != Some(rest[i].what) {
          PlacedSlot(m, x, g, y, o, G.Block(start, bits), h, None, z);
        }
      }
      ConvertEachRegions(t, x, g, bits, rest);
    }
  }

  lemma ConvertRegions(m: Machine, x: SlotId, bits: nat, targets: seq<Target>)
    requires Inv(m) && Regions(m) && Admissible(m, ConvertTo(x, bits, targets))
    ensures Regions(Convert(m, x, bits, targets))
  {
    if m.f.S(x).what.Some? && m.f.S(x).what.value in m.infos {
      var g := m.f.S(x).what.value;
      assert RegionOk(m, g);
      if targets != [] && G.IsAllocatable(m.infos[g], bits, |targets|) {
        G.AcceptedIff(m.infos[g], bits, |targets|);
        ConvertEachRegions(m, x, g, bits, targets);
      }
    }
  }

  lemma ConvertGenericRegions(m: Machine, x: SlotId, bits: nat, target: Target)
    requires Inv(m) && Regions(m) && Admissible(m, ConvertToGeneric(x, bits, target))
    ensures Regions(ConvertGeneric(m, x, bits, target))
  {
    if m.f.S(x).what.Some? && m.f.S(x).what.value in m.infos && m.f.S(target.slot).what.None? {
      var g := m.f.S(x).what.value;
      assert RegionOk(m, g);
      if G.IsAllocatable(m.infos[g], bits, 1) {
        G.AcceptedIff(m.infos[g], bits, 1);
        assert G.AllTaken(m.infos[g], bits, 1);
        var (start, h) := G.TryAllocate(m.infos[g], bits).value;
        PlaceRegions(m, x, g, target.slot, target.what, bits, start, h, Some(G.Info(start, bits, start)));
      }
    }
  }

  lemma RootRegions(m: Machine, t: Machine, y: SlotId, o: Object)
    requires Regions(m) && m.f.S(y).what.None? && t.f == CreateRoot(m.f, y, o).(infos := t.infos) && SameRecords(m, t, o)
    requires o in t.infos ==> forall k :: IsRoot(m, k) ==> G.Apart(Region(t.infos[o]), Region(m.infos[k]))
    ensures Regions(t)
  {
    forall k | k != o && Named(t, k) ensures Named(m, k) {
      var z: SlotId :| t.f.S(z).what == Some(k);
      assert m.f.S(z).what == Some(k);
    }
    forall k ensures RootsApart(t, o, k) {
      if IsRoot(t, o) && IsRoot(t, k) && k != o { assert IsRoot(m, k); }
    }
    OthersKeep(m, t, o);
  }

  lemma ApplyRegions(m: Machine, a: Action)
    requires Inv(m) && Regions(m) && Admissible(m, a) && Separate(m, a)
    ensures Regions(Apply(m, a))
  {
    match a
    case NewGeneric(y, o, base, bits) => RootRegions(m, CreateGeneric(m, y, o, base, bits), y, o);
    case NewOther(y, o) => RootRegions(m, CreateOther(m, y, o), y, o);
    case ConvertTo(x, bits, targets) => ConvertRegions(m, x, bits, targets);
    case ConvertToGeneric(x, bits, target) => ConvertGenericRegions(m, x, bits, target);
    case CopyTo(destination, source) => Transferred(m, Apply(m, a), destination, source);
    case MoveTo(destination, source) => Transferred(m, Apply(m, a), destination, source);
    case Remove(x) => ReclaimRegions(m, RemoveSlot(m.f, x).0);
    case Revoke(x) => ReclaimRegions(m, RevokeSlot(m.f, x).0);
  }

  /** After a copy or a move every slot names what it, or the source, named before. */
  lemma Transferred(m: Machine, t: Machine, destination: SlotId, source: SlotId)
    requires Regions(m) && (t == Apply(m, CopyTo(destination, source)) || t == Apply(m, MoveTo(destination, source)))
    ensures Regions(t)
  {
    forall z: SlotId | t.f.S(z).what.Some? ensures Named(m, t.f.S(z).what.value) {
      assert t.f.S(z).what == m.f.S(z).what || t.f.S(z).what == m.f.S(source).what;
    }
    NothingNew(m, t);
  }

  lemma ReclaimRegions(m: Machine, t: Forest)
    requires Regions(m) && Shrinks(m.f, t)
    ensures Regions(m.(f := t))
  {
    forall z: SlotId | t.S(z).what.Some? ensures Named(m, t.S(z).what.value) { assert t.S(z) == m.f.S(z); }
    NothingNew(m, m.(f := t));
  }

  // ---------------------------------------------------------------- who shares memory with whom

  /** `a` was made from `b`, or from something made from `b`, in at most `n + 1` steps. */
  ghost predicate DescendsIn(m: Machine, a: Object, b: Object, n: nat)
    decreases n
  {
    a in m.made && (m.made[a].generic == b || (n > 0 && DescendsIn(m, m.made[a].generic, b, n - 1)))
  }

  ghost predicate Descends(m: Machine, a: Object, b: Object) {
    exists n: nat :: DescendsIn(m, a, b, n)
  }

  /** The object of the slot has memory of its own. */
  ghost predicate Holds(m: Machine, x: SlotId) {
    m.f.S(x).what.Some? && (m.f.S(x).what.value in m.made || m.f.S(x).what.value in m.infos)
  }

  ghost function Extent(m: Machine, o: Object): G.Block
    requires o in m.made || o in m.infos
  {
    if o in m.made then m.made[o].block else Region(m.infos[o])
  }

  ghost predicate Within(a: G.Block, b: G.Block) {
    b.start <= a.start && a.Stop() <= b.Stop()
  }

  /** A carved object lies in its Generic, whose slot is nearer to the root. */
  lemma Parent(m: Machine, x: SlotId) returns (p: SlotId)
    requires Inv(m) && Regions(m) && Carved(m, x)
    ensures var a := m.f.S(x).what.value;
      && m.f.S(p).what == Some(m.made[a].generic) && Holds(m, p) && m.f.S(p).depth < m.f.S(x).depth
      && Within(Extent(m, a), Extent(m, m.made[a].generic))
  {
    assert Housed(m, x);
    p :| Home(m, p, x);
    assert DeeperAt(m.f, p, IndexOf(m.f.order, x));
    var g := m.made[m.f.S(x).what.value].generic;
    assert Named(m, g) && CarvedRegion(m, g) && RegionOk(m, g);
  }

  lemma OneMoreStep(m: Machine, a: Object, b: Object)
    requires a in m.made && Descends(m, m.made[a].generic, b)
    ensures Descends(m, a, b)
  {
    var n: nat :| DescendsIn(m, m.made[a].generic, b, n);
    assert DescendsIn(m, a, b, n + 1);
  }

  /** On the way from `b` up to `g`, the object that was made from `g` itself. */
  lemma {:induction false} NextToLast(m: Machine, y: SlotId, g: Object, n: nat) returns (z: SlotId)
    requires Inv(m) && Regions(m) && m.f.S(y).what.Some? && DescendsIn(m, m.f.S(y).what.value, g, n)
    ensures var b := m.f.S(y).what.value;
      && Carved(m, z) && m.made[m.f.S(z).what.value].generic == g
      && (z == y || Descends(m, b, m.f.S(z).what.value))
      && Within(Extent(m, b), Extent(m, m.f.S(z).what.value))
    decreases n
  {
    var b := m.f.S(y).what.value;
    if m.made[b].generic == g {
      z := y;
    } else {
      var p := Parent(m, y);
      z := NextToLast(m, p, g, n - 1);
      if z == p {
        assert DescendsIn(m, b, m.f.S(z).what.value, 0);
      } else {
        OneMoreStep(m, b, m.f.S(z).what.value);
      }
    }
  }

  ghost predicate Related(m: Machine, a: Object, b: Object) {
    Descends(m, a, b) || Descends(m, b, a)
  }

  /** The objects of two slots have nothing in common, or one was made from the other. */
  ghost predicate ApartOrRelated(m: Machine, x: SlotId, y: SlotId) {
    Holds(m, x) && Holds(m, y) && m.f.S(x).what != m.f.S(y).what ==>
      var a, b := m.f.S(x).what.value, m.f.S(y).what.value;
      G.Apart(Extent(m, a), Extent(m, b)) || Related(m, a, b)
  }

  lemma {:induction false} SharedMeansRelated(m: Machine, x: SlotId, y: SlotId)
    requires Inv(m) && Regions(m) && Holds(m, x) && Holds(m, y) && m.f.S(x).what != m.f.S(y).what
    ensures ApartOrRelated(m, x, y)
    decreases m.f.S(x).depth + m.f.S(y).depth, if Carved(m, x) then 0 else 1
  {
    var a, b := m.f.S(x).what.value, m.f.S(y).what.value;
    if Carved(m, x) {
      var g := m.made[a].generic;
      var p := Parent(m, x);
      if g == b {
        assert DescendsIn(m, a, b, 0);
      } else {
        SharedMeansRelated(m, p, y);
        if Descends(m, g, b) {
          OneMoreStep(m, a, b);
        } else if Descends(m, b, g) && !G.Apart(Extent(m, a), Extent(m, b)) {
          SameParent(m, x, y, g);
        }
      }
    } else if Carved(m, y) {
      SharedMeansRelated(m, y, x);
    } else {
      assert Named(m, a) && Named(m, b) && RootsApart(m, a, b);
    }
  }

  /** Of the objects made from `g`, only the one that `b` comes from can share memory with `b`. */
  lemma SameParent(m: Machine, x: SlotId, y: SlotId, g: Object)
    requires Inv(m) && Regions(m) && Carved(m, x) && Holds(m, y) && m.f.S(x).what != m.f.S(y).what
    requires m.made[m.f.S(x).what.value].generic == g && Descends(m, m.f.S(y).what.value, g)
    requires !G.Apart(Extent(m, m.f.S(x).what.value), Extent(m, m.f.S(y).what.value))
    ensures Descends(m, m.f.S(y).what.value, m.f.S(x).what.value)
  {
    var n: nat :| DescendsIn(m, m.f.S(y).what.value, g, n);
    var z := NextToLast(m, y, g, n);
    assert Disjoint(m, x, z);
  }

  // ---------------------------------------------------------------- the theorem

  /**
   Starting with no slots, after every run in which Boot hands out disjoint regions, two live objects
   share memory only if one of them was made from the other.
   */
  lemma {:induction false} RunsShareNothing(inside: map<Object, seq<SlotId>>, failing: set<Object>, run: seq<Action>, i: nat)
    requires i <= |run|
    requires forall j :: 0 <= j < |run| ==>
      var m := Run(Machine(NoSlots(inside, failing), map[]), run[..j]); Admissible(m, run[j]) && Separate(m, run[j])
    ensures var m := Run(Machine(NoSlots(inside, failing), map[]), run[..i]);
      Regions(m) && forall x: SlotId, y: SlotId :: ApartOrRelated(m, x, y)
    decreases i
  {
    var m0 := Machine(NoSlots(inside, failing), map[]);
    var m := Run(m0, run[..i]);
    forall j | 0 <= j < |run| ensures Admissible(Run(m0, run[..j]), run[j]) {}
    RunsStayCarved(inside, failing, run, i);
    if i == 0 {
      assert run[..0] == [];
      assert forall k :: !Named(m0, k);
    } else {
      RunsShareNothing(inside, failing, run, i - 1);
      RunsStayCarved(inside, failing, run, i - 1);
      assert run[..i][..i - 1] == run[..i - 1];
      ApplyRegions(Run(m0, run[..i - 1]), run[i - 1]);
    }
    forall x: SlotId, y: SlotId ensures ApartOrRelated(m, x, y) {
      if Holds(m, x) && Holds(m, y) && m.f.S(x).what != m.f.S(y).what { SharedMeansRelated(m, x, y); }
    }
  }
}
