/** What CONVERT makes: one object per slot, block after block. */
module Conversion {
  import opened Common
  import opened Reclamation
  import opened DerivationChain
  import opened Subtree
  import opened GenericChain
  import G = GenericAllocator

  /** The slots that are to be filled are empty and distinct. */
  ghost predicate Vacant(f: Forest, targets: seq<Target>) {
    && (forall i :: 0 <= i < |targets| ==> f.S(targets[i].slot).what.None?)
    && (forall i, j :: 0 <= i < j < |targets| ==> targets[i].slot != targets[j].slot)
  }

  ghost predicate Fresh(f: Forest, targets: seq<Target>) {
    && (forall i :: 0 <= i < |targets| ==> Unnamed(f, targets[i].what))
    && (forall i, j :: 0 <= i < j < |targets| ==> targets[i].what != targets[j].what)
  }

  /** The `i`th object is in its slot, a child of `x`, and lies in the `i`th aligned block above the watermark. */
  ghost predicate MadeAt(m: Machine, t: Machine, x: SlotId, g: Object, bits: nat, targets: seq<Target>, i: int)
    requires g in m.infos && 0 <= i < |targets|
  {
    && t.f.S(targets[i].slot) == Slot(Some(targets[i].what), m.f.S(x).depth + 1, m.f.S(x).chain, false)
    && targets[i].what in t.made
    && t.made[targets[i].what] == Carving(g, G.Block(G.Reach(m.infos[g], bits, i), bits))
  }

  /** Every other slot and record is as it was. */
  ghost predicate OthersStay(m: Machine, t: Machine, g: Object, targets: seq<Target>) {
    && (forall z: SlotId :: (forall i :: 0 <= i < |targets| ==> targets[i].slot != z) ==> t.f.S(z) == m.f.S(z))
    && (forall o :: (forall i :: 0 <= i < |targets| ==> targets[i].what != o) ==> SameRecord(m, t, g, o))
  }

  ghost predicate SameRecord(m: Machine, t: Machine, g: Object, o: Object) {
    && (o in t.made <==> o in m.made) && (o in m.made ==> t.made[o] == m.made[o])
    && (o in t.infos <==> o in m.infos) && (o != g && o in m.infos ==> t.infos[o] == m.infos[o])
  }

  ghost predicate AllMade(m: Machine, t: Machine, x: SlotId, g: Object, bits: nat, targets: seq<Target>)
    requires g in m.infos
  {
    && (forall i :: 0 <= i < |targets| ==> MadeAt(m, t, x, g, bits, targets, i))
    && OthersStay(m, t, g, targets)
    && g in t.infos
    && if targets == [] then t == m
       else t.infos[g] == m.infos[g].(watermark := t.infos[g].watermark) && t.infos[g].watermark == G.Reach(m.infos[g], bits, |targets|)
  }

  lemma PlaceEffect(m: Machine, x: SlotId, g: Object, bits: nat, target: Target, h: G.Info, start: G.Word64, child: Option<G.Info>)
    requires Inv(m) && m.f.S(x).what == Some(g) && g in m.infos && m.f.S(target.slot).what.None? && Unnamed(m.f, target.what)
    requires start == G.Reach(m.infos[g], bits, 0)
    ensures var t := Place(m, x, g, target.slot, target.what, G.Block(start, bits), h, child);
      && MadeAt(m, t, x, g, bits, [target], 0) && OthersStay(m, t, g, [target]) && t.f.S(x) == m.f.S(x)
      && (forall z: SlotId :: z != target.slot ==> t.f.S(z) == m.f.S(z))
      && g in t.infos && t.infos[g] == h
      && (if child.Some? then target.what in t.infos && t.infos[target.what] == child.value else target.what !in t.infos)
  {
    PlaceIs(m, x, target.slot, target.what);
    GenericIsAlone(m, x);
    var t := Place(m, x, g, target.slot, target.what, G.Block(start, bits), h, child);
    assert target.what != g;
    forall o | forall i :: 0 <= i < |[target]| ==> [target][i].what != o ensures SameRecord(m, t, g, o) { assert [target][0].what != o; }
    forall z: SlotId | forall i :: 0 <= i < |[target]| ==> [target][i].slot != z ensures t.f.S(z) == m.f.S(z) { assert [target][0].slot != z; }
  }

  /** An accepted block is the next aligned one. */
  lemma NextBlock(g: G.Info, bits: nat, count: nat)
    requires G.Sane(g) && count > 0 && G.AllTaken(g, bits, count)
    ensures G.TryAllocate(g, bits).Some?
    ensures var (start, h) := G.TryAllocate(g, bits).value;
      && start == G.Reach(g, bits, 0) && h == g.(watermark := h.watermark) && h.watermark == G.Reach(g, bits, 1)
  {
    G.AllTakenIff(g, bits, count);
    G.ReachGrows(g, bits, count);
    G.SoundWithoutWrap(g, bits);
    var h := G.TryAllocate(g, bits).value.1;
    G.AlignedReach(g, bits, h);
  }

  lemma {:induction false} EachMade(m: Machine, x: SlotId, g: Object, bits: nat, targets: seq<Target>, t: Machine)
    requires Inv(m) && m.f.S(x).what == Some(g) && g in m.infos && Fresh(m.f, targets) && Vacant(m.f, targets)
    requires targets == [] || G.AllTaken(m.infos[g], bits, |targets|)
    requires t == ConvertEach(m, x, g, bits, targets)
    ensures AllMade(m, t, x, g, bits, targets)
    decreases |targets|
  {
    if targets == [] {
      NoneMade(m, x, g, bits);
    } else {
      var m1 := FirstMade(m, x, g, bits, targets);
      EachMade(m1, x, g, bits, targets[1..], t);
      FirstAndRest(m, m1, t, x, g, bits, targets);
    }
  }

  lemma NoneMade(m: Machine, x: SlotId, g: Object, bits: nat)
    requires g in m.infos
    ensures AllMade(m, m, x, g, bits, [])
  {
  }

  /** The first object is made and the request for the others stands. */
  lemma FirstMade(m: Machine, x: SlotId, g: Object, bits: nat, targets: seq<Target>) returns (m1: Machine)
    requires Inv(m) && m.f.S(x).what == Some(g) && g in m.infos && Fresh(m.f, targets) && Vacant(m.f, targets)
    requires targets != [] && G.AllTaken(m.infos[g], bits, |targets|)
    ensures Inv(m1) && g in m1.infos && m1.f.S(x) == m.f.S(x) && Fresh(m1.f, targets[1..]) && Vacant(m1.f, targets[1..])
    ensures targets[1..] == [] || G.AllTaken(m1.infos[g], bits, |targets[1..]|)
    ensures ConvertEach(m, x, g, bits, targets) == ConvertEach(m1, x, g, bits, targets[1..])
    ensures MadeAt(m, m1, x, g, bits, [targets[0]], 0) && OthersStay(m, m1, g, [targets[0]])
    ensures m1.infos[g] == m.infos[g].(watermark := m1.infos[g].watermark) && m1.infos[g].watermark == G.Reach(m.infos[g], bits, 1)
  {
    assert RegionOk(m, g);
    NextBlock(m.infos[g], bits, |targets|);
    var (start, h) := G.TryAllocate(m.infos[g], bits).value;
    var first := targets[0];
    m1 := Place(m, x, g, first.slot, first.what, G.Block(start, bits), h, None);
    PlaceEffect(m, x, g, bits, first, h, start, None);
    PlaceKeeps(m, x, g, first.slot, first.what, bits, start, h, None);
    RestFresh(m, m1, targets);
  }

  lemma RestFresh(m: Machine, m1: Machine, targets: seq<Target>)
    requires targets != [] && Fresh(m.f, targets) && Vacant(m.f, targets) && m1.f.S(targets[0].slot).what == Some(targets[0].what)
    requires forall z: SlotId :: z != targets[0].slot ==> m1.f.S(z) == m.f.S(z)
    ensures Fresh(m1.f, targets[1..]) && Vacant(m1.f, targets[1..])
  {
    var rest := targets[1..];
    forall i | 0 <= i < |rest| ensures Unnamed(m1.f, rest[i].what) {
      assert rest[i] == targets[i + 1] && Unnamed(m.f, targets[i + 1].what);
    }
  }

  /** The first object is made, then the others one block further. */
  lemma FirstAndRest(m: Machine, m1: Machine, t: Machine, x: SlotId, g: Object, bits: nat, targets: seq<Target>)
    requires targets != [] && g in m.infos && g in m1.infos && Fresh(m.f, targets) && Vacant(m.f, targets)
    requires AllMade(m1, t, x, g, bits, targets[1..])
    requires MadeAt(m, m1, x, g, bits, [targets[0]], 0) && OthersStay(m, m1, g, [targets[0]]) && m1.f.S(x) == m.f.S(x)
    requires m1.infos[g] == m.infos[g].(watermark := m1.infos[g].watermark) && m1.infos[g].watermark == G.Reach(m.infos[g], bits, 1)
    ensures AllMade(m, t, x, g, bits, targets)
  {
    var rest := targets[1..];
    G.AlignedReach(m.infos[g], bits, m1.infos[g]);
    G.SameReach(m.infos[g], bits, |targets|, m1.infos[g]);
    assert forall i :: 0 <= i < |rest| ==> rest[i] == targets[i + 1];
    forall i | 0 <= i < |targets| ensures MadeAt(m, t, x, g, bits, targets, i) {
      if i == 0 {
        assert SameRecord(m1, t, g, targets[0].what);
      } else {
        assert MadeAt(m1, t, x, g, bits, rest, i - 1);
        G.SameReach(m.infos[g], bits, i, m1.infos[g]);
      }
    }
    forall z: SlotId | forall i :: 0 <= i < |targets| ==> targets[i].slot != z ensures t.f.S(z) == m.f.S(z) {
      assert targets[0].slot != z;
    }
    forall o | forall i :: 0 <= i < |targets| ==> targets[i].what != o ensures SameRecord(m, t, g, o) {
      assert targets[0].what != o && SameRecord(m, m1, g, o) && SameRecord(m1, t, g, o);
    }
  }

  /**
   CONVERT of a request that fits into empty, distinct slots makes every object, each a child of the Generic's slot in
   the next aligned block, moves the watermark behind the last one, and changes nothing else.
   */
  lemma ConvertMakes(m: Machine, x: SlotId, bits: nat, targets: seq<Target>)
    requires Inv(m) && Admissible(m, ConvertTo(x, bits, targets)) && Tracked(m.infos.Keys, m.f, x)
    requires targets != [] && Vacant(m.f, targets) && G.Fits(m.infos[m.f.S(x).what.value], bits, |targets|)
    ensures AllMade(m, Convert(m, x, bits, targets), x, m.f.S(x).what.value, bits, targets)
  {
    var g := m.f.S(x).what.value;
    assert RegionOk(m, g);
    G.AllTakenIff(m.infos[g], bits, |targets|);
    G.AcceptedIff(m.infos[g], bits, |targets|);
    EachMade(m, x, g, bits, targets, ConvertEach(m, x, g, bits, targets));
  }

  /** CONVERT into a Generic makes one child whose region is the next aligned block, none of it carved. */
  lemma ConvertGenericMakes(m: Machine, x: SlotId, bits: nat, target: Target)
    requires Inv(m) && Admissible(m, ConvertToGeneric(x, bits, target)) && Tracked(m.infos.Keys, m.f, x)
    requires m.f.S(target.slot).what.None? && G.Fits(m.infos[m.f.S(x).what.value], bits, 1)
    ensures var g := m.f.S(x).what.value; var t := ConvertGeneric(m, x, bits, target); var start := G.Reach(m.infos[g], bits, 0);
      && MadeAt(m, t, x, g, bits, [target], 0) && OthersStay(m, t, g, [target])
      && start < G.WORD && target.what in t.infos && t.infos[target.what] == G.Info(start, bits, start)
      && g in t.infos && t.infos[g] == m.infos[g].(watermark := t.infos[g].watermark) && t.infos[g].watermark == G.Reach(m.infos[g], bits, 1)
  {
    var g := m.f.S(x).what.value;
    assert RegionOk(m, g);
    G.AllTakenIff(m.infos[g], bits, 1);
    G.AcceptedIff(m.infos[g], bits, 1);
    NextBlock(m.infos[g], bits, 1);
    var (start, h) := G.TryAllocate(m.infos[g], bits).value;
    PlaceEffect(m, x, g, bits, target, h, start, Some(G.Info(start, bits, start)));
  }
}
