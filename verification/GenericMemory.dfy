/** CONVERT and the cleanup of a Generic on linked slots, in place. */
module GenericMemory {
  import opened Common
  import R = Reclamation
  import RS = ReclamationSafety
  import D = DerivationChain
  import G = GenericAllocator
  import M = SlotMemory
  import C = GenericChain
  import V = Conversion

  datatype Answer = Done | InvalidArgument | IllegalOperation

  /** The requests that are left: their objects are new and all their blocks fit. */
  ghost predicate Pending(m: C.Machine, x: R.SlotId, g: R.Object, bits: nat, targets: seq<C.Target>, i: nat) {
    && i <= |targets| && C.Inv(m) && m.f.S(x).what == Some(g) && g in m.infos
    && (i < |targets| ==> G.AllTaken(m.infos[g], bits, |targets| - i))
    && (forall j :: i <= j < |targets| ==> D.Unnamed(m.f, targets[j].what))
    && (forall j, k :: 0 <= j < k < |targets| ==> targets[j].what != targets[k].what)
    && (forall j :: 0 <= j < i ==> m.f.S(targets[j].slot).what == Some(targets[j].what))
  }

  /** One request is met: the next ones are pending. */
  lemma OneMore(m: C.Machine, x: R.SlotId, g: R.Object, bits: nat, targets: seq<C.Target>, i: nat)
    requires i < |targets| && Pending(m, x, g, bits, targets, i) && m.f.S(targets[i].slot).what.None?
    ensures G.TryAllocate(m.infos[g], bits).Some?
    ensures var (start, h) := G.TryAllocate(m.infos[g], bits).value;
      var t := C.Place(m, x, g, targets[i].slot, targets[i].what, G.Block(start, bits), h, None);
      && Pending(t, x, g, bits, targets, i + 1)
      && C.ConvertEach(m, x, g, bits, targets[i..]) == C.ConvertEach(t, x, g, bits, targets[i + 1..])
  {
    var (start, h) := G.TryAllocate(m.infos[g], bits).value;
    var y, o := targets[i].slot, targets[i].what;
    var b := G.Block(start, bits);
    var t := C.Place(m, x, g, y, o, b, h, None);
    C.PlaceKeeps(m, x, g, y, o, bits, start, h, None);
    forall z: R.SlotId ensures if z == y then t.f.S(z).what == Some(o) else t.f.S(z) == m.f.S(z) {
      C.PlacedSlot(m, x, g, y, o, b, h, None, z);
    }
    assert targets[i..][1..] == targets[i + 1..];
    assert o != g;
  }

  /** Only the first `i` target slots may have changed. */
  ghost predicate LeavesOthers(s: R.Forest, t: R.Forest, targets: seq<C.Target>, i: nat)
    requires i <= |targets|
  {
    forall z: R.SlotId :: (forall j :: 0 <= j < i ==> targets[j].slot != z) ==> t.S(z) == s.S(z)
  }

  lemma OneMoreVacant(s: R.Forest, t: R.Forest, targets: seq<C.Target>, i: nat)
    requires i < |targets| && LeavesOthers(s, t, targets, i) && V.Vacant(s, targets[..i])
    requires (forall j :: 0 <= j < i ==> t.S(targets[j].slot).what.Some?) && t.S(targets[i].slot).what.None?
    ensures V.Vacant(s, targets[..i + 1])
  {
    assert forall j :: 0 <= j < i ==> targets[j].slot != targets[i].slot;
    assert forall j :: 0 <= j < i ==> targets[..i + 1][j] == targets[..i][j];
  }

  /** A target that is taken was taken before, or is a target twice. */
  lemma NotVacant(s: R.Forest, t: R.Forest, targets: seq<C.Target>, i: nat)
    requires i < |targets| && LeavesOthers(s, t, targets, i) && t.S(targets[i].slot).what.Some?
    ensures !V.Vacant(s, targets)
  {
    if forall j :: 0 <= j < i ==> targets[j].slot != targets[i].slot { assert t.S(targets[i].slot) == s.S(targets[i].slot); }
  }

  lemma OthersLeft(m: C.Machine, x: R.SlotId, g: R.Object, bits: nat, s: R.Forest, targets: seq<C.Target>, i: nat)
    requires i < |targets| && C.Inv(m) && m.f.S(x).what == Some(g) && g in m.infos && m.f.S(targets[i].slot).what.None?
    requires LeavesOthers(s, m.f, targets, i) && G.TryAllocate(m.infos[g], bits).Some?
    ensures var (start, h) := G.TryAllocate(m.infos[g], bits).value;
      LeavesOthers(s, C.Place(m, x, g, targets[i].slot, targets[i].what, G.Block(start, bits), h, None).f, targets, i + 1)
  {
    var (start, h) := G.TryAllocate(m.infos[g], bits).value;
    var t := C.Place(m, x, g, targets[i].slot, targets[i].what, G.Block(start, bits), h, None);
    forall z: R.SlotId | forall j :: 0 <= j < i + 1 ==> targets[j].slot != z ensures t.f.S(z) == s.S(z) {
      assert targets[i].slot != z;
      C.PlacedSlot(m, x, g, targets[i].slot, targets[i].what, G.Block(start, bits), h, None, z);
      assert m.f.S(z) == s.S(z);
    }
  }

  class Generics {
    /** The slots, with the data of each Generic's slot. */
    const slots: M.Slots
    ghost var made: map<R.Object, C.Carving>

    ghost function State(): C.Machine
      reads this, slots
    {
      C.Machine(slots.s, made)
    }

    ghost predicate Valid()
      reads this, slots
    {
      slots.Valid() && C.Inv(State())
    }

    constructor (inside: map<R.Object, seq<R.SlotId>>, failing: set<R.Object>, records: M.Records)
      requires forall x: R.SlotId :: records[x] == M.NO_RECORD
      ensures Valid() && fresh(slots) && State() == C.Machine(D.NoSlots(inside, failing), map[])
    {
      slots := new M.Slots(inside, failing, records);
      made := map[];
    }

    method CreateGeneric(y: R.SlotId, o: R.Object, base: G.Word64, bits: nat)
      requires Valid() && C.Admissible(State(), C.NewGeneric(y, o, base, bits))
      modifies this, slots
      ensures Valid() && State() == C.CreateGeneric(old(State()), y, o, base, bits)
    {
      C.ApplyKeeps(State(), C.NewGeneric(y, o, base, bits));
      slots.CreateRoot(y, o);
      slots.SetInfo(o, G.Info(base, bits, base));
      made := made - {o};
    }

    /** An object is carved, written into the empty slot `y` and linked behind the Generic's slot. */
    method Make(x: R.SlotId, g: R.Object, bits: nat, y: R.SlotId, o: R.Object)
      requires slots.Valid() && RS.WellFormed(slots.s) && slots.s.S(x).what == Some(g) && g.Leaf? && g in slots.s.infos
      requires slots.s.S(y).what.None? && D.Unnamed(slots.s, o) && G.TryAllocate(slots.s.infos[g], bits).Some?
      modifies this, slots
      ensures slots.Valid()
      ensures var (start, h) := G.TryAllocate(old(slots.s).infos[g], bits).value;
        State() == C.Place(old(State()), x, g, y, o, G.Block(start, bits), h, None)
    {
      var info := slots.infos[g];
      var unit: nat := G.UnitSize(bits);
      var start := G.AlignValue(info.watermark, unit);
      assert G.TryAllocate(info, bits) == Some((start, info.(watermark := G.Wrap(start + unit))));
      made := made[o := C.Carving(g, G.Block(start, bits))];
      assert o != g;
      slots.InsertChild(x, y, o);
      slots.DropInfo(o);
      slots.SetInfo(g, info.(watermark := G.Wrap(start + unit)));
    }

    method Convert(x: R.SlotId, bits: nat, targets: seq<C.Target>) returns (r: Answer)
      requires Valid() && C.Admissible(State(), C.ConvertTo(x, bits, targets))
      requires slots.s.S(x).what.Some? && slots.s.S(x).what.value in slots.s.infos
      modifies this, slots
      ensures Valid() && State() == C.Convert(old(State()), x, bits, targets)
      ensures r == IllegalOperation <==>
        targets != [] && !G.Fits(old(slots.s).infos[old(slots.s).S(x).what.value], bits, |targets|)
      ensures r == InvalidArgument <==>
        targets == [] || (G.Fits(old(slots.s).infos[old(slots.s).S(x).what.value], bits, |targets|) && !V.Vacant(old(slots.s), targets))
      ensures r == Done ==> V.AllMade(old(State()), State(), x, old(slots.s).S(x).what.value, bits, targets)
    {
      C.ConvertKeeps(State(), x, bits, targets);
      assert M.RecordOk(slots.s, slots.slots, x);
      var g := slots.slots[x].what.value;
      assert C.RegionOk(State(), g);
      if targets == [] { return InvalidArgument; }
      G.AcceptedIffFits(slots.infos[g], bits, |targets|);
      if !G.IsAllocatable(slots.infos[g], bits, |targets|) { return IllegalOperation; }
      G.AllTakenIff(slots.infos[g], bits, |targets|);
      ghost var was := State();
      r := MakeEach(x, g, bits, targets);
      if r == Done { V.ConvertMakes(was, x, bits, targets); }
    }

    /** One object per target, until a slot is taken. */
    method MakeEach(x: R.SlotId, g: R.Object, bits: nat, targets: seq<C.Target>) returns (r: Answer)
      requires slots.Valid() && Pending(State(), x, g, bits, targets, 0)
      modifies this, slots
      ensures Valid() && State() == C.ConvertEach(old(State()), x, g, bits, targets) && r != IllegalOperation
      ensures r == Done <==> V.Vacant(old(slots.s), targets)
    {
      assert targets[0..] == targets;
      var i := 0;
      while i < |targets|
        invariant 0 <= i <= |targets| && slots.Valid() && Pending(State(), x, g, bits, targets, i)
        invariant C.ConvertEach(State(), x, g, bits, targets[i..]) == C.ConvertEach(old(State()), x, g, bits, targets)
        invariant V.Vacant(old(slots.s), targets[..i]) && LeavesOthers(old(slots.s), slots.s, targets, i)
      {
        var y := targets[i].slot;
        assert M.RecordOk(slots.s, slots.slots, y) && targets[i..][0] == targets[i];
        if slots.slots[y].what.Some? {
          NotVacant(old(slots.s), slots.s, targets, i);
          return InvalidArgument;
        }
        ghost var was := State();
        OneMore(was, x, g, bits, targets, i);
        assert C.RegionOk(State(), g);
        OneMoreVacant(old(slots.s), slots.s, targets, i);
        Make(x, g, bits, y, targets[i].what);
        OthersLeft(was, x, g, bits, old(slots.s), targets, i);
        i := i + 1;
      }
      assert targets[i..] == [] && targets[..i] == targets;
      r := Done;
    }

    /**
     Revoking on linked slots: every Generic that goes on the way, or is revoked itself, starts again at
     its base where its own cleanup runs, inside the recursion, and what is carved stays housed.
     */
    method Revoke(x: R.SlotId) returns (r: R.Result)
      requires Valid()
      modifies slots
      ensures Valid() && State() == C.Apply(old(State()), C.Revoke(x))
      ensures (slots.s, r) == R.RevokeSlot(old(slots.s), x) && (slots.s.refused ==> old(slots.s).refused)
    {
      C.ApplyKeeps(State(), C.Revoke(x));
      C.GenericNeverRefuses(State(), C.Revoke(x));
      r := slots.RevokeSlot(x);
    }

    method Remove(x: R.SlotId) returns (r: R.Result)
      requires Valid()
      modifies slots
      ensures Valid() && State() == C.Apply(old(State()), C.Remove(x))
      ensures (slots.s, r) == R.RemoveSlot(old(slots.s), x) && (slots.s.refused ==> old(slots.s).refused)
    {
      C.ApplyKeeps(State(), C.Remove(x));
      C.GenericNeverRefuses(State(), C.Remove(x));
      r := slots.RemoveSlot(x);
    }
  }

  /**
   What converting the Generic in `x` into a Generic `o` in `y` writes: both slots are configured anew,
   which resets their links and depths, and then the child is linked behind its parent.
   */
  function Reconfigured(r: M.Records, x: R.SlotId, y: R.SlotId, o: R.Object): M.Records {
    r[x := M.NO_RECORD.(what := r[x].what, next := Some(y))][y := M.Record(Some(o), 1, false, Some(x), None)]
  }

  /** The slot `x` as configuring it anew leaves it. */
  ghost function Anew(s: R.Forest, x: R.SlotId): R.Forest {
    s.Set(x, R.Slot(s.S(x).what, 0, s.S(x).chain, false))
  }

  ghost predicate Unlinked(s: R.Forest, x: R.SlotId) {
    R.NextOf(s, x).None? && R.PreviousOf(s, x).None?
  }

  /** A slot without links shares its chain, and its object, with no other. */
  lemma AloneInChain(s: R.Forest, x: R.SlotId, k: int)
    requires RS.WellFormed(s) && x in s.order && Unlinked(s, x) && 0 <= k < |s.order| && s.order[k] != x
    ensures s.S(s.order[k]).chain != s.S(x).chain && !R.SameObject(s.S(s.order[k]), s.S(x))
  {
    var i := R.IndexOf(s.order, x);
    if i < k {
      assert RS.BlockOk(s, i, i + 1, k);
    } else {
      assert RS.BlockOk(s, k, i - 1, i) && RS.BlockOk(s, k, i, i);
    }
  }

  lemma RestartKeeps(s: R.Forest, x: R.SlotId)
    requires RS.WellFormed(s) && x in s.order && Unlinked(s, x)
    ensures RS.WellFormed(Anew(s, x))
  {
    var t := Anew(s, x);
    forall z: R.SlotId ensures z in t.order <==> t.S(z).what.Some? { assert z in s.order <==> s.S(z).what.Some?; }
    forall i | 0 <= i < |t.order| - 1 ensures RS.StepOk(t, i) {
      assert RS.StepOk(s, i);
      if s.order[i] == x { AloneInChain(s, x, i + 1); }
      if s.order[i + 1] == x { AloneInChain(s, x, i); }
    }
    forall i, k, j | 0 <= i <= k <= j < |t.order| ensures RS.BlockOk(t, i, k, j) {
      assert RS.BlockOk(s, i, k, j);
      if s.order[i] != x { AloneInChain(s, x, i); }
      if s.order[k] != x { AloneInChain(s, x, k); }
      if s.order[j] != x { AloneInChain(s, x, j); }
    }
  }

  lemma RestartRepresents(s: R.Forest, r: M.Records, x: R.SlotId)
    requires M.Represents(s, r) && RS.WellFormed(s) && x in s.order && Unlinked(s, x)
    ensures M.Represents(Anew(s, x), r[x := M.NO_RECORD.(what := r[x].what)])
  {
    var t := Anew(s, x);
    RestartKeeps(s, x);
    var q: M.Records := r[x := M.NO_RECORD.(what := r[x].what)];
    forall z: R.SlotId ensures M.RecordOk(t, q, z) {
      assert M.RecordOk(s, r, z) && M.RecordOk(s, r, x);
      var i := R.IndexOf(s.order, z);
      if i + 1 < |s.order| { assert t.S(s.order[i + 1]).chain == s.S(s.order[i + 1]).chain; }
      assert R.NextOf(t, z) == R.NextOf(s, z) && R.PreviousOf(t, z) == R.PreviousOf(s, z);
    }
  }

  /** Neighbours that still point to the slot make the memory represent no chains at all. */
  lemma DanglingLinks(s: R.Forest, r: M.Records, x: R.SlotId, y: R.SlotId, o: R.Object, u: R.Forest)
    requires M.Represents(s, r) && s.S(y).what.None? && x != y && (r[x].next.Some? || r[x].preview.Some?)
    ensures !M.Represents(u, Reconfigured(r, x, y, o))
  {
    var t := Reconfigured(r, x, y, o);
    M.Neighbours(s, r, x);
    M.Neighbours(s, r, y);
    assert M.RecordOk(s, r, y) && y !in s.order;
    if r[x].next.Some? {
      OneWayLink(u, t, x, r[x].next.value);
    } else {
      OneWayLink(u, t, x, r[x].preview.value);
    }
  }

  lemma OneWayLink(u: R.Forest, t: M.Records, x: R.SlotId, z: R.SlotId)
    requires (t[z].preview == Some(x) && t[x].next != Some(z)) || (t[z].next == Some(x) && t[x].preview != Some(z))
    ensures !M.Represents(u, t)
  {
    if M.Represents(u, t) { M.Neighbours(u, t, x); }
  }

  /** Converting a Generic into a Generic leaves linked chains exactly when its slot had no links. */
  lemma GenericIntoGenericIff(s: R.Forest, r: M.Records, x: R.SlotId, y: R.SlotId, o: R.Object)
    requires M.Represents(s, r) && RS.WellFormed(s) && s.S(x).what.Some? && s.S(x).what.value.Leaf?
    requires s.S(y).what.None? && D.Unnamed(s, o)
    ensures (exists u: R.Forest :: M.Represents(u, Reconfigured(r, x, y, o))) <==> Unlinked(s, x)
  {
    assert M.RecordOk(s, r, x) && x in s.order;
    if Unlinked(s, x) {
      var t := Anew(s, x);
      RestartKeeps(s, x);
      RestartRepresents(s, r, x);
      LinkedAnew(t, r[x := M.NO_RECORD.(what := r[x].what)], x, y, o, Reconfigured(r, x, y, o));
    } else {
      forall u: R.Forest ensures !M.Represents(u, Reconfigured(r, x, y, o)) { DanglingLinks(s, r, x, y, o, u); }
    }
  }

  lemma LinkedAnew(s: R.Forest, r: M.Records, x: R.SlotId, y: R.SlotId, o: R.Object, u: M.Records)
    requires M.Represents(s, r) && RS.WellFormed(s) && x in s.order && s.S(x).what.Some? && s.S(x).what.value.Leaf?
    requires s.S(y).what.None? && D.Unnamed(s, o) && r[x].next.None? && r[x].preview.None? && s.S(x).depth == 0
    requires u == r[x := r[x].(next := Some(y))][y := M.Record(Some(o), 1, false, Some(x), None)]
    ensures M.Represents(D.InsertChild(s, x, y, o), u)
  {
    var k := R.Slot(Some(o), 1, s.S(x).chain, false);
    assert M.RecordOk(s, r, x) && y !in s.order;
    D.ChildKeeps(s, x, y, o);
    assert R.LastAlias(s, x, R.IndexOf(s.order, x)) == x;
    assert D.InsertChild(s, x, y, o) == D.InsertAfter(s, x, y, k);
    assert M.LinksBehind(r, u, x, y);
    M.InsertRepresents(s, r, u, x, y, k);
  }
}
