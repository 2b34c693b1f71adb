/**
 Capability slots as they lie in memory: each holds its object, depth and links to its neighbours.
 Every operation writes the fields one after another and is proved to do to the chains what the
 function of the same name does to the sequence of slots.
 */
module SlotMemory {
  import opened Common
  import R = Reclamation
  import opened ReclamationSafety
  import D = DerivationChain
  import G = GenericAllocator

  type SlotId = R.SlotId
  type Forest = R.Forest

  datatype Record = Record(
    what: Option<R.Object>,
    depth: nat,
    reclaiming: bool,
    preview: Option<SlotId>,
    next: Option<SlotId>)

  const NO_RECORD: Record := Record(None, 0, false, None, None)

  type Records = q: seq<Record> | |q| == R.SLOTS ghost witness seq(R.SLOTS, i => NO_RECORD)

  /** The record of `x` holds its slot, and its links are its neighbours in the chain. */
  ghost predicate RecordOk(s: Forest, r: Records, x: SlotId) {
    r[x] == Record(s.S(x).what, s.S(x).depth, s.S(x).reclaiming, R.PreviousOf(s, x), R.NextOf(s, x))
  }

  ghost predicate Represents(s: Forest, r: Records) {
    Listed(s) && Blocks(s) && forall x: SlotId :: RecordOk(s, r, x)
  }

  // ---------------------------------------------------------------- unlinking

  ghost function NextAt(s: Forest, i: nat): Option<SlotId>
    requires i < |s.order|
  {
    if i + 1 < |s.order| && SameChain(s, i, i + 1) then Some(s.order[i + 1]) else None
  }

  ghost function PreviousAt(s: Forest, i: nat): Option<SlotId>
    requires i < |s.order|
  {
    if i > 0 && SameChain(s, i - 1, i) then Some(s.order[i - 1]) else None
  }

  /** Links by position. */
  lemma LinksAt(s: Forest, i: nat)
    requires Distinct(s.order) && i < |s.order|
    ensures R.NextOf(s, s.order[i]) == NextAt(s, i) && R.PreviousOf(s, s.order[i]) == PreviousAt(s, i)
  {
    assert R.IndexOf(s.order, s.order[i]) == i;
  }

  lemma ClearLinksAt(s: Forest, x: SlotId, j: nat)
    requires Listed(s) && Blocks(s) && x in s.order && j < |R.Clear(s, x).order|
    ensures var t := R.Clear(s, x); var n := R.IndexOf(s.order, x); var i := Before(n, j);
      && i < |s.order| && t.order[j] == s.order[i]
      && NextAt(t, j) == (if NextAt(s, i) == Some(x) then NextAt(s, n) else NextAt(s, i))
      && PreviousAt(t, j) == (if PreviousAt(s, i) == Some(x) then PreviousAt(s, n) else PreviousAt(s, i))
  {
    var t := R.Clear(s, x);
    var n := R.IndexOf(s.order, x);
    ClearAt(s, x, j);
    if j + 1 < |t.order| { ClearAt(s, x, j + 1); }
    if j > 0 { ClearAt(s, x, j - 1); }
    if 0 < n < |s.order| - 1 { assert BlockOk(s, n - 1, n, n + 1); }
    CutLinksAt(s, t, n, j);
  }

  /** Position `j` of `t` is what position `i` of `s` was. */
  ghost predicate Resembles(s: Forest, i: int, t: Forest, j: int) {
    0 <= i < |s.order| && 0 <= j < |t.order| && t.order[j] == s.order[i] && t.S(t.order[j]).chain == s.S(s.order[i]).chain
  }

  lemma CutLinksAt(s: Forest, t: Forest, n: nat, j: nat)
    requires Distinct(s.order) && n < |s.order| && |t.order| == |s.order| - 1
    requires Resembles(s, Before(n, j), t, j)
    requires j + 1 < |t.order| ==> Resembles(s, Before(n, j + 1), t, j + 1)
    requires j > 0 ==> Resembles(s, Before(n, j - 1), t, j - 1)
    requires 0 < n < |s.order| - 1 && SameChain(s, n - 1, n + 1) ==> SameChain(s, n - 1, n)
    ensures var i := Before(n, j); var x := s.order[n];
      && NextAt(t, j) == (if NextAt(s, i) == Some(x) then NextAt(s, n) else NextAt(s, i))
      && PreviousAt(t, j) == (if PreviousAt(s, i) == Some(x) then PreviousAt(s, n) else PreviousAt(s, i))
  {
  }

  /** The links of `z` past a removed neighbour. */
  lemma ClearLinks(s: Forest, x: SlotId, z: SlotId)
    requires Listed(s) && Blocks(s) && z != x
    ensures R.NextOf(R.Clear(s, x), z) == if R.NextOf(s, z) == Some(x) then R.NextOf(s, x) else R.NextOf(s, z)
    ensures R.PreviousOf(R.Clear(s, x), z) == if R.PreviousOf(s, z) == Some(x) then R.PreviousOf(s, x) else R.PreviousOf(s, z)
  {
    ClearListed(s, x);
    if z in s.order {
      if x in s.order { ClearLinked(s, x, z); } else { ClearUnlisted(s, x, z); }
    } else {
      assert z !in R.Clear(s, x).order;
    }
  }

  lemma ClearLinked(s: Forest, x: SlotId, z: SlotId)
    requires Listed(s) && Blocks(s) && z != x && x in s.order && z in s.order && Listed(R.Clear(s, x))
    ensures R.NextOf(R.Clear(s, x), z) == if R.NextOf(s, z) == Some(x) then R.NextOf(s, x) else R.NextOf(s, z)
    ensures R.PreviousOf(R.Clear(s, x), z) == if R.PreviousOf(s, z) == Some(x) then R.PreviousOf(s, x) else R.PreviousOf(s, z)
  {
    var t := R.Clear(s, x);
    assert t.S(z).what.Some? && z in t.order;
    var j := R.IndexOf(t.order, z);
    ClearLinksAt(s, x, j);
    LinksAt(t, j);
    LinksAt(s, Before(R.IndexOf(s.order, x), j));
    LinksAt(s, R.IndexOf(s.order, x));
  }

  lemma ClearUnlisted(s: Forest, x: SlotId, z: SlotId)
    requires Listed(s) && x !in s.order && z in s.order
    ensures R.NextOf(R.Clear(s, x), z) == R.NextOf(s, z) != Some(x)
    ensures R.PreviousOf(R.Clear(s, x), z) == R.PreviousOf(s, z) != Some(x)
  {
    var i := R.IndexOf(s.order, z);
    LinksAt(s, i);
    LinksAt(R.Clear(s, x), i);
    if i + 1 < |s.order| { assert s.order[i + 1] in s.order; }
    if i > 0 { assert s.order[i - 1] in s.order; }
  }

  /** What unlinking and clearing `x` writes. */
  ghost predicate Unlinks(r: Records, u: Records, x: SlotId) {
    && u[x] == NO_RECORD
    && forall z: SlotId :: z != x ==>
         u[z] == r[z].(next := if r[z].next == Some(x) then r[x].next else r[z].next,
                       preview := if r[z].preview == Some(x) then r[x].preview else r[z].preview)
  }

  lemma ClearRepresents(s: Forest, r: Records, u: Records, x: SlotId)
    requires Represents(s, r) && Unlinks(r, u, x)
    ensures Represents(R.Clear(s, x), u)
  {
    ClearListed(s, x);
    if x in s.order { ClearBlocks(s, x); } else { SameEntriesBlocks(s, R.Clear(s, x)); }
    assert RecordOk(s, r, x);
    forall z: SlotId ensures RecordOk(R.Clear(s, x), u, z) {
      assert RecordOk(s, r, z);
      if z != x { ClearLinks(s, x, z); }
    }
  }

  lemma SameEntriesBlocks(s: Forest, t: Forest)
    requires Blocks(s) && t.order == s.order && forall i :: 0 <= i < |s.order| ==> t.S(s.order[i]) == s.S(s.order[i])
    ensures Blocks(t)
  {
    forall i, k, j | 0 <= i <= k <= j < |t.order| ensures BlockOk(t, i, k, j) { assert BlockOk(s, i, k, j); }
  }

  /** Neighbours point at each other. */
  lemma MutualLinks(s: Forest, x: SlotId, z: SlotId)
    requires Distinct(s.order)
    ensures R.NextOf(s, z) == Some(x) <==> R.PreviousOf(s, x) == Some(z)
  {
  }

  // ---------------------------------------------------------------- linking

  ghost predicate Insertable(s: Forest, x: SlotId, y: SlotId, r: R.Slot) {
    Listed(s) && Blocks(s) && x in s.order && y !in s.order && r.what.Some? && r.chain == s.S(x).chain
  }

  lemma InsertLinksAt(s: Forest, x: SlotId, y: SlotId, r: R.Slot, j: nat)
    requires Insertable(s, x, y, r) && j <= |s.order|
    ensures var t := D.InsertAfter(s, x, y, r); var n := R.IndexOf(s.order, x) + 1;
      && |t.order| == |s.order| + 1
      && (if j == n then t.order[j] == y && NextAt(t, j) == NextAt(s, n - 1) && PreviousAt(t, j) == Some(x)
          else
            var i := D.Was(n, j);
            && t.order[j] == s.order[i]
            && NextAt(t, j) == (if i == n - 1 then Some(y) else NextAt(s, i))
            && PreviousAt(t, j) == (if i == n && SameChain(s, n - 1, n) then Some(y) else PreviousAt(s, i)))
  {
    var t := D.InsertAfter(s, x, y, r);
    var n := R.IndexOf(s.order, x) + 1;
    D.InsertedAt(s, x, y, r, j);
    if j + 1 < |t.order| { D.InsertedAt(s, x, y, r, j + 1); }
    if j > 0 { D.InsertedAt(s, x, y, r, j - 1); }
    GapLinksAt(s, t, n, j, y);
  }

  /** Position `j` of `t` is the new slot, or what it was before the insertion at `n`. */
  ghost predicate Follows(s: Forest, t: Forest, n: nat, y: SlotId, j: int) {
    if j == n then 0 < n <= |s.order| && n < |t.order| && t.order[n] == y && t.S(y).chain == s.S(s.order[n - 1]).chain
    else Resembles(s, D.Was(n, j), t, j)
  }

  lemma GapLinksAt(s: Forest, t: Forest, n: nat, j: nat, y: SlotId)
    requires 0 < n <= |s.order| && |t.order| == |s.order| + 1 && j < |t.order|
    requires Follows(s, t, n, y, j)
    requires j + 1 < |t.order| ==> Follows(s, t, n, y, j + 1)
    requires j > 0 ==> Follows(s, t, n, y, j - 1)
    ensures
      if j == n then NextAt(t, j) == NextAt(s, n - 1) && PreviousAt(t, j) == Some(s.order[n - 1])
      else
        var i := D.Was(n, j);
        && NextAt(t, j) == (if i == n - 1 then Some(y) else NextAt(s, i))
        && PreviousAt(t, j) == (if i == n && SameChain(s, n - 1, n) then Some(y) else PreviousAt(s, i))
  {
  }

  /** The links around a slot inserted after `x`. */
  lemma InsertLinks(s: Forest, x: SlotId, y: SlotId, r: R.Slot, z: SlotId)
    requires Insertable(s, x, y, r) && Listed(D.InsertAfter(s, x, y, r)) && z in D.InsertAfter(s, x, y, r).order
    ensures var t := D.InsertAfter(s, x, y, r);
      && R.NextOf(t, z) == (if z == y then R.NextOf(s, x) else if z == x then Some(y) else R.NextOf(s, z))
      && R.PreviousOf(t, z) == (if z == y then Some(x) else if R.NextOf(s, x) == Some(z) then Some(y) else R.PreviousOf(s, z))
  {
    var t := D.InsertAfter(s, x, y, r);
    var n := R.IndexOf(s.order, x) + 1;
    var j := R.IndexOf(t.order, z);
    assert j < |t.order|;
    D.InsertedAt(s, x, y, r, 0);
    InsertLinksAt(s, x, y, r, j);
    LinksAt(t, j);
    LinksAt(s, n - 1);
    if j != n {
      LinksAt(s, D.Was(n, j));
      assert z in s.order;
    }
  }

  /** What linking `y` behind `x` writes, besides the other fields of `y`. */
  ghost predicate LinksBehind(r: Records, u: Records, x: SlotId, y: SlotId) {
    && u[y].preview == Some(x) && u[y].next == r[x].next
    && u[x] == r[x].(next := Some(y))
    && forall z: SlotId :: z != x && z != y ==> u[z] == if r[x].next == Some(z) then r[z].(preview := Some(y)) else r[z]
  }

  lemma InsertRepresents(s: Forest, r: Records, u: Records, x: SlotId, y: SlotId, k: R.Slot)
    requires Represents(s, r) && Insertable(s, x, y, k) && LinksBehind(r, u, x, y)
    requires u[y].what == k.what && u[y].depth == k.depth && u[y].reclaiming == k.reclaiming
    requires Blocks(D.InsertAfter(s, x, y, k))
    ensures Represents(D.InsertAfter(s, x, y, k), u)
  {
    var t := D.InsertAfter(s, x, y, k);
    D.InsertListed(s, x, y, k);
    assert RecordOk(s, r, x);
    forall z: SlotId ensures RecordOk(t, u, z) {
      assert RecordOk(s, r, z);
      if z in t.order {
        InsertLinks(s, x, y, k, z);
        MutualLinks(s, z, x);
        MutualLinks(s, x, z);
      } else {
        assert z !in s.order;
        MutualLinks(s, z, x);
      }
    }
  }

  // ---------------------------------------------------------------- moving

  ghost function Renamed(o: Option<SlotId>, from: SlotId, to: SlotId): Option<SlotId> {
    if o == Some(from) then Some(to) else o
  }

  ghost predicate Movable(s: Forest, destination: SlotId, source: SlotId) {
    WellFormed(s) && source in s.order && destination !in s.order
  }

  lemma MoveLinksAt(s: Forest, destination: SlotId, source: SlotId, i: nat)
    requires Movable(s, destination, source) && i < |s.order|
    ensures var t := D.MoveSlot(s, destination, source).0;
      && |t.order| == |s.order| && Some(t.order[i]) == Renamed(Some(s.order[i]), source, destination)
      && NextAt(t, i) == Renamed(NextAt(s, i), source, destination)
      && PreviousAt(t, i) == Renamed(PreviousAt(s, i), source, destination)
  {
    var t := D.MoveSlot(s, destination, source).0;
    var n := R.IndexOf(s.order, source);
    assert t.order == s.order[n := destination];
    forall k | 0 <= k < |s.order| ensures t.S(t.order[k]).chain == s.S(s.order[k]).chain {
      assert s.order[k] in s.order;
    }
  }

  /** What moving writes: the destination takes the source's place. */
  ghost predicate Replaces(r: Records, u: Records, destination: SlotId, source: SlotId) {
    && u[source] == NO_RECORD && u[destination] == r[source].(reclaiming := false)
    && forall z: SlotId :: z != source && z != destination ==>
         u[z] == r[z].(next := Renamed(r[z].next, source, destination), preview := Renamed(r[z].preview, source, destination))
  }

  lemma MoveRepresents(s: Forest, r: Records, u: Records, destination: SlotId, source: SlotId)
    requires Represents(s, r) && Movable(s, destination, source) && Replaces(r, u, destination, source)
    ensures Represents(D.MoveSlot(s, destination, source).0, u)
  {
    var t := D.MoveSlot(s, destination, source).0;
    D.MoveKeeps(s, destination, source);
    assert destination != source;
    forall z: SlotId ensures RecordOk(t, u, z) {
      assert RecordOk(s, r, z) && RecordOk(s, r, source);
      if z in t.order {
        var i := R.IndexOf(t.order, z);
        MoveLinksAt(s, destination, source, i);
        LinksAt(t, i);
        LinksAt(s, i);
        if z == destination {
          NotOwnNeighbour(s, i);
        }
      } else {
        assert t.S(z).what.None?;
      }
    }
  }

  lemma NotOwnNeighbour(s: Forest, i: nat)
    requires Distinct(s.order) && i < |s.order|
    ensures NextAt(s, i) != Some(s.order[i]) && PreviousAt(s, i) != Some(s.order[i])
  {
  }

  // ---------------------------------------------------------------- in place

  /** Links are mutual, and no slot is its own neighbour. */
  lemma Neighbours(s: Forest, r: Records, x: SlotId)
    requires Represents(s, r)
    ensures r[x].next != Some(x) && r[x].preview != Some(x)
    ensures forall z: SlotId :: (r[z].next == Some(x) <==> r[x].preview == Some(z)) && (r[z].preview == Some(x) <==> r[x].next == Some(z))
  {
    assert RecordOk(s, r, x);
    forall z: SlotId ensures (r[z].next == Some(x) <==> r[x].preview == Some(z)) && (r[z].preview == Some(x) <==> r[x].next == Some(z)) {
      assert RecordOk(s, r, z);
      MutualLinks(s, x, z);
      MutualLinks(s, z, x);
    }
    if x in s.order {
      LinksAt(s, R.IndexOf(s.order, x));
      NotOwnNeighbour(s, R.IndexOf(s.order, x));
    }
  }

  lemma RootRepresents(s: Forest, r: Records, t: Records, y: SlotId, o: R.Object)
    requires Represents(s, r) && WellFormed(D.CreateRoot(s, y, o)) && s.S(y).what.None?
    requires t == r[y := NO_RECORD.(what := Some(o))]
    ensures Represents(D.CreateRoot(s, y, o), t)
  {
    var u := D.CreateRoot(s, y, o);
    forall x: SlotId ensures RecordOk(u, t, x) {
      assert RecordOk(s, r, x);
      if x in u.order {
        var i := R.IndexOf(u.order, x);
        LinksAt(u, i);
        D.RootAt(s, y, o, i);
        if i < |s.order| {
          LinksAt(s, i);
          D.RootAt(s, y, o, i + 1);
          if i > 0 { D.RootAt(s, y, o, i - 1); }
        } else if i > 0 {
          D.RootAt(s, y, o, i - 1);
        }
      } else {
        assert x !in s.order;
      }
    }
  }

  class Slots {
    var slots: Records
    /** The Nodes whose finaliser is running, innermost last. */
    var scopes: seq<R.Object>
    var crashed: bool
    const inside: map<R.Object, seq<SlotId>>
    const failing: set<R.Object>
    /** The data of each Generic's slot. */
    var infos: map<R.Object, G.Info>
    ghost var s: Forest

    ghost predicate Valid()
      reads this
    {
      && Represents(s, slots) && s.inside == inside && s.failing == failing && s.crashed == crashed
      && s.infos == infos
      && (forall o :: o in scopes <==> o in s.active)
    }

    constructor (inside: map<R.Object, seq<SlotId>>, failing: set<R.Object>, slots: Records)
      requires forall x: SlotId :: slots[x] == NO_RECORD
      ensures Valid() && s == D.NoSlots(inside, failing) && this.inside == inside && this.failing == failing && !crashed
    {
      this.inside, this.failing, this.slots := inside, failing, slots;
      scopes, crashed, infos := [], false, map[];
      s := D.NoSlots(inside, failing);
    }

    /** An empty slot is configured with a new object; it has no neighbours. */
    method CreateRoot(y: SlotId, o: R.Object)
      requires Valid() && WellFormed(s) && s.S(y).what.None? && D.Unnamed(s, o)
      modifies this`slots, this`s
      ensures Valid() && WellFormed(s) && s == D.CreateRoot(old(s), y, o)
    {
      slots := slots[y := NO_RECORD.(what := Some(o))];
      D.RootKeeps(s, y, o);
      RootRepresents(s, old(slots), slots, y, o);
      s := D.CreateRoot(s, y, o);
    }

    /** The slot is unlinked from its neighbours and reset. */
    method ClearSlot(x: SlotId)
      requires Valid()
      modifies this`slots, this`s
      ensures Valid() && s == R.Clear(old(s), x)
    {
      Neighbours(s, slots, x);
      Unlink(x);
      ClearRepresents(s, old(slots), slots, x);
      s := R.Clear(s, x);
    }

    /** The neighbours of the slot point past it. */
    method Unlink(x: SlotId)
      requires slots[x].next != Some(x) && slots[x].preview != Some(x)
      requires forall z: SlotId ::
        && (slots[z].next == Some(x) <==> slots[x].preview == Some(z))
        && (slots[z].preview == Some(x) <==> slots[x].next == Some(z))
      modifies this`slots
      ensures Unlinks(old(slots), slots, x)
    {
      var before, after := slots[x].preview, slots[x].next;
      if before.Some? {
        slots := slots[before.value := slots[before.value].(next := after)];
      }
      if after.Some? {
        slots := slots[after.value := slots[after.value].(preview := before)];
      }
      slots := slots[x := NO_RECORD];
    }

    method LastAliasInGroup(x: SlotId) returns (last: SlotId)
      requires Valid()
      ensures last == R.LastAlias(s, x, R.IndexOf(s.order, x))
    {
      last := x;
      assert RecordOk(s, slots, x);
      var next := slots[x].next;
      while next.Some? && slots[next.value].depth == slots[x].depth && slots[x].what.Some? && slots[next.value].what == slots[x].what
        invariant next == slots[last].next && RecordOk(s, slots, last)
        invariant s.S(last).depth == s.S(x).depth && s.S(last).what == s.S(x).what
        invariant R.LastAlias(s, last, R.IndexOf(s.order, last)) == R.LastAlias(s, x, R.IndexOf(s.order, x))
        decreases |s.order| - R.IndexOf(s.order, last)
      {
        assert RecordOk(s, slots, x) && RecordOk(s, slots, next.value);
        NextSibling(s, last, next.value);
        last := next.value;
        assert RecordOk(s, slots, last);
        next := slots[last].next;
      }
      if next.Some? { assert RecordOk(s, slots, next.value); }
    }

    method HasSibling(x: SlotId) returns (r: bool)
      requires Valid()
      ensures r == R.HasSibling(s, x)
    {
      var k := slots[x];
      assert RecordOk(s, slots, x);
      if k.next.Some? { assert RecordOk(s, slots, k.next.value); }
      if k.preview.Some? { assert RecordOk(s, slots, k.preview.value); }
      r := (k.next.Some? && k.what.Some? && slots[k.next.value].depth == k.depth && slots[k.next.value].what == k.what)
        || (k.preview.Some? && k.what.Some? && slots[k.preview.value].depth == k.depth && slots[k.preview.value].what == k.what);
    }

    method SetPin(x: SlotId, pin: bool)
      requires Valid()
      modifies this`slots, this`s
      ensures Valid() && s == if pin then R.Pin(old(s), x) else R.Unpin(old(s), x)
    {
      slots := slots[x := slots[x].(reclaiming := pin)];
      ghost var t := s.Set(x, s.S(x).(reclaiming := pin));
      PinRepresents(s, old(slots), x, pin);
      s := t;
    }

    // -------------------------------------------------------------- copying and moving

    method CopySlot(destination: SlotId, source: SlotId) returns (ok: bool)
      requires Valid() && WellFormed(s)
      modifies this`slots, this`s
      ensures Valid() && (s, ok) == D.CopySlot(old(s), destination, source)
    {
      assert RecordOk(s, slots, destination) && RecordOk(s, slots, source);
      if slots[destination].what.Some? { return false; }
      D.CopyKeeps(s, destination, source);
      if slots[source].what.None? {
        ClearSlot(destination);
        return true;
      }
      Place(source, destination, slots[source].what, slots[source].depth, s.S(source).(reclaiming := false));
      ok := true;
    }

    /** A new object in the empty slot `y`, behind all aliases of its parent. */
    method InsertChild(parent: SlotId, y: SlotId, o: R.Object)
      requires Valid() && WellFormed(s) && s.S(parent).what.Some? && s.S(parent).what.value.Leaf?
      requires s.S(y).what.None? && forall x: SlotId :: s.S(x).what != Some(o)
      modifies this`slots, this`s
      ensures Valid() && s == D.InsertChild(old(s), parent, y, o)
    {
      assert RecordOk(s, slots, parent) && RecordOk(s, slots, y);
      D.ChildKeeps(s, parent, y, o);
      LastAliasIs(s, parent, R.IndexOf(s.order, parent));
      var last := LastAliasInGroup(parent);
      Place(last, y, Some(o), slots[parent].depth + 1, R.Slot(Some(o), s.S(parent).depth + 1, s.S(parent).chain, false));
    }

    /** The empty slot `y` is filled and linked behind `x`. */
    method Place(x: SlotId, y: SlotId, what: Option<R.Object>, depth: nat, ghost k: R.Slot)
      requires Valid() && Insertable(s, x, y, k) && Blocks(D.InsertAfter(s, x, y, k))
      requires k.what == what && k.depth == depth && !k.reclaiming
      modifies this`slots, this`s
      ensures Valid() && s == D.InsertAfter(old(s), x, y, k)
    {
      assert RecordOk(s, slots, x) && RecordOk(s, slots, y);
      Neighbours(s, slots, x);
      Neighbours(s, slots, y);
      slots := slots[y := NO_RECORD.(what := what, depth := depth)];
      Insert(x, y);
      InsertRepresents(s, old(slots), slots, x, y, k);
      s := D.InsertAfter(s, x, y, k);
    }

    /** `y` is linked between `x` and its successor. */
    method Insert(x: SlotId, y: SlotId)
      requires x != y && slots[x].next != Some(x) && slots[x].next != Some(y)
      modifies this`slots
      ensures LinksBehind(old(slots), slots, x, y)
      ensures slots[y] == old(slots)[y].(preview := Some(x), next := old(slots)[x].next)
    {
      var next := slots[x].next;
      slots := slots[x := slots[x].(next := Some(y))];
      slots := slots[y := slots[y].(preview := Some(x), next := next)];
      if next.Some? {
        slots := slots[next.value := slots[next.value].(preview := Some(y))];
      }
    }

    method MoveSlot(destination: SlotId, source: SlotId) returns (ok: bool)
      requires Valid() && WellFormed(s)
      modifies this`slots, this`s
      ensures Valid() && (s, ok) == D.MoveSlot(old(s), destination, source)
    {
      assert RecordOk(s, slots, destination) && RecordOk(s, slots, source);
      if slots[destination].what.Some? { return false; }
      if slots[source].what.None? {
        ClearSlot(destination);
        return true;
      }
      Neighbours(s, slots, source);
      Neighbours(s, slots, destination);
      Relocate(destination, source);
      MoveRepresents(s, old(slots), slots, destination, source);
      s := D.MoveSlot(s, destination, source).0;
      ok := true;
    }

    /** The destination takes over the record of the source, and the neighbours point to it. */
    method Relocate(destination: SlotId, source: SlotId)
      requires destination != source
      requires slots[source].next != Some(source) && slots[source].preview != Some(source)
      requires slots[source].next != Some(destination) && slots[source].preview != Some(destination)
      requires forall z: SlotId ::
        && (slots[z].next == Some(source) <==> slots[source].preview == Some(z))
        && (slots[z].preview == Some(source) <==> slots[source].next == Some(z))
      modifies this`slots
      ensures Replaces(old(slots), slots, destination, source)
    {
      var k := slots[source];
      slots := slots[destination := k.(reclaiming := false)];
      if k.preview.Some? {
        slots := slots[k.preview.value := slots[k.preview.value].(next := Some(destination))];
      }
      if k.next.Some? {
        slots := slots[k.next.value := slots[k.next.value].(preview := Some(destination))];
      }
      slots := slots[source := NO_RECORD];
    }

    // -------------------------------------------------------------- reclamation

    /** Descendants first, then the object; the slot is pinned meanwhile. */
    method RevokeSlot(x: SlotId) returns (r: R.Result)
      requires Valid()
      modifies this
      ensures Valid() && (s, r) == R.RevokeSlot(old(s), x) && scopes == old(scopes)
      decreases |R.LiveSlots(s)|, 1, 0
    {
      assert RecordOk(s, slots, x);
      if slots[x].what.None? || slots[x].reclaiming { return R.IllegalArgument; }
      R.PinMeasure(s, x);
      SetPin(x, true);
      ghost var pinned := s;
      var last := LastAliasInGroup(x);
      r := RemoveDescendants(x, last);
      R.ShrinkMeasures(pinned, s);
      if r == R.Done { r := FinaliseHere(x); }
      SetPin(x, false);
    }

    /** The object named by the slot, which is gone if the slot has been emptied meanwhile. */
    method FinaliseHere(x: SlotId) returns (r: R.Result)
      requires Valid()
      modifies this
      ensures Valid() && scopes == old(scopes)
      ensures if old(s).S(x).what.None? then s == old(s).(crashed := true) && r == R.Unexpected
        else s == R.Finalise(old(s), x).0 && r == (if R.Finalise(old(s), x).1 then R.Done else R.Unexpected)
      decreases |R.LiveSlots(s)|, 6, 0
    {
      assert RecordOk(s, slots, x);
      if slots[x].what.None? {
        crashed := true;
        SameChains(s, s.(crashed := true), slots);
        s := s.(crashed := true);
        r := R.Unexpected;
      } else {
        var ok := Finalise(x);
        r := if ok then R.Done else R.Unexpected;
      }
    }

    /** Whatever follows the alias group and is deeper goes. */
    method RemoveDescendants(x: SlotId, last: SlotId) returns (r: R.Result)
      requires Valid()
      modifies this
      ensures Valid() && (s, r) == R.RemoveDescendants(old(s), x, last) && scopes == old(scopes)
      decreases |R.LiveSlots(s)|, 3, 0
    {
      assert RecordOk(s, slots, last) && RecordOk(s, slots, x);
      var next := slots[last].next;
      if next.Some? { assert RecordOk(s, slots, next.value); }
      while next.Some? && slots[next.value].depth > slots[x].depth
        invariant Valid() && scopes == old(scopes) && R.Shrinks(old(s), s)
        invariant next == slots[last].next && RecordOk(s, slots, last) && RecordOk(s, slots, x)
        invariant next.Some? ==> RecordOk(s, slots, next.value)
        invariant R.RemoveDescendants(s, x, last) == R.RemoveDescendants(old(s), x, last)
        decreases |R.DeepSlots(s)|
      {
        R.ShrinkMeasures(old(s), s);
        ghost var before := s;
        r := RemoveSlot(next.value);
        if r != R.Done { return; }
        R.EmptiedIsShallower(before, s, next.value);
        R.ShrinkTrans(old(s), before, s);
        assert RecordOk(s, slots, last) && RecordOk(s, slots, x);
        next := slots[last].next;
        if next.Some? { assert RecordOk(s, slots, next.value); }
      }
      r := R.Done;
    }

    method RemoveSlot(x: SlotId) returns (r: R.Result)
      requires Valid()
      modifies this
      ensures Valid() && (s, r) == R.RemoveSlot(old(s), x) && scopes == old(scopes)
      decreases |R.LiveSlots(s)|, 2, 0
    {
      assert RecordOk(s, slots, x);
      if slots[x].reclaiming {
        if slots[x].what.None? || slots[x].what.value !in scopes { return R.IllegalArgument; }
        ClearSlot(x);
        return R.Done;
      }
      var shared := HasSibling(x);
      if slots[x].what.Some? && !shared {
        r := RevokeSlot(x);
        if r != R.Done { return R.Unexpected; }
      }
      ClearSlot(x);
      r := R.Done;
    }

    /** The object's own cleanup. */
    method Finalise(x: SlotId) returns (ok: bool)
      requires Valid() && s.S(x).what.Some?
      modifies this
      ensures Valid() && (s, ok) == R.Finalise(old(s), x) && scopes == old(scopes)
      decreases |R.LiveSlots(s)|, 5, 0
    {
      assert RecordOk(s, slots, x);
      var o := slots[x].what.value;
      match o {
        case Leaf(_) => ok := Cleanup(x, o);
        case Node(_) =>
          if o in scopes { return true; }
          ghost var outer := s.active;
          scopes := scopes + [o];
          SameChains(s, s.(active := s.active + {o}), slots);
          s := s.(active := s.active + {o});
          ok := EmptyNode(o, x);
          assert scopes[..|scopes| - 1] == old(scopes);
          scopes := scopes[..|scopes| - 1];
          SameChains(s, s.(active := outer), slots);
          s := s.(active := outer);
          if ok { Log(o); }
        case Holder(_) =>
          ok := o !in failing;
          if ok { ok := EmptyHolder(o); }
          if ok { Log(o); }
      }
    }

    /** A Generic with something below it refuses; any other starts again at its base. */
    method Cleanup(x: SlotId, o: R.Object) returns (ok: bool)
      requires Valid() && s.S(x).what == Some(o) && o.Leaf?
      modifies this`infos, this`s
      ensures Valid() && (s, ok) == R.Finalise(old(s), x)
    {
      if o in failing { return false; }
      if o in infos {
        var busy := HasChild(x);
        if busy {
          SameChains(s, s.(refused := true), slots);
          s := s.(refused := true);
          return false;
        }
        infos := infos[o := R.Restarted(infos[o])];
      }
      SameChains(s, R.Finished(s, o), slots);
      s := R.Finished(s, o);
      ok := true;
    }

    method HasChild(x: SlotId) returns (r: bool)
      requires Valid()
      ensures r == R.HasChild(s, x)
    {
      var last := LastAliasInGroup(x);
      assert RecordOk(s, slots, last) && RecordOk(s, slots, x);
      var next := slots[last].next;
      if next.Some? { assert RecordOk(s, slots, next.value); }
      r := next.Some? && slots[next.value].depth > slots[x].depth;
    }

    /** The data of a Generic's slot are written. */
    method SetInfo(o: R.Object, info: G.Info)
      requires Valid()
      modifies this`infos, this`s
      ensures Valid() && s == old(s).(infos := old(s).infos[o := info])
    {
      infos := infos[o := info];
      SameChains(s, s.(infos := infos), slots);
      s := s.(infos := infos);
    }

    method DropInfo(o: R.Object)
      requires Valid()
      modifies this`infos, this`s
      ensures Valid() && s == old(s).(infos := old(s).infos - {o})
    {
      infos := infos - {o};
      SameChains(s, s.(infos := infos), slots);
      s := s.(infos := infos);
    }

    ghost method Log(o: R.Object)
      requires Valid()
      modifies this`s
      ensures Valid() && s == old(s).(log := old(s).log + [o])
    {
      SameChains(s, s.(log := s.log + [o]), slots);
      s := s.(log := s.log + [o]);
    }

    /** A Node's slots in order; the slot being revoked stays, other aliases of the Node just go. */
    method EmptyNode(o: R.Object, self: SlotId) returns (ok: bool)
      requires Valid()
      modifies this
      ensures Valid() && (s, ok) == R.EmptyNode(old(s), o, self, 0) && scopes == old(scopes)
      decreases |R.LiveSlots(s)|, 4, 0
    {
      var held := if o in inside then inside[o] else [];
      for i := 0 to |held|
        invariant Valid() && scopes == old(scopes) && R.Shrinks(old(s), s)
        invariant R.EmptyNode(s, o, self, i) == R.EmptyNode(old(s), o, self, 0)
      {
        ghost var before := s;
        R.ShrinkMeasures(old(s), s);
        var r := EmptyOne(held[i], self);
        if r != R.Done { return false; }
        R.ShrinkTrans(old(s), before, s);
      }
      ok := true;
    }

    method EmptyOne(z: SlotId, self: SlotId) returns (r: R.Result)
      requires Valid()
      modifies this
      ensures Valid() && scopes == old(scopes) && R.Shrinks(old(s), s)
      ensures var same := R.SameObject(old(s).S(z), old(s).S(self));
        (s, r) ==
          if z == self || (old(s).S(z).what.None? && !same) then (old(s), R.Done)
          else if same then (R.Clear(old(s), z), R.Done) else R.RemoveSlot(old(s), z)
      decreases |R.LiveSlots(s)|, 3, 0
    {
      assert RecordOk(s, slots, z) && RecordOk(s, slots, self);
      r := R.Done;
      if z == self || slots[z].what.None? { return; }
      if slots[z].what == slots[self].what {
        ClearSlot(z);
      } else {
        r := RemoveSlot(z);
      }
    }

    /** A process gives up the slots it owns, stopping at the first that cannot be removed. */
    method EmptyHolder(o: R.Object) returns (ok: bool)
      requires Valid()
      modifies this
      ensures Valid() && (s, ok) == R.EmptyHolder(old(s), o, 0) && scopes == old(scopes)
      decreases |R.LiveSlots(s)|, 4, 0
    {
      var held := if o in inside then inside[o] else [];
      for i := 0 to |held|
        invariant Valid() && scopes == old(scopes) && R.Shrinks(old(s), s)
        invariant R.EmptyHolder(s, o, i) == R.EmptyHolder(old(s), o, 0)
      {
        ghost var before := s;
        R.ShrinkMeasures(old(s), s);
        var r := RemoveSlot(held[i]);
        if r != R.Done { return false; }
        R.ShrinkTrans(old(s), before, s);
      }
      ok := true;
    }
  }

  lemma SameChains(s: Forest, t: Forest, r: Records)
    requires Represents(s, r) && t.slots == s.slots && t.order == s.order
    ensures Represents(t, r)
  {
    forall i, k, j | 0 <= i <= k <= j < |t.order| ensures BlockOk(t, i, k, j) { assert BlockOk(s, i, k, j); }
    forall z: SlotId ensures z in t.order <==> t.S(z).what.Some? { assert z in s.order <==> s.S(z).what.Some?; }
    forall z: SlotId ensures RecordOk(t, r, z) { assert RecordOk(s, r, z); }
  }

  lemma NextSibling(s: Forest, x: SlotId, y: SlotId)
    requires Distinct(s.order) && R.NextOf(s, x) == Some(y) && R.Siblings(s.S(x), s.S(y))
    ensures R.LastAlias(s, x, R.IndexOf(s.order, x)) == R.LastAlias(s, y, R.IndexOf(s.order, y))
    ensures R.IndexOf(s.order, y) == R.IndexOf(s.order, x) + 1 <= |s.order|
  {
    assert R.IndexOf(s.order, s.order[R.IndexOf(s.order, x) + 1]) == R.IndexOf(s.order, x) + 1;
  }

  lemma PinRepresents(s: Forest, r: Records, x: SlotId, pin: bool)
    requires Represents(s, r)
    ensures Represents(s.Set(x, s.S(x).(reclaiming := pin)), r[x := r[x].(reclaiming := pin)])
  {
    var t := s.Set(x, s.S(x).(reclaiming := pin));
    forall i, k, j | 0 <= i <= k <= j < |t.order| ensures BlockOk(t, i, k, j) { assert BlockOk(s, i, k, j); }
    forall z: SlotId ensures z in t.order <==> t.S(z).what.Some? { assert z in s.order <==> s.S(z).what.Some?; }
    var u := r[x := r[x].(reclaiming := pin)];
    forall z: SlotId ensures RecordOk(t, u, z) { assert RecordOk(s, r, z); }
  }
}
