/** How slots enter and change chains, and why two neighbours tell whether an object has other aliases. */
module DerivationChain {
  import opened Common
  import opened Reclamation
  import opened ReclamationSafety

  // ---------------------------------------------------------------- operations

  /** `y` takes its place right after `x`. */
  function InsertAfter(s: Forest, x: SlotId, y: SlotId, r: Slot): Forest {
    var i := IndexOf(s.order, x);
    if i < |s.order| then s.Set(y, r).(order := s.order[..i + 1] + [y] + s.order[i + 1..])
    else s.Set(y, r)
  }

  /** A peer alias of `source`; the destination must be empty. */
  function CopySlot(s: Forest, destination: SlotId, source: SlotId): (Forest, bool) {
    if s.S(destination).what.Some? then (s, false)
    else if s.S(source).what.None? then (s.Set(destination, EMPTY), true)
    else (InsertAfter(s, source, destination, s.S(source).(reclaiming := false)), true)
  }

  /** The destination replaces the source in its chain. */
  function MoveSlot(s: Forest, destination: SlotId, source: SlotId): (Forest, bool) {
    if s.S(destination).what.Some? then (s, false)
    else if s.S(source).what.None? then (s.Set(destination, EMPTY), true)
    else
      var i := IndexOf(s.order, source);
      var t := s.Set(destination, s.S(source).(reclaiming := false)).Set(source, EMPTY);
      (if i < |s.order| then t.(order := s.order[i := destination]) else t, true)
  }

  /** A newly made object in `y`, after all aliases of its parent. */
  function InsertChild(s: Forest, parent: SlotId, y: SlotId, o: Object): Forest {
    var last := LastAlias(s, parent, IndexOf(s.order, parent));
    InsertAfter(s, last, y, Slot(Some(o), s.S(parent).depth + 1, s.S(parent).chain, false))
  }

  // ---------------------------------------------------------------- alias groups

  /** The two-neighbour test is exact. */
  lemma HasSiblingIff(s: Forest, x: SlotId)
    requires WellFormed(s) && s.S(x).what.Some?
    ensures HasSibling(s, x) <==> exists y: SlotId :: y != x && SameObject(s.S(x), s.S(y))
  {
    var i := IndexOf(s.order, x);
    assert x in s.order;
    if HasSibling(s, x) {
      if NextOf(s, x).Some? && Siblings(s.S(x), s.S(NextOf(s, x).value)) {
        assert s.order[i + 1] != x && SameObject(s.S(x), s.S(s.order[i + 1]));
      } else {
        assert s.order[i - 1] != x && SameObject(s.S(x), s.S(s.order[i - 1]));
      }
    }
    forall y: SlotId | y != x && SameObject(s.S(x), s.S(y)) ensures HasSibling(s, x) {
      assert y in s.order;
      var j := IndexOf(s.order, y);
      if i < j {
        assert BlockOk(s, i, i + 1, j);
      } else {
        assert BlockOk(s, j, i - 1, i) && BlockOk(s, j, i, i);
      }
    }
  }

  /** Removing a slot finalises its object exactly when no other slot names it. */
  lemma LastAliasOwnsTheObject(s: Forest, x: SlotId)
    requires WellFormed(s) && s.S(x).what.Some? && !s.S(x).reclaiming
    ensures (exists y: SlotId :: y != x && SameObject(s.S(x), s.S(y))) ==> RemoveSlot(s, x) == (Clear(s, x), Done)
    ensures !(exists y: SlotId :: y != x && SameObject(s.S(x), s.S(y))) ==>
      var (t, done) := RemoveSlot(s, x);
      && (done == Done <==> RevokeSlot(s, x).1 == Done)
      && (done == Done ==> forall y: SlotId :: t.S(y).what != s.S(x).what)
  {
    HasSiblingIff(s, x);
    var t := RemoveSlot(s, x).0;
    if RemoveSlot(s, x).1 == Done && !HasSibling(s, x) {
      forall y: SlotId ensures t.S(y).what != s.S(x).what {
        assert t.S(y) == s.S(y) || t.S(y) == EMPTY;
        assert y != x ==> !SameObject(s.S(x), s.S(y));
      }
    }
  }

  // ---------------------------------------------------------------- insertion keeps the forest well formed

  /** The position before an insertion at `n` of what is now at position `i`, for `i != n`. */
  ghost function Was(n: int, i: int): int {
    if i < n then i else i - 1
  }

  /** Where what is at position `j` after an insertion was before. */
  lemma InsertedAt(s: Forest, x: SlotId, y: SlotId, r: Slot, j: int)
    requires Listed(s) && x in s.order && y !in s.order && 0 <= j <= |s.order|
    ensures var t := InsertAfter(s, x, y, r); var n := IndexOf(s.order, x) + 1;
      && |t.order| == |s.order| + 1
      && (if j == n then t.order[j] == y && t.S(t.order[j]) == r
          else t.order[j] == s.order[Was(n, j)] && t.S(t.order[j]) == s.S(s.order[Was(n, j)]))
  {
    var n := IndexOf(s.order, x) + 1;
    if j != n { assert s.order[Was(n, j)] in s.order; }
  }

  lemma InsertListed(s: Forest, x: SlotId, y: SlotId, r: Slot)
    requires Listed(s) && x in s.order && y !in s.order && r.what.Some?
    ensures Listed(InsertAfter(s, x, y, r))
  {
    var t := InsertAfter(s, x, y, r);
    var n := IndexOf(s.order, x) + 1;
    forall i, j | 0 <= i < j < |t.order| ensures t.order[i] != t.order[j] {
      InsertedAt(s, x, y, r, i);
      InsertedAt(s, x, y, r, j);
    }
    forall z: SlotId ensures z in t.order <==> z in s.order || z == y {
      assert s.order == s.order[..n] + s.order[n..];
    }
    forall z: SlotId ensures z in t.order <==> t.S(z).what.Some? {
      assert z in s.order <==> s.S(z).what.Some?;
    }
  }

  /** A new object, one deeper than the last alias of the group at position `n - 1`. */
  ghost predicate NewChildAt(s: Forest, n: int, r: Slot)
    requires 0 < n <= |s.order|
  {
    var left := s.S(s.order[n - 1]);
    && left.what.Some? && left.what.value.Leaf? && r.depth == left.depth + 1
    && (forall x: SlotId :: !SameObject(r, s.S(x)))
    && (n < |s.order| && s.S(s.order[n]).chain == left.chain ==> !Siblings(left, s.S(s.order[n])))
  }

  /** `r` fits right after position `n - 1`: as an alias of it, or as a new child. */
  ghost predicate FitsAfter(s: Forest, n: int, r: Slot)
    requires 0 < n <= |s.order|
  {
    && r.chain == s.S(s.order[n - 1]).chain
    && (Siblings(s.S(s.order[n - 1]), r) || NewChildAt(s, n, r))
  }

  /** The old position that what is now at `i` resembles: for the new slot, that of its left neighbour. */
  ghost function Like(n: int, i: int): int {
    if i < n then i else i - 1
  }

  lemma InsertAt(s: Forest, x: SlotId, y: SlotId, r: Slot, i: int)
    requires x in s.order && y !in s.order && 0 <= i <= |s.order|
    ensures var t := InsertAfter(s, x, y, r); var n := IndexOf(s.order, x) + 1;
      && |t.order| == |s.order| + 1
      && if i == n then t.S(t.order[i]) == r else t.S(t.order[i]) == s.S(s.order[Like(n, i)])
  {
    var n := IndexOf(s.order, x) + 1;
    if i != n { assert s.order[Like(n, i)] in s.order; }
  }

  lemma InsertSteps(s: Forest, x: SlotId, y: SlotId, r: Slot)
    requires Steps(s) && x in s.order && y !in s.order && FitsAfter(s, IndexOf(s.order, x) + 1, r)
    ensures Steps(InsertAfter(s, x, y, r))
  {
    var t := InsertAfter(s, x, y, r);
    var n := IndexOf(s.order, x) + 1;
    forall i | 0 <= i < |t.order| - 1 ensures StepOk(t, i) {
      InsertAt(s, x, y, r, i);
      InsertAt(s, x, y, r, i + 1);
      if i != n - 1 && Like(n, i) < |s.order| - 1 {
        assert StepOk(s, Like(n, i));
      }
    }
  }

  lemma AliasBlocks(s: Forest, x: SlotId, y: SlotId, r: Slot, i: int, k: int, j: int)
    requires Blocks(s) && x in s.order && y !in s.order && r.chain == s.S(x).chain && Siblings(s.S(x), r)
    requires 0 <= i <= k <= j <= |s.order|
    ensures |InsertAfter(s, x, y, r).order| == |s.order| + 1 && BlockOk(InsertAfter(s, x, y, r), i, k, j)
  {
    var n := IndexOf(s.order, x) + 1;
    InsertAt(s, x, y, r, i);
    InsertAt(s, x, y, r, k);
    InsertAt(s, x, y, r, j);
    assert BlockOk(s, Like(n, i), Like(n, k), Like(n, j));
  }

  lemma ChildBlocks(s: Forest, x: SlotId, y: SlotId, r: Slot, i: int, k: int, j: int)
    requires Blocks(s) && x in s.order && y !in s.order && r.chain == s.S(x).chain
    requires NewChildAt(s, IndexOf(s.order, x) + 1, r)
    requires 0 <= i <= k <= j <= |s.order|
    ensures |InsertAfter(s, x, y, r).order| == |s.order| + 1 && BlockOk(InsertAfter(s, x, y, r), i, k, j)
  {
    var n := IndexOf(s.order, x) + 1;
    InsertAt(s, x, y, r, i);
    InsertAt(s, x, y, r, k);
    InsertAt(s, x, y, r, j);
    assert BlockOk(s, Like(n, i), Like(n, k), Like(n, j));
    if i < n < j {
      assert BlockOk(s, i, n - 1, j - 1) && BlockOk(s, i, n, j - 1);
    }
  }

  lemma InsertKeeps(s: Forest, x: SlotId, y: SlotId, r: Slot)
    requires WellFormed(s) && x in s.order && s.S(y).what.None? && r.what.Some?
    requires FitsAfter(s, IndexOf(s.order, x) + 1, r)
    ensures WellFormed(InsertAfter(s, x, y, r))
  {
    var t := InsertAfter(s, x, y, r);
    InsertListed(s, x, y, r);
    InsertedAt(s, x, y, r, 0);
    InsertSteps(s, x, y, r);
    forall i, k, j | 0 <= i <= k <= j < |t.order| ensures BlockOk(t, i, k, j) {
      if Siblings(s.S(x), r) {
        AliasBlocks(s, x, y, r, i, k, j);
      } else {
        ChildBlocks(s, x, y, r, i, k, j);
      }
    }
  }

  lemma CopyKeeps(s: Forest, destination: SlotId, source: SlotId)
    requires WellFormed(s)
    ensures WellFormed(CopySlot(s, destination, source).0)
  {
    if s.S(destination).what.None? {
      if s.S(source).what.None? {
        ClearKeeps(s, destination);
      } else {
        assert source in s.order;
        InsertKeeps(s, source, destination, s.S(source).(reclaiming := false));
      }
    }
  }

  lemma ChildKeeps(s: Forest, parent: SlotId, y: SlotId, o: Object)
    requires WellFormed(s) && s.S(parent).what.Some? && s.S(parent).what.value.Leaf?
    requires s.S(y).what.None? && forall x: SlotId :: s.S(x).what != Some(o)
    ensures WellFormed(InsertChild(s, parent, y, o))
  {
    assert parent in s.order;
    var last := LastAlias(s, parent, IndexOf(s.order, parent));
    var r := Slot(Some(o), s.S(parent).depth + 1, s.S(parent).chain, false);
    NewChildFits(s, parent, o);
    InsertKeeps(s, last, y, r);
    assert InsertChild(s, parent, y, o) == InsertAfter(s, last, y, r);
  }

  lemma NewChildFits(s: Forest, parent: SlotId, o: Object)
    requires Distinct(s.order) && parent in s.order && s.S(parent).what.Some? && s.S(parent).what.value.Leaf?
    requires forall x: SlotId :: s.S(x).what != Some(o)
    ensures var last := LastAlias(s, parent, IndexOf(s.order, parent));
      && last in s.order
      && FitsAfter(s, IndexOf(s.order, last) + 1, Slot(Some(o), s.S(parent).depth + 1, s.S(parent).chain, false))
  {
    LastAliasIs(s, parent, IndexOf(s.order, parent));
    GroupEnds(s, parent, IndexOf(s.order, parent));
    FitsBehind(s, parent, LastAlias(s, parent, IndexOf(s.order, parent)), o);
  }

  lemma FitsBehind(s: Forest, parent: SlotId, last: SlotId, o: Object)
    requires last in s.order && s.S(parent).what.Some? && s.S(parent).what.value.Leaf?
    requires s.S(last).depth == s.S(parent).depth && s.S(last).chain == s.S(parent).chain && s.S(last).what == s.S(parent).what
    requires var n := IndexOf(s.order, last) + 1;
      n < |s.order| && s.S(s.order[n]).chain == s.S(last).chain ==> !Siblings(s.S(last), s.S(s.order[n]))
    requires forall x: SlotId :: s.S(x).what != Some(o)
    ensures FitsAfter(s, IndexOf(s.order, last) + 1, Slot(Some(o), s.S(parent).depth + 1, s.S(parent).chain, false))
  {
    var r := Slot(Some(o), s.S(parent).depth + 1, s.S(parent).chain, false);
    forall x: SlotId ensures !SameObject(r, s.S(x)) { assert s.S(x).what != Some(o); }
  }

  /** What follows the last alias is not an alias. */
  lemma {:induction false} GroupEnds(s: Forest, x: SlotId, i: nat)
    requires Distinct(s.order) && i < |s.order| && s.order[i] == x
    ensures var y := LastAlias(s, x, i); var n := IndexOf(s.order, y) + 1;
      && y in s.order
      && (n < |s.order| && s.S(s.order[n]).chain == s.S(y).chain ==> !Siblings(s.S(y), s.S(s.order[n])))
    decreases |s.order| - i
  {
    if i + 1 < |s.order| && s.S(s.order[i + 1]).chain == s.S(x).chain && Siblings(s.S(x), s.S(s.order[i + 1])) {
      GroupEnds(s, s.order[i + 1], i + 1);
    } else {
      assert IndexOf(s.order, x) == i;
    }
  }

  lemma MoveKeeps(s: Forest, destination: SlotId, source: SlotId)
    requires WellFormed(s)
    ensures WellFormed(MoveSlot(s, destination, source).0)
  {
    if s.S(destination).what.None? {
      if s.S(source).what.None? {
        ClearKeeps(s, destination);
      } else {
        assert source in s.order && destination !in s.order;
        MoveListed(s, destination, source);
        MoveLinks(s, destination, source);
      }
    }
  }

  lemma MoveListed(s: Forest, destination: SlotId, source: SlotId)
    requires Listed(s) && source in s.order && destination !in s.order
    ensures Listed(MoveSlot(s, destination, source).0)
  {
    var t := MoveSlot(s, destination, source).0;
    var n := IndexOf(s.order, source);
    assert t.order == s.order[n := destination];
    forall z: SlotId ensures z in t.order <==> t.S(z).what.Some? {
      if z == destination { assert t.order[n] == z; }
      if z != source && z in s.order { assert t.order[IndexOf(s.order, z)] == z; }
    }
  }

  lemma MoveLinks(s: Forest, destination: SlotId, source: SlotId)
    requires Listed(s) && Steps(s) && Blocks(s) && source in s.order && destination !in s.order
    ensures Steps(MoveSlot(s, destination, source).0) && Blocks(MoveSlot(s, destination, source).0)
  {
    var t := MoveSlot(s, destination, source).0;
    var n := IndexOf(s.order, source);
    assert t.order == s.order[n := destination];
    forall i | 0 <= i < |t.order| ensures Alike(t.S(t.order[i]), s.S(s.order[i])) {
      assert i != n ==> s.order[i] != source && s.order[i] in s.order;
    }
    forall i | 0 <= i < |t.order| - 1 ensures StepOk(t, i) {
      assert StepOk(s, i) && Alike(t.S(t.order[i]), s.S(s.order[i])) && Alike(t.S(t.order[i + 1]), s.S(s.order[i + 1]));
    }
    forall i, k, j | 0 <= i <= k <= j < |t.order| ensures BlockOk(t, i, k, j) {
      assert BlockOk(s, i, k, j) && Alike(t.S(t.order[i]), s.S(s.order[i]));
      assert Alike(t.S(t.order[k]), s.S(s.order[k])) && Alike(t.S(t.order[j]), s.S(s.order[j]));
    }
  }

  ghost predicate Alike(a: Slot, b: Slot) {
    a.what == b.what && a.depth == b.depth && a.chain == b.chain
  }

  // ---------------------------------------------------------------- roots

  /** A number above the labels of the chains of the first `i` slots. */
  function ChainBound(s: Forest, i: nat): (n: nat)
    requires i <= |s.order|
    ensures forall j :: 0 <= j < i ==> s.S(s.order[j]).chain < n
  {
    if i == 0 then 0
    else
      var n := ChainBound(s, i - 1);
      if s.S(s.order[i - 1]).chain < n then n else s.S(s.order[i - 1]).chain + 1
  }

  /** A slot is configured with a new object: depth zero, no neighbours, a chain of its own. */
  function CreateRoot(s: Forest, y: SlotId, o: Object): Forest {
    s.Set(y, Slot(Some(o), 0, ChainBound(s, |s.order|), false)).(order := s.order + [y])
  }

  ghost predicate Unnamed(s: Forest, o: Object) {
    forall x: SlotId :: s.S(x).what != Some(o)
  }

  lemma RootAt(s: Forest, y: SlotId, o: Object, i: int)
    requires Listed(s) && s.S(y).what.None? && 0 <= i <= |s.order|
    ensures var t := CreateRoot(s, y, o);
      if i < |s.order| then t.order[i] == s.order[i] && t.S(t.order[i]) == s.S(s.order[i])
      else t.order[i] == y && t.S(t.order[i]).what == Some(o) && t.S(t.order[i]).chain == ChainBound(s, |s.order|)
  {
    if i < |s.order| { assert s.order[i] in s.order; }
  }

  lemma RootKeeps(s: Forest, y: SlotId, o: Object)
    requires WellFormed(s) && s.S(y).what.None? && Unnamed(s, o)
    ensures WellFormed(CreateRoot(s, y, o))
  {
    var t := CreateRoot(s, y, o);
    RootListed(s, y, o);
    forall i | 0 <= i < |t.order| - 1 ensures StepOk(t, i) {
      RootAt(s, y, o, i);
      RootAt(s, y, o, i + 1);
      assert i < |s.order| - 1 ==> StepOk(s, i);
    }
    forall i, k, j | 0 <= i <= k <= j < |t.order| ensures BlockOk(t, i, k, j) {
      RootAt(s, y, o, i);
      RootAt(s, y, o, k);
      RootAt(s, y, o, j);
      assert j < |s.order| ==> BlockOk(s, i, k, j);
    }
  }

  lemma RootListed(s: Forest, y: SlotId, o: Object)
    requires Listed(s) && s.S(y).what.None?
    ensures Listed(CreateRoot(s, y, o))
  {
    var t := CreateRoot(s, y, o);
    assert y !in s.order;
    forall z: SlotId ensures z in t.order <==> t.S(z).what.Some? {
      assert z in s.order <==> s.S(z).what.Some?;
    }
  }

  // ---------------------------------------------------------------- runs

  /** What capability invocations do to slots. */
  datatype SlotAction =
    | Root(y: SlotId, o: Object)
    | Child(parent: SlotId, y: SlotId, o: Object)
    | Copy(destination: SlotId, source: SlotId)
    | Move(destination: SlotId, source: SlotId)
    | Remove(x: SlotId)
    | Revoke(x: SlotId)

  /** Objects are made into empty slots and are new; children are made by objects that can have them. */
  ghost predicate Makes(s: Forest, a: SlotAction) {
    match a
    case Root(y, o) => s.S(y).what.None? && Unnamed(s, o)
    case Child(parent, y, o) =>
      s.S(parent).what.Some? && s.S(parent).what.value.Leaf? && s.S(y).what.None? && Unnamed(s, o)
    case _ => true
  }

  function Act(s: Forest, a: SlotAction): Forest {
    match a
    case Root(y, o) => CreateRoot(s, y, o)
    case Child(parent, y, o) => InsertChild(s, parent, y, o)
    case Copy(destination, source) => CopySlot(s, destination, source).0
    case Move(destination, source) => MoveSlot(s, destination, source).0
    case Remove(x) => RemoveSlot(s, x).0
    case Revoke(x) => RevokeSlot(s, x).0
  }

  /** Between invocations nothing is being revoked. */
  ghost predicate Settled(s: Forest) {
    s.active == {} && forall x: SlotId :: !s.S(x).reclaiming
  }

  lemma ActKeeps(s: Forest, a: SlotAction)
    requires WellFormed(s) && Settled(s) && Makes(s, a)
    ensures WellFormed(Act(s, a)) && Settled(Act(s, a))
  {
    ActSettled(s, a);
    match a
    case Root(y, o) => RootKeeps(s, y, o);
    case Child(parent, y, o) =>
      ChildKeeps(s, parent, y, o);
    case Copy(destination, source) => CopyKeeps(s, destination, source);
    case Move(destination, source) => MoveKeeps(s, destination, source);
    case Remove(x) => RemoveSound(s, x);
    case Revoke(x) => RevokeSound(s, x);
  }

  lemma ActSettled(s: Forest, a: SlotAction)
    requires Settled(s)
    ensures Settled(Act(s, a))
  {
    match a
    case Child(parent, y, o) => ChildSettled(s, parent, y, o);
    case Remove(x) => ShrinkSettled(s, RemoveSlot(s, x).0);
    case Revoke(x) => ShrinkSettled(s, RevokeSlot(s, x).0);
    case _ =>
      var t := Act(s, a);
      forall x: SlotId ensures !t.S(x).reclaiming { assert !s.S(x).reclaiming; }
  }

  lemma ChildSettled(s: Forest, parent: SlotId, y: SlotId, o: Object)
    requires Settled(s)
    ensures Settled(InsertChild(s, parent, y, o))
  {
    var t := InsertChild(s, parent, y, o);
    assert t.slots == s.slots[y := Slot(Some(o), s.S(parent).depth + 1, s.S(parent).chain, false)];
    forall x: SlotId ensures !t.S(x).reclaiming { assert !s.S(x).reclaiming; }
  }

  lemma ShrinkSettled(s: Forest, t: Forest)
    requires Settled(s) && Shrinks(s, t)
    ensures Settled(t)
  {
    forall x: SlotId ensures !t.S(x).reclaiming { assert t.S(x) == s.S(x) || t.S(x) == EMPTY; }
  }

  function ActAll(s: Forest, run: seq<SlotAction>): Forest {
    if run == [] then s else Act(ActAll(s, run[..|run| - 1]), run[|run| - 1])
  }

  /** No slots, with the given Nodes and failing objects to be. */
  function NoSlots(inside: map<Object, seq<SlotId>>, failing: set<Object>): Forest {
    Forest(seq(SLOTS, i => EMPTY), [], inside, {}, failing, [], false, map[], false)
  }

  /**
   Starting with no slots, after every run of creating roots and children, copying, moving, removing
   and revoking, the forest is well formed, nothing has crashed, and for every slot in use its two
   neighbours tell exactly whether its object has another alias.
   */
  lemma {:induction false} RunsStayWellFormed(inside: map<Object, seq<SlotId>>, failing: set<Object>, run: seq<SlotAction>)
    requires forall i :: 0 <= i < |run| ==> Makes(ActAll(NoSlots(inside, failing), run[..i]), run[i])
    ensures var t := ActAll(NoSlots(inside, failing), run);
      && WellFormed(t) && Settled(t) && !t.crashed
      && forall x: SlotId :: t.S(x).what.Some? ==>
           (HasSibling(t, x) <==> exists y: SlotId :: y != x && SameObject(t.S(x), t.S(y)))
    decreases |run|
  {
    var s := NoSlots(inside, failing);
    if run != [] {
      var n := |run| - 1;
      var before := run[..n];
      assert forall i :: 0 <= i < n ==> before[..i] == run[..i];
      RunsStayWellFormed(inside, failing, before);
      assert Makes(ActAll(s, run[..n]), run[n]);
      ActKeeps(ActAll(s, before), run[n]);
      NoCrash(ActAll(s, before), run[n]);
    }
    var t := ActAll(s, run);
    forall x: SlotId | t.S(x).what.Some?
      ensures HasSibling(t, x) <==> exists y: SlotId :: y != x && SameObject(t.S(x), t.S(y))
    {
      HasSiblingIff(t, x);
    }
  }

  lemma NoCrash(s: Forest, a: SlotAction)
    requires WellFormed(s) && Settled(s) && !s.crashed
    ensures !Act(s, a).crashed
  {
    match a
    case Remove(x) => RemoveSound(s, x);
    case Revoke(x) => RevokeSound(s, x);
    case _ =>
  }
}
