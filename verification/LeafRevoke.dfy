/** Revoking a slot whose descendants contain no further slots: the exact result and the order of teardown. */
module LeafRevoke {
  import opened Common
  import opened Reclamation
  import opened ReclamationSafety
  import opened DerivationChain

  // ---------------------------------------------------------------- order of teardown

  /** `a` occurs in the log somewhere before `b`. */
  ghost predicate Precedes(log: seq<Object>, a: Object, b: Object) {
    exists u, v :: 0 <= u < v < |log| && log[u] == a && log[v] == b
  }

  /** In a stretch of a chain, position `j` belongs to the descendants of the alias group of position `i`. */
  ghost predicate Under(r: seq<Slot>, i: int, j: int)
    requires 0 <= i < j < |r|
  {
    r[j].depth > r[i].depth && forall k :: i < k <= j ==> r[k].depth > r[i].depth || SameObject(r[i], r[k])
  }

  /** The log lists each object of the stretch once, every descendant before its parent. */
  ghost predicate TornDown(r: seq<Slot>, log: seq<Object>) {
    && Distinct(log)
    && (forall o :: o in log ==> exists k :: 0 <= k < |r| && r[k].what == Some(o))
    && (forall k :: 0 <= k < |r| && r[k].what.Some? ==> r[k].what.value in log)
    && (forall i, j {:trigger Under(r, i, j)} :: 0 <= i < j < |r| && r[i].what.Some? && r[j].what.Some? && Under(r, i, j) ==>
          Precedes(log, r[j].what.value, r[i].what.value))
  }

  lemma PrecedesIn(a: seq<Object>, log: seq<Object>, p: Object, q: Object)
    requires Precedes(log, p, q)
    ensures Precedes(a + log, p, q) && Precedes(log + a, p, q)
  {
    var u, v :| 0 <= u < v < |log| && log[u] == p && log[v] == q;
    assert (a + log)[|a| + u] == p && (a + log)[|a| + v] == q;
    assert (log + a)[u] == p && (log + a)[v] == q;
  }

  /** An alias that only unlinks: the rest of its group still stands for the object. */
  lemma TornDownAlias(y: Slot, r: seq<Slot>, log: seq<Object>)
    requires r != [] && Siblings(y, r[0]) && TornDown(r, log)
    ensures TornDown([y] + r, log)
  {
    var all := [y] + r;
    assert all[1..] == r && r[0].what == y.what;
    forall o | o in log ensures exists k :: 0 <= k < |all| && all[k].what == Some(o) {
      var k :| 0 <= k < |r| && r[k].what == Some(o);
      assert all[k + 1].what == Some(o);
    }
    forall i, j | 0 <= i < j < |all| && all[i].what.Some? && all[j].what.Some? && Under(all, i, j)
      ensures Precedes(log, all[j].what.value, all[i].what.value)
    {
      var i' := if i == 0 then 0 else i - 1;
      assert j > 1;
      forall k | i' < k <= j - 1 ensures r[k].depth > r[i'].depth || SameObject(r[i'], r[k]) {
        assert all[k + 1] == r[k];
      }
      assert Under(r, i', j - 1);
    }
  }

  /** An object, its descendants and what follows them. */
  ghost predicate Tree(y: Slot, below: seq<Slot>, after: seq<Slot>) {
    && y.what.Some?
    && (forall k :: 0 <= k < |below| ==> below[k].depth > y.depth && !SameObject(y, below[k]))
    && (forall k :: 0 <= k < |after| ==> !SameObject(y, after[k]))
    && (after != [] ==> after[0].depth <= y.depth)
    && (forall k, m :: 0 <= k < |below| && 0 <= m < |after| ==> !SameObject(below[k], after[m]))
  }

  lemma TornDownTree(y: Slot, below: seq<Slot>, after: seq<Slot>, b: seq<Object>, a: seq<Object>)
    requires Tree(y, below, after) && TornDown(below, b) && TornDown(after, a)
    ensures TornDown([y] + below + after, b + [y.what.value] + a)
  {
    var all := [y] + below + after;
    var log := b + [y.what.value] + a;
    var n := 1 + |below|;
    assert forall k :: 0 <= k < |below| ==> all[1 + k] == below[k];
    assert forall k :: 0 <= k < |after| ==> all[n + k] == after[k];
    TreeDistinct(y, below, after, b, a);
    forall o | o in log ensures exists k :: 0 <= k < |all| && all[k].what == Some(o) {
      if o in b {
        var k :| 0 <= k < |below| && below[k].what == Some(o);
        assert all[1 + k].what == Some(o);
      } else if o in a {
        var k :| 0 <= k < |after| && after[k].what == Some(o);
        assert all[n + k].what == Some(o);
      } else {
        assert all[0].what == Some(o);
      }
    }
    forall i, j | 0 <= i < j < |all| && all[i].what.Some? && all[j].what.Some? && Under(all, i, j)
      ensures Precedes(log, all[j].what.value, all[i].what.value)
    {
      TreePrecedes(y, below, after, b, a, i, j);
    }
  }

  lemma TreeDistinct(y: Slot, below: seq<Slot>, after: seq<Slot>, b: seq<Object>, a: seq<Object>)
    requires Tree(y, below, after) && TornDown(below, b) && TornDown(after, a)
    ensures Distinct(b + [y.what.value] + a)
  {
    forall o | o in b ensures o != y.what.value && o !in a {
      var k :| 0 <= k < |below| && below[k].what == Some(o);
      if o in a {
        var m :| 0 <= m < |after| && after[m].what == Some(o);
        assert SameObject(below[k], after[m]);
      }
    }
    forall o | o in a ensures o != y.what.value {
      var m :| 0 <= m < |after| && after[m].what == Some(o);
      assert !SameObject(y, after[m]);
    }
    var log := b + [y.what.value] + a;
    forall i, j | 0 <= i < j < |log| ensures log[i] != log[j] {
      if j < |b| {
        assert log[i] == b[i] && log[j] == b[j];
      } else if i > |b| {
        assert log[i] == a[i - |b| - 1] && log[j] == a[j - |b| - 1];
      } else {
        assert i < |b| ==> log[i] in b;
        assert j > |b| ==> log[j] in a;
      }
    }
  }

  lemma NotAcross(y: Slot, below: seq<Slot>, after: seq<Slot>, i: int, j: int)
    requires Tree(y, below, after) && 0 <= i < 1 + |below| <= j < 1 + |below| + |after|
    ensures !Under([y] + below + after, i, j)
  {
    var all := [y] + below + after;
    assert all[1 + |below|] == after[0];
    assert all[i] == if i == 0 then y else below[i - 1];
  }

  /** Being under a position is a matter of the stretch between the two. */
  lemma UnderWithin(r: seq<Slot>, part: seq<Slot>, off: nat, i: int, j: int)
    requires 0 <= i < j < |part| && off + |part| <= |r| && r[off..off + |part|] == part
    ensures Under(r, off + i, off + j) == Under(part, i, j)
  {
    assert forall k :: 0 <= k < |part| ==> r[off + k] == part[k];
    if Under(r, off + i, off + j) {
      forall k | i < k <= j ensures part[k].depth > part[i].depth || SameObject(part[i], part[k]) {
        assert r[off + k] == part[k];
      }
    }
  }

  /** A pair inside one part of a stretch is torn down in the order of that part. */
  lemma PartPrecedes(r: seq<Slot>, part: seq<Slot>, off: nat, i: int, j: int, log: seq<Object>)
    requires 0 <= i < j < |part| && off + |part| <= |r| && r[off..off + |part|] == part && TornDown(part, log)
    requires part[i].what.Some? && part[j].what.Some? && Under(r, off + i, off + j)
    ensures Precedes(log, part[j].what.value, part[i].what.value)
  {
    UnderWithin(r, part, off, i, j);
  }

  lemma TreePrecedes(y: Slot, below: seq<Slot>, after: seq<Slot>, b: seq<Object>, a: seq<Object>, i: int, j: int)
    requires Tree(y, below, after) && TornDown(below, b) && TornDown(after, a)
    requires 0 <= i < j < 1 + |below| + |after|
    requires var all := [y] + below + after; all[i].what.Some? && all[j].what.Some? && Under(all, i, j)
    ensures var all := [y] + below + after;
      Precedes(b + [y.what.value] + a, all[j].what.value, all[i].what.value)
  {
    var n := 1 + |below|;
    if i < n <= j {
      NotAcross(y, below, after, i, j);
    }
    if i == 0 {
      assert below[j - 1].what.value in b;
      TopIsLast(b, y.what.value, a, below[j - 1].what.value);
    } else if j < n {
      BelowPrecedes(y, below, after, b, a, i, j);
    } else {
      AfterPrecedes(y, below, after, b, a, i, j);
    }
  }

  lemma BelowPrecedes(y: Slot, below: seq<Slot>, after: seq<Slot>, b: seq<Object>, a: seq<Object>, i: int, j: int)
    requires TornDown(below, b) && 0 < i < j <= |below| && y.what.Some?
    requires below[i - 1].what.Some? && below[j - 1].what.Some? && Under([y] + below + after, i, j)
    ensures Precedes(b + [y.what.value] + a, below[j - 1].what.value, below[i - 1].what.value)
  {
    var all := [y] + below + after;
    assert all[1..1 + |below|] == below;
    PartPrecedes(all, below, 1, i - 1, j - 1, b);
    PrecedesIn([y.what.value], b, below[j - 1].what.value, below[i - 1].what.value);
    PrecedesIn(a, b + [y.what.value], below[j - 1].what.value, below[i - 1].what.value);
  }

  lemma AfterPrecedes(y: Slot, below: seq<Slot>, after: seq<Slot>, b: seq<Object>, a: seq<Object>, i: int, j: int)
    requires var n := 1 + |below|; TornDown(after, a) && n <= i < j < n + |after| && y.what.Some?
    requires var n := 1 + |below|; after[i - n].what.Some? && after[j - n].what.Some? && Under([y] + below + after, i, j)
    ensures var n := 1 + |below|; Precedes(b + [y.what.value] + a, after[j - n].what.value, after[i - n].what.value)
  {
    var n := 1 + |below|;
    var all := [y] + below + after;
    assert all[n..n + |after|] == after;
    PartPrecedes(all, after, n, i - n, j - n, a);
    PrecedesIn(b + [y.what.value], a, after[j - n].what.value, after[i - n].what.value);
  }

  lemma TopIsLast(b: seq<Object>, o: Object, a: seq<Object>, p: Object)
    requires p in b
    ensures Precedes(b + [o] + a, p, o)
  {
    var u :| 0 <= u < |b| && b[u] == p;
    assert (b + [o] + a)[u] == p && (b + [o] + a)[|b|] == o;
  }

  // ---------------------------------------------------------------- stretches of the forest

  ghost predicate Deeper(s: Forest, c: nat, d: nat, i: int)
    requires 0 <= i < |s.order|
  {
    s.S(s.order[i]).chain == c && s.S(s.order[i]).depth > d
  }

  /** The first position from `i` on that is outside chain `c` or not deeper than `d`. */
  ghost function SubtreeEnd(s: Forest, c: nat, d: nat, i: nat): (e: nat)
    requires i <= |s.order|
    ensures i <= e <= |s.order|
    ensures forall k :: i <= k < e ==> Deeper(s, c, d, k)
    ensures e < |s.order| ==> !Deeper(s, c, d, e)
    decreases |s.order| - i
  {
    if i < |s.order| && Deeper(s, c, d, i) then SubtreeEnd(s, c, d, i + 1) else i
  }

  ghost function EndFrom(s: Forest, l: nat): nat
    requires l < |s.order|
  {
    SubtreeEnd(s, s.S(s.order[l]).chain, s.S(s.order[l]).depth, l + 1)
  }

  ghost function Records(s: Forest, lo: nat, hi: nat): seq<Slot>
    requires lo <= hi <= |s.order|
  {
    seq(hi - lo, i requires 0 <= i < hi - lo => s.S(s.order[lo + i]))
  }

  /** A leaf whose own cleanup succeeds and that nobody is revoking. */
  ghost predicate Quiet(s: Forest, i: int)
    requires 0 <= i < |s.order|
  {
    var r := s.S(s.order[i]);
    r.what.Some? && r.what.value.Leaf? && r.what.value !in s.failing && !r.reclaiming
  }

  ghost predicate QuietStretch(s: Forest, lo: int, hi: int)
    requires 0 <= lo <= hi <= |s.order|
  {
    forall k :: lo <= k < hi ==> Quiet(s, k)
  }

  /** `t` is `s` with the stretch from `lo` to `hi` gone. */
  ghost predicate Cut(s: Forest, t: Forest, lo: nat, hi: nat)
    requires lo <= hi <= |s.order|
  {
    && t.order == s.order[..lo] + s.order[hi..]
    && (forall z: SlotId :: t.S(z) == if z in s.order[lo..hi] then EMPTY else s.S(z))
    && t.inside == s.inside && t.failing == s.failing && t.active == s.active && t.crashed == s.crashed
    && t.refused == s.refused
  }

  lemma ClearCuts(s: Forest, j: nat)
    requires Listed(s) && j < |s.order|
    ensures Cut(s, Clear(s, s.order[j]), j, j + 1)
  {
    assert IndexOf(s.order, s.order[j]) == j;
    assert s.order[j..j + 1] == [s.order[j]];
  }

  /** What is left and right of a gap, and what follows it. */
  lemma DropTwice<T>(a: seq<T>, lo: nat, mid: nat, hi: nat)
    requires lo <= mid <= hi <= |a|
    ensures var b := a[..lo] + a[mid..]; var next := lo + (hi - mid);
      && next <= |b| && b[..lo] == a[..lo] && b[lo..next] == a[mid..hi] && b[next..] == a[hi..]
  {
    var b := a[..lo] + a[mid..];
    var next := lo + (hi - mid);
    assert |b| == lo + (|a| - mid);
    assert forall k :: lo <= k < |b| ==> b[k] == a[k - lo + mid];
    var tail := b[next..];
    assert |tail| == |a| - hi;
    assert forall k :: 0 <= k < |tail| ==> tail[k] == a[hi..][k];
  }

  lemma CutTwice(s: Forest, t: Forest, u: Forest, lo: nat, mid: nat, hi: nat)
    requires Listed(s) && lo <= mid <= hi <= |s.order| && Cut(s, t, lo, mid)
    requires lo + (hi - mid) <= |t.order| && Cut(t, u, lo, lo + (hi - mid))
    ensures Cut(s, u, lo, hi)
  {
    DropTwice(s.order, lo, mid, hi);
    assert s.order[lo..hi] == s.order[lo..mid] + s.order[mid..hi];
    forall z: SlotId ensures u.S(z) == if z in s.order[lo..hi] then EMPTY else s.S(z) {
      assert t.S(z) == if z in s.order[lo..mid] then EMPTY else s.S(z);
    }
  }

  /** What comes after a cut is as it was. */
  lemma CutKeepsRest(s: Forest, t: Forest, lo: nat, hi: nat, k: int)
    requires Listed(s) && lo <= hi <= |s.order| && Cut(s, t, lo, hi) && 0 <= k < |s.order| && !(lo <= k < hi)
    ensures var k' := if k < lo then k else k - (hi - lo);
      0 <= k' < |t.order| && t.order[k'] == s.order[k] && t.S(t.order[k']) == s.S(s.order[k])
  {
    forall m | lo <= m < hi ensures s.order[m] != s.order[k] {}
    assert s.order[k] !in s.order[lo..hi];
  }

  /** The first outside position is determined by what it separates. */
  lemma {:induction false} EndIs(s: Forest, c: nat, d: nat, i: nat, e: nat)
    requires i <= e <= |s.order|
    requires forall k :: i <= k < e ==> Deeper(s, c, d, k)
    requires e < |s.order| ==> !Deeper(s, c, d, e)
    ensures SubtreeEnd(s, c, d, i) == e
    decreases e - i
  {
    if i < e { EndIs(s, c, d, i + 1, e); }
  }

  // ---------------------------------------------------------------- the exact effect

  lemma PinEnd(s: Forest, x: SlotId, l: nat)
    requires l < |s.order| && x !in s.order[l + 1..]
    ensures EndFrom(Pin(s, x), l) == EndFrom(s, l)
    ensures Records(Pin(s, x), l + 1, EndFrom(s, l)) == Records(s, l + 1, EndFrom(s, l))
  {
    var e := EndFrom(s, l);
    var p := Pin(s, x);
    var c := s.S(s.order[l]).chain;
    var d := s.S(s.order[l]).depth;
    forall k | l < k < e ensures Deeper(p, c, d, k) { assert Deeper(s, c, d, k); }
    assert e < |s.order| ==> !Deeper(p, c, d, e);
    EndIs(p, c, d, l + 1, e);
    var a, b := Records(p, l + 1, e), Records(s, l + 1, e);
    forall k | 0 <= k < |a| ensures a[k] == b[k] {
      var z := s.order[l + 1 + k];
      assert s.order[l + 1..][k] == z != x;
      assert p.S(z) == s.S(z);
    }
  }

  /** Only the alias at `j` is gone, or its whole subtree with the object itself last. */
  ghost predicate PartTornDown(s: Forest, j: nat, stop: nat, log: seq<Object>) {
    && j < stop <= |s.order| && s.S(s.order[j]).what.Some?
    && if HasSibling(s, s.order[j]) then stop == j + 1 && log == []
       else
         && stop == EndFrom(s, j) && log != [] && log[|log| - 1] == s.S(s.order[j]).what.value
         && TornDown(Records(s, j + 1, stop), log[..|log| - 1])
  }

  /** Exactly the descendants go, each object once and after its own descendants. */
  lemma {:induction false} DescendantsExact(s: Forest, x: SlotId, l: nat) returns (log: seq<Object>)
    requires WellFormed(s) && Pinned(s) && l < |s.order| && s.S(x).depth == s.S(s.order[l]).depth
    requires x !in s.order[l + 1..] && QuietStretch(s, l + 1, EndFrom(s, l))
    ensures var (t, done) := RemoveDescendants(s, x, s.order[l]);
      && done == Done && Cut(s, t, l + 1, EndFrom(s, l)) && t.log == s.log + log
      && TornDown(Records(s, l + 1, EndFrom(s, l)), log)
    decreases EndFrom(s, l) - l, 1
  {
    if l + 1 == EndFrom(s, l) {
      log := [];
      NothingBelow(s, x, l);
    } else {
      InnerEnd(s, l);
      var stop, first := RemoveExact(s, l + 1);
      var s1 := RemoveSlot(s, s.order[l + 1]).0;
      RestEnd(s, s1, x, l, stop);
      RemoveSound(s, s.order[l + 1]);
      ShrinkPinned(s, s1);
      var rest := DescendantsExact(s1, x, l);
      log := first + rest;
      OneBelow(s, x, l);
      JoinCuts(s, s1, RemoveDescendants(s1, x, s.order[l]).0, l, stop, first, rest);
      JoinLogs(s, s1, l, stop, first, rest);
    }
  }

  lemma JoinCuts(s: Forest, s1: Forest, t: Forest, l: nat, stop: nat, first: seq<Object>, rest: seq<Object>)
    requires Listed(s) && l < |s.order| && l + 1 < stop <= EndFrom(s, l)
    requires Cut(s, s1, l + 1, stop) && s1.log == s.log + first
    requires l < |s1.order| && EndFrom(s1, l) == l + 1 + (EndFrom(s, l) - stop)
    requires Cut(s1, t, l + 1, EndFrom(s1, l)) && t.log == s1.log + rest
    ensures Cut(s, t, l + 1, EndFrom(s, l)) && t.log == s.log + (first + rest)
  {
    CutTwice(s, s1, t, l + 1, stop, EndFrom(s, l));
    assert s.log + first + rest == s.log + (first + rest);
  }

  /** Tearing down the first descendant's part and then the rest tears it all down in order. */
  lemma JoinLogs(s: Forest, s1: Forest, l: nat, stop: nat, first: seq<Object>, rest: seq<Object>)
    requires WellFormed(s) && l < |s.order| && l + 1 < EndFrom(s, l) && l + 1 < stop <= EndFrom(s, l)
    requires Cut(s, s1, l + 1, stop) && PartTornDown(s, l + 1, stop, first)
    requires l < |s1.order| && EndFrom(s1, l) == l + 1 + (EndFrom(s, l) - stop)
    requires TornDown(Records(s1, l + 1, EndFrom(s1, l)), rest)
    ensures TornDown(Records(s, l + 1, EndFrom(s, l)), first + rest)
  {
    var e := EndFrom(s, l);
    RestRecords(s, s1, l + 1, stop, e);
    assert Records(s1, l + 1, EndFrom(s1, l)) == Records(s, stop, e);
    Assemble(s, l, stop, first, rest);
  }

  lemma NothingBelow(s: Forest, x: SlotId, l: nat)
    requires WellFormed(s) && l < |s.order| && s.S(x).depth == s.S(s.order[l]).depth && l + 1 == EndFrom(s, l)
    ensures RemoveDescendants(s, x, s.order[l]) == (s, Done) && Cut(s, s, l + 1, l + 1) && s.log == s.log + []
    ensures TornDown(Records(s, l + 1, l + 1), [])
  {
    assert IndexOf(s.order, s.order[l]) == l;
    assert s.order[l + 1..l + 1] == [] && s.order[..l + 1] + s.order[l + 1..] == s.order;
  }

  lemma OneBelow(s: Forest, x: SlotId, l: nat)
    requires Listed(s) && l < |s.order| && s.S(x).depth == s.S(s.order[l]).depth && l + 1 < EndFrom(s, l)
    requires RemoveSlot(s, s.order[l + 1]).1 == Done
    ensures RemoveDescendants(s, x, s.order[l]) == RemoveDescendants(RemoveSlot(s, s.order[l + 1]).0, x, s.order[l])
  {
    assert IndexOf(s.order, s.order[l]) == l;
    assert Deeper(s, s.S(s.order[l]).chain, s.S(s.order[l]).depth, l + 1);
    assert NextOf(s, s.order[l]) == Some(s.order[l + 1]);
  }

  lemma {:induction false} EndWithin(s: Forest, c: nat, d: nat, i: nat, e: nat)
    requires i <= e <= |s.order| && (e < |s.order| ==> !Deeper(s, c, d, e))
    ensures SubtreeEnd(s, c, d, i) <= e
    decreases e - i
  {
    if i < e { EndWithin(s, c, d, i + 1, e); }
  }

  lemma InnerEnd(s: Forest, l: nat)
    requires l < |s.order| && l + 1 < EndFrom(s, l) && QuietStretch(s, l + 1, EndFrom(s, l))
    ensures l + 2 <= EndFrom(s, l + 1) <= EndFrom(s, l) && QuietStretch(s, l + 2, EndFrom(s, l + 1))
  {
    var c := s.S(s.order[l]).chain;
    var d := s.S(s.order[l]).depth;
    var e := EndFrom(s, l);
    assert Deeper(s, c, d, l + 1);
    EndWithin(s, s.S(s.order[l + 1]).chain, s.S(s.order[l + 1]).depth, l + 2, e);
  }

  lemma RestEnd(s: Forest, t: Forest, x: SlotId, l: nat, stop: nat)
    requires Listed(s) && l < |s.order| && l + 1 <= stop <= EndFrom(s, l) && x !in s.order[l + 1..]
    requires Cut(s, t, l + 1, stop) && QuietStretch(s, l + 1, EndFrom(s, l))
    ensures l < |t.order| && t.order[l] == s.order[l] && t.S(t.order[l]) == s.S(s.order[l])
    ensures EndFrom(t, l) == l + 1 + (EndFrom(s, l) - stop) && QuietStretch(t, l + 1, EndFrom(t, l))
    ensures t.S(x) == s.S(x) && x !in t.order[l + 1..]
  {
    var e := EndFrom(s, l);
    var c := s.S(s.order[l]).chain;
    var d := s.S(s.order[l]).depth;
    CutKeepsRest(s, t, l + 1, stop, l);
    var f := l + 1 + (e - stop);
    assert |t.order| == |s.order| - (stop - l - 1);
    forall k | l + 1 <= k < f ensures Deeper(t, c, d, k) && Quiet(t, k) {
      CutKeepsRest(s, t, l + 1, stop, k + (stop - l - 1));
      assert Deeper(s, c, d, k + (stop - l - 1)) && Quiet(s, k + (stop - l - 1));
    }
    if f < |t.order| { CutKeepsRest(s, t, l + 1, stop, e); }
    EndIs(t, c, d, l + 1, f);
    assert x !in s.order[l + 1..stop];
    assert t.order[l + 1..] == s.order[stop..];
  }

  lemma RestRecords(s: Forest, t: Forest, lo: nat, stop: nat, e: nat)
    requires Listed(s) && lo <= stop <= e <= |s.order| && Cut(s, t, lo, stop)
    ensures lo + (e - stop) <= |t.order| && Records(t, lo, lo + (e - stop)) == Records(s, stop, e)
  {
    var a, b := Records(t, lo, lo + (e - stop)), Records(s, stop, e);
    forall k | 0 <= k < e - stop ensures a[k] == b[k] { CutKeepsRest(s, t, lo, stop, stop + k); }
  }

  /** Removing one quiet leaf: just its slot if an alias remains, else its whole subtree and the object. */
  lemma {:induction false} RemoveExact(s: Forest, j: nat) returns (stop: nat, log: seq<Object>)
    requires WellFormed(s) && Pinned(s) && j < |s.order| && Quiet(s, j) && QuietStretch(s, j + 1, EndFrom(s, j))
    ensures j < stop <= |s.order|
    ensures var (t, done) := RemoveSlot(s, s.order[j]);
      && done == Done && Cut(s, t, j, stop) && t.log == s.log + log
    ensures PartTornDown(s, j, stop, log)
    decreases EndFrom(s, j) - j, 3
  {
    var y := s.order[j];
    assert IndexOf(s.order, y) == j;
    if HasSibling(s, y) {
      stop, log := j + 1, [];
      ClearCuts(s, j);
      assert s.log + [] == s.log;
    } else {
      LoneAlias(s, y);
      var below := RevokeExact(s, y, j);
      stop, log := EndFrom(s, j), below + [s.S(y).what.value];
      var t := RevokeSlot(s, y).0;
      RevokeSound(s, y);
      CutKeepsRest(s, t, j + 1, stop, j);
      ClearCuts(t, j);
      CutBelow(s, t, Clear(t, y), j, stop);
      assert log[..|log| - 1] == below;
    }
  }

  lemma CutBelow(s: Forest, t: Forest, u: Forest, j: nat, stop: nat)
    requires Listed(s) && j < stop <= |s.order| && Cut(s, t, j + 1, stop)
    requires j < |t.order| && Cut(t, u, j, j + 1)
    ensures Cut(s, u, j, stop)
  {
    assert t.order[j..j + 1] == [s.order[j]];
    assert s.order[j..stop] == [s.order[j]] + s.order[j + 1..stop];
    assert t.order[..j] == s.order[..j];
    assert t.order[j + 1..] == s.order[stop..];
    forall z: SlotId ensures u.S(z) == if z in s.order[j..stop] then EMPTY else s.S(z) {
      assert t.S(z) == if z in s.order[j + 1..stop] then EMPTY else s.S(z);
    }
  }

  /** Revoking a quiet leaf whose alias group ends at position `l`. */
  lemma {:induction false} RevokeExact(s: Forest, x: SlotId, l: nat) returns (log: seq<Object>)
    requires WellFormed(s) && Pinned(s) && x in s.order && Quiet(s, IndexOf(s.order, x))
    requires IndexOf(s.order, x) <= l < |s.order|
    requires s.order[l] == LastAlias(Pin(s, x), x, IndexOf(s.order, x))
    requires QuietStretch(s, l + 1, EndFrom(s, l))
    ensures var (t, done) := RevokeSlot(s, x);
      && done == Done && Cut(s, t, l + 1, EndFrom(s, l)) && t.log == s.log + (log + [s.S(x).what.value])
    ensures TornDown(Records(s, l + 1, EndFrom(s, l)), log)
    decreases EndFrom(s, l) - l, 2
  {
    var s1 := Pin(s, x);
    var e := EndFrom(s, l);
    PinnedQuiet(s, x, l);
    PinPinned(s, x);
    log := DescendantsExact(s1, x, l);
    Wrap(s, x, l, e, log);
  }

  lemma PinPinned(s: Forest, x: SlotId)
    requires Pinned(s) && s.S(x).what.Some? && !s.S(x).what.value.Node?
    ensures Pinned(Pin(s, x))
  {
    forall z: SlotId ensures PinnedAt(Pin(s, x), z) { assert PinnedAt(s, z); }
  }

  /** What the descendants' teardown did, and the end of the revocation around it. */
  lemma Wrap(s: Forest, x: SlotId, l: nat, e: nat, log: seq<Object>)
    requires x in s.order && IndexOf(s.order, x) <= l < |s.order| && Quiet(s, IndexOf(s.order, x))
    requires WellFormed(Pin(s, x)) && e == EndFrom(Pin(s, x), l) == EndFrom(s, l)
    requires s.order[l] == LastAlias(Pin(s, x), x, IndexOf(s.order, x)) && x !in s.order[l + 1..]
    requires var (t, done) := RemoveDescendants(Pin(s, x), x, s.order[l]);
      done == Done && Cut(Pin(s, x), t, l + 1, e) && t.log == s.log + log
    ensures var (t, done) := RevokeSlot(s, x);
      && done == Done && Cut(s, t, l + 1, e) && t.log == s.log + (log + [s.S(x).what.value])
  {
    var s2 := RemoveDescendants(Pin(s, x), x, s.order[l]).0;
    NoChildLeft(Pin(s, x), s2, x, IndexOf(s.order, x), l);
    Finish(s, x, s2, l + 1, e, log);
    RevokeUnfolds(s, x, s.order[l]);
  }

  /** Behind the gap that the descendants leave, nothing is below the alias group. */
  lemma NoChildLeft(s: Forest, t: Forest, x: SlotId, i: nat, l: nat)
    requires WellFormed(s) && i <= l < |s.order| && s.order[i] == x && s.order[l] == LastAlias(s, x, i)
    requires Cut(s, t, l + 1, EndFrom(s, l))
    ensures !HasChild(t, x)
  {
    var e := EndFrom(s, l);
    AroundGap(s, t, l, e);
    GroupStops(s, x, i, l);
    if e < |s.order| && l + 1 < e {
      assert BlockOk(s, l, l + 1, e) && Deeper(s, s.S(s.order[l]).chain, s.S(s.order[l]).depth, l + 1);
    }
    LastAliasIs(s, x, i);
    SameGroup(s, t, x, i, l);
  }

  /** The slots before the gap stay where they are, and the one behind it follows them. */
  lemma AroundGap(s: Forest, t: Forest, l: nat, e: nat)
    requires Distinct(s.order) && l < e <= |s.order| && Cut(s, t, l + 1, e)
    ensures |t.order| == |s.order| - (e - (l + 1))
    ensures forall k :: 0 <= k <= l ==> t.order[k] == s.order[k] && t.S(t.order[k]) == s.S(s.order[k]) && IndexOf(t.order, s.order[k]) == k
    ensures e < |s.order| ==> t.order[l + 1] == s.order[e] && t.S(t.order[l + 1]) == s.S(s.order[e])
  {
    forall k | 0 <= k <= l
      ensures t.order[k] == s.order[k] && t.S(t.order[k]) == s.S(s.order[k]) && IndexOf(t.order, s.order[k]) == k {
      assert s.order[k] !in s.order[l + 1..e];
      assert forall j :: 0 <= j < k ==> t.order[j] == s.order[j];
    }
    if e < |s.order| { assert s.order[e] !in s.order[l + 1..e]; }
  }

  /** The slot behind the last alias is no alias. */
  lemma {:induction false} GroupStops(s: Forest, y: SlotId, i: nat, l: nat)
    requires Distinct(s.order) && i <= l < |s.order| && s.order[i] == y && s.order[l] == LastAlias(s, y, i)
    ensures l + 1 < |s.order| && s.S(s.order[l + 1]).chain == s.S(s.order[l]).chain ==>
      !Siblings(s.S(s.order[l]), s.S(s.order[l + 1]))
    decreases l - i
  {
    if i < l {
      GroupStops(s, s.order[i + 1], i + 1, l);
    } else if l + 1 < |s.order| {
      PinnedGroup(s, y, s.order[l + 1], l + 1);
      assert IndexOf(s.order, s.order[l]) == l;
    }
  }

  lemma {:induction false} SameGroup(s: Forest, t: Forest, y: SlotId, i: nat, l: nat)
    requires Distinct(s.order) && i <= l < |s.order| && s.order[i] == y && s.order[l] == LastAlias(s, y, i)
    requires l < |t.order| && forall k :: 0 <= k <= l ==> t.order[k] == s.order[k] && t.S(t.order[k]) == s.S(s.order[k])
    requires l + 1 < |t.order| && t.S(t.order[l + 1]).chain == t.S(t.order[l]).chain ==> !Siblings(t.S(t.order[l]), t.S(t.order[l + 1]))
    ensures LastAlias(t, y, i) == s.order[l]
    decreases l - i
  {
    if i < l { SameGroup(s, t, s.order[i + 1], i + 1, l); }
  }

  /** Pinning the slot changes nothing about its descendants. */
  lemma PinnedQuiet(s: Forest, x: SlotId, l: nat)
    requires WellFormed(s) && x in s.order && IndexOf(s.order, x) <= l < |s.order|
    requires s.order[l] == LastAlias(Pin(s, x), x, IndexOf(s.order, x)) && QuietStretch(s, l + 1, EndFrom(s, l))
    ensures WellFormed(Pin(s, x)) && x !in s.order[l + 1..]
    ensures EndFrom(Pin(s, x), l) == EndFrom(s, l) && Records(Pin(s, x), l + 1, EndFrom(s, l)) == Records(s, l + 1, EndFrom(s, l))
    ensures QuietStretch(Pin(s, x), l + 1, EndFrom(s, l)) && Pin(s, x).S(x).depth == Pin(s, x).S(s.order[l]).depth
  {
    SameLinks(s, Pin(s, x));
    LastAliasIs(Pin(s, x), x, IndexOf(s.order, x));
    forall k | l + 1 <= k < |s.order| ensures s.order[k] != x {}
    assert x !in s.order[l + 1..];
    PinEnd(s, x, l);
    forall k | l + 1 <= k < EndFrom(s, l) ensures Quiet(Pin(s, x), k) { assert Quiet(s, k); }
  }

  lemma RevokeUnfolds(s: Forest, x: SlotId, last: SlotId)
    requires s.S(x).what.Some? && !s.S(x).reclaiming && last == LastAlias(Pin(s, x), x, IndexOf(s.order, x))
    requires RemoveDescendants(Pin(s, x), x, last).1 == Done
    requires RemoveDescendants(Pin(s, x), x, last).0.S(x).what.Some? && Finalise(RemoveDescendants(Pin(s, x), x, last).0, x).1
    ensures RevokeSlot(s, x) == (Unpin(Finalise(RemoveDescendants(Pin(s, x), x, last).0, x).0, x), Done)
  {
  }

  /** With the descendants gone, the object itself is torn down and the slot is released. */
  lemma Finish(s: Forest, x: SlotId, s2: Forest, lo: nat, e: nat, log: seq<Object>)
    requires x in s.order && lo <= e <= |s.order| && Quiet(s, IndexOf(s.order, x)) && x !in s.order[lo..e]
    requires Cut(Pin(s, x), s2, lo, e) && s2.log == s.log + log && !HasChild(s2, x)
    ensures var (t, done) := Finalise(s2, x);
      && done && Cut(s, Unpin(t, x), lo, e) && t.log == s.log + (log + [s.S(x).what.value])
  {
    assert s2.S(x) == Pin(s, x).S(x);
    var t := Unpin(Finalise(s2, x).0, x);
    forall z: SlotId ensures t.S(z) == if z in s.order[lo..e] then EMPTY else s.S(z) {
      assert s2.S(z) == if z in s.order[lo..e] then EMPTY else Pin(s, x).S(z);
    }
    assert s.log + log + [s.S(x).what.value] == s.log + (log + [s.S(x).what.value]);
  }

  // ---------------------------------------------------------------- assembling the teardown order

  lemma Assemble(s: Forest, l: nat, stop: nat, first: seq<Object>, rest: seq<Object>)
    requires WellFormed(s) && l < |s.order| && l + 1 < EndFrom(s, l) && l + 1 < stop <= EndFrom(s, l)
    requires TornDown(Records(s, stop, EndFrom(s, l)), rest) && PartTornDown(s, l + 1, stop, first)
    ensures TornDown(Records(s, l + 1, EndFrom(s, l)), first + rest)
  {
    if HasSibling(s, s.order[l + 1]) {
      AliasFollows(s, l);
      AssembleAlias(s, l + 1, EndFrom(s, l), rest);
      assert first + rest == rest;
    } else {
      TreeHere(s, l, stop);
      AssembleOwned(s, l + 1, stop, EndFrom(s, l), first, rest);
    }
  }

  lemma AssembleOwned(s: Forest, lo: nat, stop: nat, e: nat, first: seq<Object>, rest: seq<Object>)
    requires lo < stop <= e <= |s.order| && !HasSibling(s, s.order[lo]) && PartTornDown(s, lo, stop, first)
    requires Tree(s.S(s.order[lo]), Records(s, lo + 1, stop), Records(s, stop, e)) && TornDown(Records(s, stop, e), rest)
    ensures TornDown(Records(s, lo, e), first + rest)
  {
    var b := first[..|first| - 1];
    assert first == b + [s.S(s.order[lo]).what.value];
    AssembleTree(s, lo, stop, e, b, rest);
  }

  lemma AssembleAlias(s: Forest, lo: nat, e: nat, log: seq<Object>)
    requires lo + 1 < e <= |s.order| && Siblings(s.S(s.order[lo]), s.S(s.order[lo + 1]))
    requires TornDown(Records(s, lo + 1, e), log)
    ensures TornDown(Records(s, lo, e), log)
  {
    TornDownAlias(s.S(s.order[lo]), Records(s, lo + 1, e), log);
    assert Records(s, lo, e) == [s.S(s.order[lo])] + Records(s, lo + 1, e);
  }

  lemma AssembleTree(s: Forest, lo: nat, stop: nat, e: nat, b: seq<Object>, a: seq<Object>)
    requires lo < stop <= e <= |s.order|
    requires Tree(s.S(s.order[lo]), Records(s, lo + 1, stop), Records(s, stop, e))
    requires TornDown(Records(s, lo + 1, stop), b) && TornDown(Records(s, stop, e), a)
    ensures TornDown(Records(s, lo, e), b + [s.S(s.order[lo]).what.value] + a)
  {
    TornDownTree(s.S(s.order[lo]), Records(s, lo + 1, stop), Records(s, stop, e), b, a);
    SplitRecords(s, lo + 1, stop, e);
    assert Records(s, lo, e) == [s.S(s.order[lo])] + Records(s, lo + 1, e);
    assert Records(s, lo, e) == [s.S(s.order[lo])] + Records(s, lo + 1, stop) + Records(s, stop, e);
  }

  lemma SplitRecords(s: Forest, lo: nat, mid: nat, hi: nat)
    requires lo <= mid <= hi <= |s.order|
    ensures Records(s, lo, hi) == Records(s, lo, mid) + Records(s, mid, hi)
  {
  }

  /** The first descendant's alias, if any, comes right after it. */
  lemma AliasFollows(s: Forest, l: nat)
    requires WellFormed(s) && l < |s.order| && l + 1 < EndFrom(s, l) && HasSibling(s, s.order[l + 1])
    ensures l + 2 < EndFrom(s, l) && Siblings(s.S(s.order[l + 1]), s.S(s.order[l + 2]))
  {
    var y := s.order[l + 1];
    assert IndexOf(s.order, y) == l + 1;
    assert Deeper(s, s.S(s.order[l]).chain, s.S(s.order[l]).depth, l + 1);
  }

  lemma TreeHere(s: Forest, l: nat, stop: nat)
    requires WellFormed(s) && l < |s.order| && l + 1 < EndFrom(s, l) && !HasSibling(s, s.order[l + 1])
    requires stop == EndFrom(s, l + 1) <= EndFrom(s, l) && s.S(s.order[l + 1]).what.Some?
    ensures Tree(s.S(s.order[l + 1]), Records(s, l + 2, stop), Records(s, stop, EndFrom(s, l)))
  {
    var e := EndFrom(s, l);
    var c := s.S(s.order[l]).chain;
    var j := l + 1;
    var y := s.S(s.order[j]);
    HasSiblingIff(s, s.order[j]);
    assert Deeper(s, c, s.S(s.order[l]).depth, j);
    forall k | j < k < e ensures !SameObject(y, s.S(s.order[k])) {
      assert s.order[k] != s.order[j];
    }
    forall k | j < k < stop ensures s.S(s.order[k]).depth > y.depth { assert Deeper(s, y.chain, y.depth, k); }
    if stop < e { assert Deeper(s, c, s.S(s.order[l]).depth, stop) && !Deeper(s, y.chain, y.depth, stop); }
    forall k, m | j < k < stop && stop <= m < e ensures !SameObject(s.S(s.order[k]), s.S(s.order[m])) {
      assert BlockOk(s, k, stop, m);
      assert s.S(s.order[k]).depth > y.depth >= s.S(s.order[stop]).depth;
    }
  }

  // ---------------------------------------------------------------- the theorem

  lemma {:induction false} PinnedGroup(s: Forest, z: SlotId, x: SlotId, i: nat)
    requires Distinct(s.order) && i < |s.order| && s.order[i] == x
    ensures LastAlias(Pin(s, z), x, i) == LastAlias(s, x, i) && LastAlias(s, x, i) in s.order
    ensures i <= IndexOf(s.order, LastAlias(s, x, i))
    decreases |s.order| - i
  {
    if i + 1 < |s.order| && s.S(s.order[i + 1]).chain == s.S(x).chain && Siblings(s.S(x), s.S(s.order[i + 1])) {
      PinnedGroup(s, z, s.order[i + 1], i + 1);
    } else {
      assert IndexOf(s.order, x) == i;
    }
  }

  /** The position of the last alias of `x`, and the end of the descendants that follow it. */
  ghost function GroupEnd(s: Forest, x: SlotId): (l: nat)
    requires Distinct(s.order) && x in s.order
    ensures l < |s.order|
  {
    PinnedGroup(s, x, x, IndexOf(s.order, x));
    IndexOf(s.order, LastAlias(s, x, IndexOf(s.order, x)))
  }

  lemma StaysWellFormed(s: Forest, x: SlotId)
    requires WellFormed(s) && Pinned(s)
    ensures WellFormed(RevokeSlot(s, x).0)
  {
    RevokeSound(s, x);
  }

  /**
   * Revoking a leaf empties exactly the slots of its descendants, keeps the slot, its aliases and
   * everything else as they were, and tears every object down once, descendants first, its own last.
   */
  lemma RevokeLeaf(s: Forest, x: SlotId) returns (log: seq<Object>)
    requires WellFormed(s) && Pinned(s) && x in s.order && Quiet(s, IndexOf(s.order, x))
    requires QuietStretch(s, GroupEnd(s, x) + 1, EndFrom(s, GroupEnd(s, x)))
    ensures var (t, done) := RevokeSlot(s, x); var l := GroupEnd(s, x); var e := EndFrom(s, l);
      && done == Done && WellFormed(t) && Cut(s, t, l + 1, e) && t.log == s.log + log
      && log != [] && log[|log| - 1] == s.S(x).what.value
      && TornDown(Records(s, l + 1, e), log[..|log| - 1])
  {
    var l := GroupEnd(s, x);
    PinnedGroup(s, x, x, IndexOf(s.order, x));
    StaysWellFormed(s, x);
    log := LeafLog(s, x, l);
  }

  lemma LeafLog(s: Forest, x: SlotId, l: nat) returns (log: seq<Object>)
    requires WellFormed(s) && Pinned(s) && x in s.order && Quiet(s, IndexOf(s.order, x))
    requires IndexOf(s.order, x) <= l < |s.order| && QuietStretch(s, l + 1, EndFrom(s, l))
    requires s.order[l] == LastAlias(Pin(s, x), x, IndexOf(s.order, x))
    ensures var (t, done) := RevokeSlot(s, x);
      && done == Done && Cut(s, t, l + 1, EndFrom(s, l)) && t.log == s.log + log
      && log != [] && log[|log| - 1] == s.S(x).what.value
      && TornDown(Records(s, l + 1, EndFrom(s, l)), log[..|log| - 1])
  {
    var below := RevokeExact(s, x, l);
    log := below + [s.S(x).what.value];
    assert log[..|log| - 1] == below;
  }
}
