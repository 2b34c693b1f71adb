/**
 Doubly linked queues whose links lie inside the queued processes. Memory is a table from addresses
 to link fields; the two ends of a queue are held by its owner.
 */
module IntrusiveQueue {
  import opened Common
  import opened KernelState

  datatype Links = Links(preview: Option<Pid>, next: Option<Pid>)

  const UNLINKED: Links := Links(None, None)

  type Memory = m: seq<Links> | |m| == ADDRESSES ghost witness seq(ADDRESSES, i => UNLINKED)

  datatype Ends = Ends(head: Option<Pid>, tail: Option<Pid>)

  const NO_ENDS: Ends := Ends(None, None)

  /** The links of position `i` lead to its neighbours. */
  ghost predicate LinkedAt(m: Memory, q: seq<Pid>, i: int)
    requires 0 <= i < |q|
  {
    m[q[i]] == Links(if i > 0 then Some(q[i - 1]) else None, if i + 1 < |q| then Some(q[i + 1]) else None)
  }

  /** Following the links from one end to the other visits exactly `q`. */
  ghost predicate Linked(m: Memory, q: seq<Pid>, e: Ends) {
    && Distinct(q)
    && e == (if q == [] then NO_ENDS else Ends(Some(q[0]), Some(q[|q| - 1])))
    && forall i :: 0 <= i < |q| ==> LinkedAt(m, q, i)
  }

  /** A queue none of whose members was written is still linked. */
  lemma ElsewhereLinked(m: Memory, t: Memory, q: seq<Pid>, e: Ends)
    requires Linked(m, q, e) && forall p :: p in q ==> t[p] == m[p]
    ensures Linked(t, q, e)
  {
    forall i | 0 <= i < |q| ensures LinkedAt(t, q, i) { assert LinkedAt(m, q, i); }
  }

  /** The memory after `p` was linked behind the tail. */
  ghost predicate Appends(m: Memory, t: Memory, e: Ends, p: Pid) {
    && t[p] == Links(e.tail, None)
    && (forall x: Pid :: x != p ==> t[x] == if Some(x) == e.tail then m[x].(next := Some(p)) else m[x])
  }

  lemma AppendLinked(m: Memory, t: Memory, q: seq<Pid>, e: Ends, p: Pid)
    requires Linked(m, q, e) && p !in q && Appends(m, t, e, p)
    ensures Linked(t, q + [p], Ends(if e.head.None? then Some(p) else e.head, Some(p)))
  {
    var c := q + [p];
    forall i | 0 <= i < |c| ensures LinkedAt(t, c, i) {
      if i < |q| { assert LinkedAt(m, q, i); }
    }
  }

  /** The memory after the neighbours of `p` were joined, apart from the links of `p` itself. */
  ghost predicate Joins(m: Memory, t: Memory, p: Pid) {
    forall x: Pid :: x != p ==>
      t[x] == Links(
        if m[p].next == Some(x) then m[p].preview else m[x].preview,
        if m[p].preview == Some(x) then m[p].next else m[x].next)
  }

  function JoinedEnds(m: Memory, e: Ends, p: Pid): Ends {
    Ends(if m[p].preview.None? then m[p].next else e.head, if m[p].next.None? then m[p].preview else e.tail)
  }

  lemma CutLinked(m: Memory, t: Memory, q: seq<Pid>, e: Ends, i: nat)
    requires Linked(m, q, e) && i < |q| && Joins(m, t, q[i])
    ensures Linked(t, q[..i] + q[i + 1..], JoinedEnds(m, e, q[i]))
  {
    var c := q[..i] + q[i + 1..];
    assert LinkedAt(m, q, i);
    forall j | 0 <= j < |c| ensures LinkedAt(t, c, j) {
      assert LinkedAt(m, q, if j < i then j else j + 1);
    }
  }

  // ---------------------------------------------------------------- families of queues

  /** In which queue of a family each process is. */
  type Seats = m: seq<Option<nat>> | |m| == ADDRESSES ghost witness seq(ADDRESSES, i => None)

  ghost predicate QueueHeld(links: Memory, e: Ends, q: seq<Pid>, at: Seats, i: nat) {
    Linked(links, q, e) && forall p :: p in q ==> at[p] == Some(i)
  }

  ghost predicate SeatHeld(links: Memory, contents: seq<seq<Pid>>, at: Seats, p: Pid) {
    match at[p]
    case Some(i) => i < |contents| && p in contents[i]
    case None => links[p] == UNLINKED
  }

  /** The links hold the queues `contents`, and a process is in at most one of them. */
  ghost predicate Held(links: Memory, ends: seq<Ends>, contents: seq<seq<Pid>>, at: Seats) {
    && |ends| == |contents|
    && (forall i :: 0 <= i < |contents| ==> QueueHeld(links, ends[i], contents[i], at, i))
    && (forall p: Pid :: SeatHeld(links, contents, at, p))
  }

  function Grown(e: Ends, p: Pid): Ends {
    Ends(if e.head.None? then Some(p) else e.head, Some(p))
  }

  lemma PushHolds(m: Memory, t: Memory, ends: seq<Ends>, contents: seq<seq<Pid>>, at: Seats, i: nat, p: Pid)
    requires Held(m, ends, contents, at) && i < |contents| && at[p].None? && Appends(m, t, ends[i], p)
    ensures Held(t, ends[i := Grown(ends[i], p)], contents[i := contents[i] + [p]], at[p := Some(i)])
  {
    var c, e, a := contents[i := contents[i] + [p]], ends[i := Grown(ends[i], p)], at[p := Some(i)];
    assert QueueHeld(m, ends[i], contents[i], at, i);
    forall k | 0 <= k < |c| ensures QueueHeld(t, e[k], c[k], a, k) {
      assert QueueHeld(m, ends[k], contents[k], at, k);
      if k == i {
        AppendLinked(m, t, contents[i], ends[i], p);
      } else {
        ElsewhereLinked(m, t, contents[k], ends[k]);
      }
    }
    forall x: Pid ensures SeatHeld(t, c, a, x) { assert SeatHeld(m, contents, at, x); }
  }

  lemma RemoveHolds(m: Memory, t: Memory, ends: seq<Ends>, contents: seq<seq<Pid>>, at: Seats, i: nat, p: Pid)
    requires Held(m, ends, contents, at) && at[p] == Some(i) && Joins(m, t, p) && t[p] == UNLINKED
    ensures i < |contents| == |ends|
    ensures Held(t, ends[i := JoinedEnds(m, ends[i], p)], contents[i := Without(contents[i], p)], at[p := None])
  {
    assert SeatHeld(m, contents, at, p);
    var c, e, a := contents[i := Without(contents[i], p)], ends[i := JoinedEnds(m, ends[i], p)], at[p := None];
    forall k | 0 <= k < |c| ensures QueueHeld(t, e[k], c[k], a, k) {
      assert QueueHeld(m, ends[k], contents[k], at, k);
      if k == i {
        RemovedFrom(m, t, ends[i], contents[i], at, i, p);
      } else {
        RemovedElsewhere(m, t, ends[i], contents[i], at, i, p, ends[k], contents[k], k);
      }
    }
    forall x: Pid ensures SeatHeld(t, c, a, x) {
      assert SeatHeld(m, contents, at, x) && QueueHeld(m, ends[i], contents[i], at, i);
      if at[x] != Some(i) { OutsideJoins(m, t, contents[i], ends[i], at, i, p, x); }
    }
  }

  lemma RemovedFrom(m: Memory, t: Memory, e: Ends, q: seq<Pid>, at: Seats, i: nat, p: Pid)
    requires QueueHeld(m, e, q, at, i) && p in q && Joins(m, t, p)
    ensures QueueHeld(t, JoinedEnds(m, e, p), Without(q, p), at[p := None], i)
  {
    CutWithout(m, t, q, e, p);
    var rest := Without(q, p);
    forall x | x in rest ensures at[p := None][x] == Some(i) { assert x in q && x != p; }
  }

  lemma CutWithout(m: Memory, t: Memory, q: seq<Pid>, e: Ends, p: Pid)
    requires Linked(m, q, e) && p in q && Joins(m, t, p)
    ensures Linked(t, Without(q, p), JoinedEnds(m, e, p))
  {
    var j :| 0 <= j < |q| && q[j] == p;
    CutLinked(m, t, q, e, j);
    WithoutAt(q, j);
  }

  lemma RemovedElsewhere(m: Memory, t: Memory, e: Ends, q: seq<Pid>, at: Seats, i: nat, p: Pid, f: Ends, other: seq<Pid>, k: nat)
    requires QueueHeld(m, e, q, at, i) && p in q && Joins(m, t, p) && QueueHeld(m, f, other, at, k) && k != i
    ensures QueueHeld(t, f, other, at[p := None], k)
  {
    forall x | x in other ensures t[x] == m[x] { OutsideJoins(m, t, q, e, at, i, p, x); }
    ElsewhereLinked(m, t, other, f);
  }

  /** Joining the neighbours of a queued process writes no process outside its queue. */
  lemma OutsideJoins(m: Memory, t: Memory, q: seq<Pid>, e: Ends, at: Seats, i: nat, p: Pid, x: Pid)
    requires QueueHeld(m, e, q, at, i) && p in q && Joins(m, t, p) && at[x] != Some(i)
    ensures t[x] == m[x]
  {
    var j :| 0 <= j < |q| && q[j] == p;
    assert LinkedAt(m, q, j);
    if j > 0 { assert q[j - 1] in q; }
    if j + 1 < |q| { assert q[j + 1] in q; }
    assert x != q[j];
  }

  /** A queued process is not its own neighbour, and its neighbours differ. */
  lemma Neighbours(m: Memory, q: seq<Pid>, e: Ends, i: nat)
    requires Linked(m, q, e) && i < |q|
    ensures m[q[i]].preview == (if i > 0 then Some(q[i - 1]) else None)
    ensures m[q[i]].next == (if i + 1 < |q| then Some(q[i + 1]) else None)
    ensures m[q[i]].preview != Some(q[i]) && m[q[i]].next != Some(q[i])
    ensures m[q[i]].preview.Some? ==> m[q[i]].preview != m[q[i]].next
  {
    assert LinkedAt(m, q, i);
  }

  /** Queues over the same link fields of all processes; only the ends of each queue are its own. */
  class LinkedQueues {
    var links: Memory
    var ends: seq<Ends>
    /** The queues as plain sequences, oldest first, and where each process is. */
    ghost var contents: seq<seq<Pid>>
    ghost var at: Seats

    ghost predicate Valid()
      reads this
    {
      Held(links, ends, contents, at)
    }

    constructor (count: nat)
      ensures Valid() && contents == seq(count, i => []) && forall p: Pid :: at[p].None?
    {
      links := seq(ADDRESSES, i => UNLINKED);
      ends := seq(count, i => NO_ENDS);
      contents := seq(count, i => []);
      at := seq(ADDRESSES, i => None);
    }

    /** The oldest process of queue `i`. */
    function Head(i: nat): (r: Option<Pid>)
      requires Valid() && i < |ends|
      reads this
      ensures r == if contents[i] == [] then None else Some(contents[i][0])
    {
      assert QueueHeld(links, ends[i], contents[i], at, i);
      ends[i].head
    }

    method Push(i: nat, p: Pid)
      requires Valid() && i < |contents| && at[p].None?
      modifies this
      ensures Valid() && contents == old(contents)[i := old(contents)[i] + [p]] && at == old(at)[p := Some(i)]
    {
      assert QueueHeld(links, ends[i], contents[i], at, i);
      if ends[i].head.None? || ends[i].tail.None? {
        ends := ends[i := Ends(Some(p), Some(p))];
        links := links[p := UNLINKED];
      } else {
        var tail := ends[i].tail.value;
        links := links[p := Links(Some(tail), None)];
        links := links[tail := links[tail].(next := Some(p))];
        ends := ends[i := ends[i].(tail := Some(p))];
      }
      PushHolds(old(links), links, old(ends), contents, at, i, p);
      contents, at := contents[i := contents[i] + [p]], at[p := Some(i)];
    }

    /** The neighbours of `p`, or the ends of queue `i`, are joined around it. */
    method Unlink(i: nat, previous: Option<Pid>, p: Pid)
      requires Valid() && at[p] == Some(i) && previous == links[p].preview
      modifies this
      ensures Valid() && i < |contents| == |old(contents)|
      ensures contents == old(contents)[i := Without(old(contents)[i], p)] && at == old(at)[p := None]
    {
      Located(p);
      var next := links[p].next;
      if previous.Some? {
        links := links[previous.value := links[previous.value].(next := next)];
      } else {
        ends := ends[i := ends[i].(head := next)];
      }
      if next.Some? {
        links := links[next.value := links[next.value].(preview := previous)];
      } else {
        ends := ends[i := ends[i].(tail := previous)];
      }
      links := links[p := UNLINKED];
      assert Joins(old(links), links, p);
      RemoveHolds(old(links), links, old(ends), contents, at, i, p);
      contents, at := contents[i := Without(contents[i], p)], at[p := None];
    }

    lemma Located(p: Pid)
      requires Valid() && at[p].Some?
      ensures at[p].value < |contents| == |ends|
      ensures links[p].preview != Some(p) && links[p].next != Some(p)
      ensures links[p].preview.Some? ==> links[p].preview != links[p].next
    {
      var i := at[p].value;
      assert SeatHeld(links, contents, at, p) && QueueHeld(links, ends[i], contents[i], at, i);
      var j :| 0 <= j < |contents[i]| && contents[i][j] == p;
      Neighbours(links, contents[i], ends[i], j);
    }

    method Remove(i: nat, p: Pid)
      requires Valid() && at[p] == Some(i)
      modifies this
      ensures Valid() && i < |contents| == |old(contents)|
      ensures contents == old(contents)[i := Without(old(contents)[i], p)] && at == old(at)[p := None]
    {
      Unlink(i, links[p].preview, p);
    }

    method Pop(i: nat) returns (head: Option<Pid>)
      requires Valid() && i < |contents|
      modifies this
      ensures Valid()
      ensures old(contents)[i] == [] ==> head.None? && contents == old(contents) && at == old(at)
      ensures old(contents)[i] != [] ==>
        && head == Some(old(contents)[i][0]) && old(at)[head.value] == Some(i)
        && contents == old(contents)[i := old(contents)[i][1..]] && at == old(at)[head.value := None]
    {
      head := Head(i);
      if head.None? { return; }
      ghost var q := contents[i];
      assert QueueHeld(links, ends[i], q, at, i);
      Neighbours(links, q, ends[i], 0);
      WithoutAt(q, 0);
      assert q[..0] + q[1..] == q[1..];
      Unlink(i, None, head.value);
    }

    /** Queue `i` is walked until `p` turns up, which is then unlinked. */
    method FindAndRemove(i: nat, p: Pid) returns (found: bool)
      requires Valid() && i < |contents|
      modifies this
      ensures Valid() && found == (p in old(contents)[i])
      ensures !found ==> contents == old(contents) && at == old(at)
      ensures found ==>
        && old(at)[p] == Some(i)
        && contents == old(contents)[i := Without(old(contents)[i], p)] && at == old(at)[p := None]
    {
      ghost var q := contents[i];
      assert QueueHeld(links, ends[i], q, at, i);
      var previous, current := None, Head(i);
      ghost var j := 0;
      while current.Some?
        invariant Valid() && contents == old(contents) && at == old(at)
        invariant 0 <= j <= |q| && p !in q[..j]
        invariant current == if j < |q| then Some(q[j]) else None
        invariant previous == if j > 0 then Some(q[j - 1]) else None
        decreases |q| - j
      {
        assert QueueHeld(links, ends[i], q, at, i);
        Neighbours(links, q, ends[i], j);
        if current.value == p {
          Unlink(i, previous, p);
          return true;
        }
        previous := current;
        current := links[current.value].next;
        j := j + 1;
      }
      assert q[..j] == q;
      found := false;
    }
  }
}
