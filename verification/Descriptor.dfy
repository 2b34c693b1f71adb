/**
 Capability descriptors: an 8-bit depth, then one field per Node on the way to a slot. A Node skips
 its ignored bits and uses the next `radix` bits as an index.
 */
module Descriptor {
  import opened Arithmetic

  const WORD_BITS: nat := 64
  const DEPTH_BITS: nat := 8

  datatype Entry = Empty | ToNode(node: nat) | Terminal

  datatype Node = Node(ignore: nat, radix: nat, slots: seq<Entry>)
  {
    function Width(): nat { ignore + radix }
  }

  type Graph = map<nat, Node>

  /** Nodes have a valid geometry, 2^radix slots, and lead only to Nodes; they may lead in circles. */
  ghost predicate Closed(g: Graph) {
    forall n :: n in g ==>
      && g[n].ignore < WORD_BITS && 0 < g[n].radix < WORD_BITS && g[n].Width() <= WORD_BITS
      && |g[n].slots| == Pow2(g[n].radix)
      && forall i :: 0 <= i < |g[n].slots| && g[n].slots[i].ToNode? ==> g[n].slots[i].node in g
  }

  /** `Overrun` stands for a shift by a negative amount, which the source leaves undefined. */
  datatype Lookup = Found(node: nat, index: nat) | EmptySlot | NotANode | Overrun

  function ExtractDepth(descriptor: nat): nat {
    descriptor / Pow2(WORD_BITS - DEPTH_BITS) % Pow2(DEPTH_BITS) + DEPTH_BITS
  }

  function Index(node: Node, descriptor: nat, used: nat): (i: nat)
    requires node.Width() + used <= WORD_BITS
    ensures i < Pow2(node.radix)
  {
    descriptor / Pow2(WORD_BITS - (node.Width() + used)) % Pow2(node.radix)
  }

  function Traverse(g: Graph, n: nat, descriptor: nat, max: nat, used: nat): Lookup
    requires Closed(g) && n in g
    decreases WORD_BITS - used
  {
    if g[n].Width() + used > WORD_BITS then Overrun
    else
      var i := Index(g[n], descriptor, used);
      if g[n].Width() + used == max then Found(n, i)
      else match g[n].slots[i]
        case Empty => EmptySlot
        case Terminal => NotANode
        case ToNode(k) => Traverse(g, k, descriptor, max, g[n].Width() + used)
  }

  /** Looking a descriptor up from a root Node. */
  function Resolve(g: Graph, root: nat, descriptor: nat): Lookup
    requires Closed(g) && root in g
  {
    Traverse(g, root, descriptor, ExtractDepth(descriptor), DEPTH_BITS)
  }

  // ---------------------------------------------------------------- paths

  /** One Node on the way: its geometry, what stands in the ignored bits, and the index. */
  datatype Hop = Hop(ignore: nat, radix: nat, ignored: nat, index: nat)
  {
    function Width(): nat { ignore + radix }
    function Value(): nat { ignored * Pow2(radix) + index }
    ghost predicate Fits() { ignored < Pow2(ignore) && index < Pow2(radix) }
  }

  /** Following the indices from Node `n` ends at slot `i` of Node `m`. */
  ghost predicate Leads(g: Graph, n: nat, path: seq<Hop>, m: nat, i: nat)
    requires Closed(g)
    decreases |path|
  {
    && n in g && path != [] && path[0].Fits() && path[0].ignore == g[n].ignore && path[0].radix == g[n].radix
    && if |path| == 1 then m == n && i == path[0].index
       else g[n].slots[path[0].index].ToNode? && Leads(g, g[n].slots[path[0].index].node, path[1..], m, i)
  }

  function Bits(path: seq<Hop>): nat {
    if path == [] then 0 else path[0].Width() + Bits(path[1..])
  }

  /** The fields concatenated from the top of `room` bits, and `tail` in the bits below them. */
  function Fields(path: seq<Hop>, room: nat, tail: nat): nat
    requires Bits(path) <= room
    decreases |path|
  {
    if path == [] then tail
    else path[0].Value() * Pow2(room - path[0].Width()) + Fields(path[1..], room - path[0].Width(), tail)
  }

  /** The depth byte on top of the fields. */
  function Encode(path: seq<Hop>, tail: nat): nat
    requires Bits(path) <= WORD_BITS - DEPTH_BITS
  {
    Bits(path) * Pow2(WORD_BITS - DEPTH_BITS) + Fields(path, WORD_BITS - DEPTH_BITS, tail)
  }

  // ---------------------------------------------------------------- arithmetic

  lemma ValueFits(h: Hop)
    requires h.Fits()
    ensures h.Value() < Pow2(h.Width())
  {
    PowAdds(h.ignore, h.radix);
    MulStrict(h.ignored, Pow2(h.ignore), Pow2(h.radix));
  }

  lemma {:induction false} FieldsFit(path: seq<Hop>, room: nat, tail: nat)
    requires Bits(path) <= room && tail < Pow2(room - Bits(path)) && forall k :: 0 <= k < |path| ==> path[k].Fits()
    ensures Fields(path, room, tail) < Pow2(room)
    decreases |path|
  {
    if path != [] {
      var w := path[0].Width();
      FieldsFit(path[1..], room - w, tail);
      ValueFits(path[0]);
      PowAdds(w, room - w);
      MulStrict(path[0].Value(), Pow2(w), Pow2(room - w));
    }
  }

  /** A field is read back from its place, whatever stands above and below it. */
  lemma FieldReadBack(h: Hop, above: nat, below: nat, room: nat)
    requires h.Fits() && h.Width() <= room && below < Pow2(room - h.Width())
    ensures var d := (above * Pow2(h.Width()) + h.Value()) * Pow2(room - h.Width()) + below;
      d / Pow2(room - h.Width()) % Pow2(h.radix) == h.index
  {
    PowAdds(h.ignore, h.radix);
    ReadBack(above, Pow2(h.ignore), Pow2(h.radix), Pow2(room - h.Width()), h.ignored, h.index, below);
  }

  lemma ReadBack(above: nat, u: nat, v: nat, s: nat, ignored: nat, index: nat, below: nat)
    requires index < v && below < s
    ensures ((above * (u * v) + (ignored * v + index)) * s + below) / s % v == index
  {
    var top := above * (u * v) + (ignored * v + index);
    Euclid(top * s + below, s, top, below);
    Regroup(above, u, v, ignored);
    Euclid(top, v, above * u + ignored, index);
  }

  lemma Regroup(a: nat, b: nat, c: nat, e: nat)
    ensures a * (b * c) + e * c == (a * b + e) * c
  {
  }

  /** A field opened: what was above it and its value are above the rest. */
  lemma Reassociate(above: nat, w: nat, room: nat, value: nat, rest: nat)
    requires w <= room
    ensures above * Pow2(room) + (value * Pow2(room - w) + rest) == (above * Pow2(w) + value) * Pow2(room - w) + rest
  {
    PowAdds(w, room - w);
    Regroup(above, Pow2(w), Pow2(room - w), value);
  }

  // ---------------------------------------------------------------- round trip

  lemma {:induction false} LeadsFit(g: Graph, n: nat, path: seq<Hop>, m: nat, i: nat)
    requires Closed(g) && Leads(g, n, path, m, i)
    ensures forall k :: 0 <= k < |path| ==> path[k].Fits()
    ensures Bits(path) > 0
    decreases |path|
  {
    if |path| > 1 {
      LeadsFit(g, g[n].slots[path[0].index].node, path[1..], m, i);
      forall k | 0 <= k < |path| ensures path[k].Fits() { if k > 0 { assert path[k] == path[1..][k - 1]; } }
    }
  }

  /** The fields of a path below whatever stands above them. */
  ghost predicate Laid(d: nat, path: seq<Hop>, room: nat, above: nat, tail: nat) {
    && Bits(path) <= room && tail < Pow2(room - Bits(path)) && (forall k :: 0 <= k < |path| ==> path[k].Fits())
    && d == above * Pow2(room) + Fields(path, room, tail)
  }

  /** What stands above the second field. */
  ghost function Higher(h: Hop, above: nat): nat {
    above * Pow2(h.Width()) + h.Value()
  }

  lemma RestLaid(d: nat, path: seq<Hop>, room: nat, above: nat, tail: nat)
    requires path != [] && Laid(d, path, room, above, tail)
    ensures Laid(d, path[1..], room - path[0].Width(), Higher(path[0], above), tail)
  {
    Reassociate(above, path[0].Width(), room, path[0].Value(), Fields(path[1..], room - path[0].Width(), tail));
  }

  /** The first index is read back. */
  lemma FirstIndex(d: nat, path: seq<Hop>, room: nat, above: nat, tail: nat)
    requires path != [] && Laid(d, path, room, above, tail)
    ensures d / Pow2(room - path[0].Width()) % Pow2(path[0].radix) == path[0].index
  {
    RestLaid(d, path, room, above, tail);
    FieldsFit(path[1..], room - path[0].Width(), tail);
    FieldReadBack(path[0], above, Fields(path[1..], room - path[0].Width(), tail), room);
  }

  lemma {:induction false} TraverseFollows(g: Graph, n: nat, path: seq<Hop>, m: nat, i: nat, d: nat, above: nat, tail: nat, used: nat)
    requires Closed(g) && Leads(g, n, path, m, i)
    requires used <= WORD_BITS && Laid(d, path, WORD_BITS - used, above, tail)
    ensures Traverse(g, n, d, used + Bits(path), used) == Found(m, i)
    decreases |path|
  {
    var h := path[0];
    RestLaid(d, path, WORD_BITS - used, above, tail);
    FirstIndex(d, path, WORD_BITS - used, above, tail);
    assert Index(g[n], d, used) == h.index;
    if |path| == 1 {
      assert Bits(path[1..]) == 0;
    } else {
      var k := g[n].slots[h.index].node;
      LeadsFit(g, k, path[1..], m, i);
      TraverseFollows(g, k, path[1..], m, i, d, Higher(h, above), tail, used + h.Width());
      NextHop(g, n, d, used, used + Bits(path), k);
    }
  }

  lemma NextHop(g: Graph, n: nat, d: nat, used: nat, max: nat, k: nat)
    requires Closed(g) && n in g && g[n].Width() + used < max <= WORD_BITS
    requires g[n].slots[Index(g[n], d, used)] == ToNode(k)
    ensures Traverse(g, n, d, max, used) == Traverse(g, k, d, max, g[n].Width() + used)
  {
  }

  /** A path of at most 56 bits, whatever its ignored and trailing bits, resolves to its last slot. */
  lemma RoundTrip(g: Graph, root: nat, path: seq<Hop>, m: nat, i: nat, tail: nat)
    requires Closed(g) && Leads(g, root, path, m, i) && Bits(path) <= WORD_BITS - DEPTH_BITS
    requires tail < Pow2(WORD_BITS - DEPTH_BITS - Bits(path))
    ensures Resolve(g, root, Encode(path, tail)) == Found(m, i)
  {
    LeadsFit(g, root, path, m, i);
    FieldsFit(path, WORD_BITS - DEPTH_BITS, tail);
    Euclid(Encode(path, tail), Pow2(WORD_BITS - DEPTH_BITS), Bits(path), Fields(path, WORD_BITS - DEPTH_BITS, tail));
    assert Pow2(DEPTH_BITS) == 256;
    Euclid(Bits(path), 256, 0, Bits(path));
    TraverseFollows(g, root, path, m, i, Encode(path, tail), Bits(path), tail, DEPTH_BITS);
  }

  // ---------------------------------------------------------------- nothing else is found

  /** The path a lookup takes. */
  ghost function Taken(g: Graph, n: nat, d: nat, max: nat, used: nat): seq<Hop>
    requires Closed(g) && n in g
    decreases WORD_BITS - used
  {
    if g[n].Width() + used > WORD_BITS then []
    else
      var h := Hop(g[n].ignore, g[n].radix, 0, Index(g[n], d, used));
      if g[n].Width() + used == max || !g[n].slots[h.index].ToNode? then [h]
      else [h] + Taken(g, g[n].slots[h.index].node, d, max, g[n].Width() + used)
  }

  /** What a lookup finds is the end of a path that uses exactly the bits the depth announces. */
  lemma {:induction false} FoundHasPath(g: Graph, n: nat, d: nat, max: nat, used: nat)
    requires Closed(g) && n in g && Traverse(g, n, d, max, used).Found?
    ensures var r := Traverse(g, n, d, max, used); var path := Taken(g, n, d, max, used);
      Leads(g, n, path, r.node, r.index) && used + Bits(path) == max <= WORD_BITS
    decreases WORD_BITS - used
  {
    var h := Hop(g[n].ignore, g[n].radix, 0, Index(g[n], d, used));
    var path := Taken(g, n, d, max, used);
    if g[n].Width() + used == max {
      assert path == [h] && path[1..] == [];
    } else {
      FoundHasPath(g, g[n].slots[h.index].node, d, max, g[n].Width() + used);
      assert path[1..] == Taken(g, g[n].slots[h.index].node, d, max, g[n].Width() + used);
    }
  }

  /** A descriptor of depth zero, or one whose depth no path meets exactly, finds nothing. */
  lemma ResolvesOnlyWholePaths(g: Graph, root: nat, d: nat)
    requires Closed(g) && root in g && Resolve(g, root, d).Found?
    ensures var r := Resolve(g, root, d);
      exists path :: Leads(g, root, path, r.node, r.index) && Bits(path) + DEPTH_BITS == ExtractDepth(d)
  {
    FoundHasPath(g, root, d, ExtractDepth(d), DEPTH_BITS);
  }
}
