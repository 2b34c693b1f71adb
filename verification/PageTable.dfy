/**
 The four-level translation tables of AArch64: searching for the first missing table on the way to
 an address, and mapping a table there. Descriptor formats are those of section D8.3 of the Arm
 Architecture Reference Manual (DDI 0487).
 */
module PageTable {
  import opened Common

  const ENTRIES: nat := 512
  const OWNERS_INDEX: nat := 511
  const PAGE_SIZE: nat := 4096
  const ROOT_DEPTH: nat := 4
  const USER_END: nat := 0x8000_0000_0000
  const OUTPUT_END: nat := 0x1_0000_0000_0000

  type UserAddress = a: nat | a < USER_END
  /** Table pages by physical address, each entry as `Decode` reads it. */
  type Memory = map<nat, seq<Entry>>

  datatype MapError = IllegalDepth | InvalidPageTable | NoSuchPageTable | AlreadyMapped
  datatype Result<T> = Ok(value: T) | Err(error: MapError)

  // ---------------------------------------------------------------- descriptors

  /** What a 64-bit entry says to a walk that is not yet at its last table. */
  datatype Entry = Missing | Leaf | Table(address: nat)

  function Decode(w: nat): Entry {
    if w % 2 == 0 then Missing
    else if w / 2 % 2 == 0 then Leaf
    else Table(w % OUTPUT_END / PAGE_SIZE * PAGE_SIZE)
  }

  function TableDescriptor(table: nat): nat { table % OUTPUT_END / PAGE_SIZE * PAGE_SIZE + 3 }

  /** A page that can be named by a descriptor. */
  predicate IsPage(a: nat) { 0 < a < OUTPUT_END && a % PAGE_SIZE == 0 }

  /** The descriptor written for a table leads to exactly that table if its address has 48 bits. */
  lemma DescriptorReadsBack(table: nat)
    requires table % PAGE_SIZE == 0
    ensures Decode(TableDescriptor(table)) == Table(table) <==> table < OUTPUT_END
  {
  }

  function Shift(page: nat, levels: nat): nat
    decreases levels
  {
    if levels == 0 then page else Shift(page / ENTRIES, levels - 1)
  }

  /** Nine bits of the address for each depth above the page offset. */
  function Index(address: nat, depth: nat): (i: nat)
    requires 1 <= depth <= ROOT_DEPTH
    ensures i < ENTRIES
  {
    Shift(address / PAGE_SIZE, depth - 1) % ENTRIES
  }

  lemma UserIndexIsLow(address: UserAddress)
    ensures Index(address, ROOT_DEPTH) < OWNERS_INDEX
  {
    var page := address / PAGE_SIZE;
    assert Shift(page, 3) == Shift(page / ENTRIES, 2) == Shift(page / ENTRIES / ENTRIES, 1) == page / ENTRIES / ENTRIES / ENTRIES;
  }

  /** The root's last entry is not a descriptor: it holds the owner bits. */
  function Slots(depth: nat): nat { if depth == ROOT_DEPTH then OWNERS_INDEX else ENTRIES }

  // ---------------------------------------------------------------- trees

  /** What table `t` leads to are tables of the next depth. */
  ghost predicate Tree(m: Memory, t: nat, depth: nat)
    decreases depth
  {
    && t in m && |m[t]| == ENTRIES
    && (depth > 1 ==> forall i :: 0 <= i < Slots(depth) ==> Child(m, m[t][i], depth))
  }

  ghost predicate Child(m: Memory, w: Entry, depth: nat)
    requires depth > 1
    decreases depth, 0
  {
    w.Table? ==> w.address != 0 && Tree(m, w.address, depth - 1)
  }

  lemma ChildOf(m: Memory, t: nat, address: UserAddress, depth: nat)
    requires 1 < depth <= ROOT_DEPTH && Tree(m, t, depth)
    ensures Child(m, m[t][Index(address, depth)], depth)
  {
    if depth == ROOT_DEPTH { UserIndexIsLow(address); }
  }

  /** The number of the first missing table, 0 if none is missing above `leaf`. */
  function Search(m: Memory, t: nat, address: UserAddress, depth: nat, leaf: nat): Result<nat>
    requires 1 <= leaf && depth <= ROOT_DEPTH && Tree(m, t, depth)
    decreases depth
  {
    if depth <= leaf then Ok(0)
    else
      var w := m[t][Index(address, depth)];
      if w.Missing? then Ok(depth - 1)
      else if w.Leaf? then Err(AlreadyMapped)
      else ChildOf(m, t, address, depth); Search(m, w.address, address, depth - 1, leaf)
  }

  /** The table of the given depth on the way to an address. */
  function Walk(m: Memory, t: nat, address: UserAddress, depth: nat, target: nat): Result<nat>
    requires 1 <= target && depth <= ROOT_DEPTH && Tree(m, t, depth)
    decreases depth
  {
    if depth <= target then Ok(t)
    else
      var w := m[t][Index(address, depth)];
      if !w.Table? || w.address == 0 then Err(NoSuchPageTable)
      else ChildOf(m, t, address, depth); Walk(m, w.address, address, depth - 1, target)
  }

  function WithEntry(page: seq<Entry>, i: nat, w: Entry): seq<Entry>
    requires i < |page|
  {
    page[i := w]
  }

  /** Linking `table` as the table of depth `tableDepth` on the way to an address. */
  function MapPageTable(m: Memory, root: nat, table: nat, tableDepth: nat, address: UserAddress): Result<Memory>
    requires Tree(m, root, ROOT_DEPTH)
  {
    if table == 0 || table % PAGE_SIZE != 0 then Err(InvalidPageTable)
    else if tableDepth < 1 || tableDepth >= ROOT_DEPTH then Err(IllegalDepth)
    else match Walk(m, root, address, ROOT_DEPTH, tableDepth + 1)
      case Err(e) => Err(e)
      case Ok(p) =>
        WalkIsTree(m, root, address, ROOT_DEPTH, tableDepth + 1);
        var i := Index(address, tableDepth + 1);
        if !m[p][i].Missing? then Err(AlreadyMapped) else Ok(m[p := WithEntry(m[p], i, Decode(TableDescriptor(table)))])
  }

  lemma {:induction false} WalkIsTree(m: Memory, t: nat, address: UserAddress, depth: nat, target: nat)
    requires 1 <= target <= depth <= ROOT_DEPTH && Tree(m, t, depth) && Walk(m, t, address, depth, target).Ok?
    ensures Tree(m, Walk(m, t, address, depth, target).value, target)
    decreases depth
  {
    if depth > target {
      var w := m[t][Index(address, depth)];
      ChildOf(m, t, address, depth);
      WalkIsTree(m, w.address, address, depth - 1, target);
    }
  }

  // ---------------------------------------------------------------- adding a page

  /** A zeroed page: `Decode(0)` throughout. */
  function Zeros(): seq<Entry> { seq(ENTRIES, i => Missing) }

  ghost predicate Extends(m: Memory, n: Memory) {
    forall t :: t in m ==> t in n && n[t] == m[t]
  }

  /** More pages change nothing about the tables that exist. */
  lemma {:induction false} MorePagesKeepTree(m: Memory, n: Memory, t: nat, depth: nat)
    requires Extends(m, n) && depth <= ROOT_DEPTH && Tree(m, t, depth)
    ensures Tree(n, t, depth)
    decreases depth
  {
    if depth > 1 {
      forall i | 0 <= i < Slots(depth) ensures Child(n, n[t][i], depth) {
        assert Child(m, m[t][i], depth);
        if m[t][i].Table? { MorePagesKeepTree(m, n, m[t][i].address, depth - 1); }
      }
    }
  }

  lemma {:induction false} MorePagesKeepSearch(m: Memory, n: Memory, t: nat, address: UserAddress, depth: nat, leaf: nat)
    requires Extends(m, n) && 1 <= leaf && depth <= ROOT_DEPTH && Tree(m, t, depth) && Tree(n, t, depth)
    ensures Search(n, t, address, depth, leaf) == Search(m, t, address, depth, leaf)
    decreases depth
  {
    if depth > leaf {
      var w := m[t][Index(address, depth)];
      if w.Table? {
        ChildOf(m, t, address, depth);
        ChildOf(n, t, address, depth);
        MorePagesKeepSearch(m, n, w.address, address, depth - 1, leaf);
      }
    }
  }

  // ---------------------------------------------------------------- linking it

  /** Entry `i` of page `p` was invalid and now, as `w`, leads to an empty page. */
  ghost predicate Links(m: Memory, n: Memory, p: nat, i: nat, w: Entry) {
    && p in m && |m[p]| == ENTRIES && i < ENTRIES && m[p][i].Missing?
    && w.Table? && w.address != 0 && w.address != p
    && w.address in m && m[w.address] == Zeros()
    && n == m[p := WithEntry(m[p], i, w)]
  }

  lemma EmptyTree(m: Memory, z: nat, depth: nat)
    requires z in m && m[z] == Zeros()
    ensures Tree(m, z, depth)
  {
    if depth > 1 {
      forall i | 0 <= i < Slots(depth) ensures Child(m, m[z][i], depth) {}
    }
  }

  lemma {:induction false} LinkKeepsTree(m: Memory, n: Memory, p: nat, i: nat, w: Entry, t: nat, depth: nat)
    requires Links(m, n, p, i, w) && depth <= ROOT_DEPTH && Tree(m, t, depth)
    ensures Tree(n, t, depth)
    decreases depth
  {
    if depth > 1 {
      forall k | 0 <= k < Slots(depth) ensures Child(n, n[t][k], depth) {
        if t == p && k == i {
          EmptyTree(n, w.address, depth - 1);
        } else {
          assert Child(m, m[t][k], depth);
          if m[t][k].Table? { LinkKeepsTree(m, n, p, i, w, m[t][k].address, depth - 1); }
        }
      }
    }
  }

  /** A search answers as before, or lower. */
  ghost predicate Better(before: Result<nat>, after: Result<nat>) {
    after == before || (before.Ok? && after.Ok? && after.value < before.value)
  }

  function NextAnswer(d: nat, leaf: nat): nat { if d > leaf then d - 1 else 0 }

  lemma {:induction false} LinkImproves(m: Memory, n: Memory, p: nat, i: nat, w: Entry, t: nat, address: UserAddress, depth: nat, leaf: nat)
    requires Links(m, n, p, i, w) && 1 <= leaf && depth <= ROOT_DEPTH && Tree(m, t, depth) && Tree(n, t, depth)
    ensures Better(Search(m, t, address, depth, leaf), Search(n, t, address, depth, leaf))
    decreases depth
  {
    if depth > leaf {
      var k := Index(address, depth);
      if t == p && k == i {
        ChildOf(n, t, address, depth);
        EmptySearch(n, w.address, address, depth - 1, leaf);
      } else {
        ChildOf(m, t, address, depth);
        ChildOf(n, t, address, depth);
        if m[t][k].Table? { LinkImproves(m, n, p, i, w, m[t][k].address, address, depth - 1, leaf); }
      }
    }
  }

  lemma EmptySearch(m: Memory, z: nat, address: UserAddress, depth: nat, leaf: nat)
    requires 1 <= leaf && depth <= ROOT_DEPTH && Tree(m, z, depth) && m[z] == Zeros()
    ensures Search(m, z, address, depth, leaf) == Ok(NextAnswer(depth, leaf))
  {
  }

  // ---------------------------------------------------------------- search and map fit together

  /** Where a search stops: tables above are present, and the next entry is missing. */
  lemma {:induction false} SearchStops(m: Memory, t: nat, address: UserAddress, depth: nat, leaf: nat, target: nat)
    requires 1 <= leaf && depth <= ROOT_DEPTH && Tree(m, t, depth) && 2 <= target <= depth
    requires Search(m, t, address, depth, leaf).Ok? && Search(m, t, address, depth, leaf).value > 0
    ensures var d := Search(m, t, address, depth, leaf).value; var found := Walk(m, t, address, depth, target);
      && leaf <= d < depth
      && if target <= d then found == Err(NoSuchPageTable)
         else found.Ok? && found.value in m && |m[found.value]| == ENTRIES
              && (m[found.value][Index(address, target)].Missing? <==> target == d + 1)
    decreases depth
  {
    var w := m[t][Index(address, depth)];
    ChildOf(m, t, address, depth);
    if w.Table? && target < depth {
      SearchStops(m, w.address, address, depth - 1, leaf, target);
    } else if w.Table? && depth > 2 {
      SearchStops(m, w.address, address, depth - 1, leaf, 2);
    }
  }

  /** A table can be mapped at the depth a search names and at no other. */
  lemma MapsExactlyWhereSearchPoints(m: Memory, root: nat, address: UserAddress, leaf: nat, table: nat, e: nat)
    requires 1 <= leaf && Tree(m, root, ROOT_DEPTH) && table > 0 && table % PAGE_SIZE == 0
    requires Search(m, root, address, ROOT_DEPTH, leaf).Ok? && Search(m, root, address, ROOT_DEPTH, leaf).value > 0
    ensures MapPageTable(m, root, table, e, address).Ok? <==> e == Search(m, root, address, ROOT_DEPTH, leaf).value
  {
    var d := Search(m, root, address, ROOT_DEPTH, leaf).value;
    SearchStops(m, root, address, ROOT_DEPTH, leaf, ROOT_DEPTH);
    if 1 <= e < ROOT_DEPTH { SearchStops(m, root, address, ROOT_DEPTH, leaf, e + 1); }
  }

  lemma {:induction false} LinkAnswers(m: Memory, n: Memory, p: nat, i: nat, w: Entry, t: nat, address: UserAddress, depth: nat, leaf: nat, d: nat)
    requires Links(m, n, p, i, w) && 1 <= leaf && depth <= ROOT_DEPTH && Tree(m, t, depth) && Tree(n, t, depth)
    requires Search(m, t, address, depth, leaf) == Ok(d) && 0 < d < depth
    requires Walk(m, t, address, depth, d + 1) == Ok(p) && i == Index(address, d + 1)
    ensures Search(n, t, address, depth, leaf) == Ok(NextAnswer(d, leaf))
    decreases depth
  {
    var k := Index(address, depth);
    if depth == d + 1 {
      ChildOf(n, t, address, depth);
      EmptySearch(n, w.address, address, depth - 1, leaf);
    } else {
      ChildOf(m, t, address, depth);
      ChildOf(n, t, address, depth);
      var next := m[t][k].address;
      if depth - 1 <= d { SearchStops(m, t, address, depth, leaf, depth); }
      LinkAnswers(m, n, p, i, w, next, address, depth - 1, leaf, d);
    }
  }

  lemma {:induction false} MorePagesKeepWalk(m: Memory, n: Memory, t: nat, address: UserAddress, depth: nat, target: nat)
    requires Extends(m, n) && 1 <= target && depth <= ROOT_DEPTH && Tree(m, t, depth) && Tree(n, t, depth)
    ensures Walk(n, t, address, depth, target) == Walk(m, t, address, depth, target)
    decreases depth
  {
    if depth > target {
      var w := m[t][Index(address, depth)];
      if w.Table? {
        ChildOf(m, t, address, depth);
        ChildOf(n, t, address, depth);
        MorePagesKeepWalk(m, n, w.address, address, depth - 1, target);
      }
    }
  }

  /** The memory with a fresh empty table linked where a search for `address` stopped at `d`. */
  ghost predicate Grown(m: Memory, n: Memory, root: nat, address: UserAddress, leaf: nat, d: nat)
    requires 1 <= leaf && Tree(m, root, ROOT_DEPTH)
  {
    && Tree(n, root, ROOT_DEPTH)
    && Search(n, root, address, ROOT_DEPTH, leaf) == Ok(NextAnswer(d, leaf))
    && forall b: UserAddress :: Better(Search(m, root, b, ROOT_DEPTH, leaf), Search(n, root, b, ROOT_DEPTH, leaf))
  }

  /** Mapping a fresh zeroed table where the search points succeeds, lowers the answer and spoils no other. */
  lemma MapGrows(m: Memory, root: nat, address: UserAddress, leaf: nat, d: nat, z: nat)
    requires 1 <= leaf && Tree(m, root, ROOT_DEPTH) && IsPage(z) && z !in m
    requires Search(m, root, address, ROOT_DEPTH, leaf) == Ok(d) && d > 0
    ensures Tree(m[z := Zeros()], root, ROOT_DEPTH)
    ensures var r := MapPageTable(m[z := Zeros()], root, z, d, address);
      r.Ok? && Grown(m, r.value, root, address, leaf, d) && forall t :: t in r.value <==> t in m || t == z
  {
    var m1 := m[z := Zeros()];
    MorePagesKeepTree(m, m1, root, ROOT_DEPTH);
    MorePagesKeepSearch(m, m1, root, address, ROOT_DEPTH, leaf);
    SearchStops(m, root, address, ROOT_DEPTH, leaf, ROOT_DEPTH);
    SearchStops(m, root, address, ROOT_DEPTH, leaf, d + 1);
    MorePagesKeepWalk(m, m1, root, address, ROOT_DEPTH, d + 1);
    var p := Walk(m, root, address, ROOT_DEPTH, d + 1).value;
    var i := Index(address, d + 1);
    DescriptorReadsBack(z);
    var w := Decode(TableDescriptor(z));
    var n := MapPageTable(m1, root, z, d, address).value;
    assert Links(m1, n, p, i, w);
    LinkKeepsTree(m1, n, p, i, w, root, ROOT_DEPTH);
    LinkAnswers(m1, n, p, i, w, root, address, ROOT_DEPTH, leaf, d);
    forall b: UserAddress ensures Better(Search(m, root, b, ROOT_DEPTH, leaf), Search(n, root, b, ROOT_DEPTH, leaf)) {
      MorePagesKeepSearch(m, m1, root, b, ROOT_DEPTH, leaf);
      LinkImproves(m1, n, p, i, w, root, b, ROOT_DEPTH, leaf);
    }
  }

  /** Addresses in one page are treated alike. */
  lemma {:induction false} SamePageSameSearch(m: Memory, t: nat, a: UserAddress, b: UserAddress, depth: nat, leaf: nat)
    requires 1 <= leaf && depth <= ROOT_DEPTH && Tree(m, t, depth) && a / PAGE_SIZE == b / PAGE_SIZE
    ensures Search(m, t, a, depth, leaf) == Search(m, t, b, depth, leaf)
    decreases depth
  {
    if depth > leaf {
      var w := m[t][Index(a, depth)];
      if w.Table? {
        ChildOf(m, t, a, depth);
        SamePageSameSearch(m, w.address, a, b, depth - 1, leaf);
      }
    }
  }

  lemma WholePage(m: Memory, root: nat, address: UserAddress)
    requires Tree(m, root, ROOT_DEPTH) && address % PAGE_SIZE == 0 && Search(m, root, address, ROOT_DEPTH, 1) == Ok(0)
    ensures forall b: UserAddress :: address <= b < address + PAGE_SIZE ==> Search(m, root, b, ROOT_DEPTH, 1) == Ok(0)
  {
    forall b: UserAddress | address <= b < address + PAGE_SIZE ensures Search(m, root, b, ROOT_DEPTH, 1) == Ok(0) {
      assert b / PAGE_SIZE == address / PAGE_SIZE;
      SamePageSameSearch(m, root, address, b, ROOT_DEPTH, 1);
    }
  }

  ghost predicate AllBetter(m: Memory, n: Memory, root: nat)
    requires Tree(m, root, ROOT_DEPTH) && Tree(n, root, ROOT_DEPTH)
  {
    forall b: UserAddress :: Better(Search(m, root, b, ROOT_DEPTH, 1), Search(n, root, b, ROOT_DEPTH, 1))
  }

  lemma BetterTwice(m: Memory, n: Memory, o: Memory, root: nat)
    requires Tree(m, root, ROOT_DEPTH) && Tree(n, root, ROOT_DEPTH) && Tree(o, root, ROOT_DEPTH)
    requires AllBetter(m, n, root) && AllBetter(n, o, root)
    ensures AllBetter(m, o, root)
  {
    forall b: UserAddress ensures Better(Search(m, root, b, ROOT_DEPTH, 1), Search(o, root, b, ROOT_DEPTH, 1)) {
      assert Better(Search(m, root, b, ROOT_DEPTH, 1), Search(n, root, b, ROOT_DEPTH, 1));
    }
  }

  // ---------------------------------------------------------------- how many tables are needed

  /** The number of the stretch of memory, one for each table of a depth, in which an address lies. */
  function Region(address: nat, depth: nat): nat { Shift(address / PAGE_SIZE, depth) }

  /** Tables of depth 1, 2 and 3 for everything up to `last`: one for each 2 MB, 1 GB and 512 GB begun. */
  function TablesFor(last: nat): nat {
    Region(last, 1) + 1 + (Region(last, 2) + 1) + (Region(last, 3) + 1)
  }

  lemma {:induction false} ShiftStep(page: nat, levels: nat)
    ensures Shift(page, levels) <= Shift(page + 1, levels) <= Shift(page, levels) + 1
    decreases levels
  {
    if levels > 0 {
      ShiftStep(page / ENTRIES, levels - 1);
      assert (page + 1) / ENTRIES == page / ENTRIES || (page + 1) / ENTRIES == page / ENTRIES + 1;
    }
  }

  lemma {:induction false} ShiftMonotone(a: nat, b: nat, levels: nat)
    requires a <= b
    ensures Shift(a, levels) <= Shift(b, levels)
    decreases levels
  {
    if levels > 0 { ShiftMonotone(a / ENTRIES, b / ENTRIES, levels - 1); }
  }

  lemma {:induction false} ShiftAgrees(a: nat, b: nat, low: nat, high: nat)
    requires low <= high && Shift(a, low) == Shift(b, low)
    ensures Shift(a, high) == Shift(b, high)
    decreases high
  {
    if low > 0 {
      ShiftAgrees(a / ENTRIES, b / ENTRIES, low - 1, high - 1);
    }
  }

  /** The table of depth `d` on the way to an address, or one above it, is missing. */
  ghost predicate Lacks(m: Memory, t: nat, address: UserAddress, depth: nat, d: nat)
    requires depth <= ROOT_DEPTH && Tree(m, t, depth)
  {
    var r := Search(m, t, address, depth, 1);
    r.Ok? && r.value >= d
  }

  /** Addresses of one region share the table for it. */
  lemma {:induction false} SharedTable(m: Memory, t: nat, a: UserAddress, b: UserAddress, depth: nat, d: nat)
    requires 1 <= d && depth <= ROOT_DEPTH && Tree(m, t, depth) && Region(a, d) == Region(b, d)
    requires Search(m, t, a, depth, 1).Ok? && !Lacks(m, t, a, depth, d)
    ensures !Lacks(m, t, b, depth, d)
    decreases depth
  {
    if depth > d {
      ShiftAgrees(a / PAGE_SIZE, b / PAGE_SIZE, d, depth - 1);
      assert Index(a, depth) == Index(b, depth);
      var w := m[t][Index(a, depth)];
      if w.Table? {
        ChildOf(m, t, a, depth);
        SharedTable(m, w.address, a, b, depth - 1, d);
      }
    } else {
      SearchBelow(m, t, b, depth);
    }
  }

  lemma {:induction false} SearchBelow(m: Memory, t: nat, address: UserAddress, depth: nat)
    requires depth <= ROOT_DEPTH && Tree(m, t, depth)
    ensures Search(m, t, address, depth, 1).Ok? ==> Search(m, t, address, depth, 1).value < (if depth == 0 then 1 else depth)
    decreases depth
  {
    if depth > 1 {
      var w := m[t][Index(address, depth)];
      if w.Table? {
        ChildOf(m, t, address, depth);
        SearchBelow(m, w.address, address, depth - 1);
      }
    }
  }

  /** `used` tables were mapped before or for `address`: at most one for each region of each depth. */
  ghost predicate Frugal(m: Memory, root: nat, address: UserAddress, used: nat)
    requires Tree(m, root, ROOT_DEPTH)
  {
    exists c: Counts :: c.one + c.two + c.three == used && FrugalWith(m, root, address, c)
  }

  /** How many tables of each depth were mapped. */
  datatype Counts = Counts(one: nat, two: nat, three: nat)

  ghost predicate FrugalWith(m: Memory, root: nat, address: UserAddress, c: Counts)
    requires Tree(m, root, ROOT_DEPTH)
  {
    FrugalAt(m, root, address, 1, c.one) && FrugalAt(m, root, address, 2, c.two) && FrugalAt(m, root, address, 3, c.three)
  }

  ghost predicate FrugalAt(m: Memory, root: nat, address: UserAddress, d: nat, count: nat)
    requires Tree(m, root, ROOT_DEPTH)
  {
    count <= Region(address, d) + if Lacks(m, root, address, ROOT_DEPTH, d) then 0 else 1
  }

  lemma NextPageFrugal(m: Memory, root: nat, address: UserAddress, d: nat, count: nat)
    requires Tree(m, root, ROOT_DEPTH) && 1 <= d && address + PAGE_SIZE < USER_END && FrugalAt(m, root, address, d, count)
    requires Search(m, root, address, ROOT_DEPTH, 1) == Ok(0)
    ensures FrugalAt(m, root, address + PAGE_SIZE, d, count)
  {
    var next := address + PAGE_SIZE;
    assert next / PAGE_SIZE == address / PAGE_SIZE + 1;
    ShiftStep(address / PAGE_SIZE, d);
    if Region(next, d) == Region(address, d) { SharedTable(m, root, address, next, ROOT_DEPTH, d); }
  }

  lemma NextPage(m: Memory, root: nat, address: UserAddress, used: nat)
    requires Tree(m, root, ROOT_DEPTH) && address + PAGE_SIZE < USER_END && Frugal(m, root, address, used)
    requires Search(m, root, address, ROOT_DEPTH, 1) == Ok(0)
    ensures Frugal(m, root, address + PAGE_SIZE, used)
  {
    var c: Counts :| c.one + c.two + c.three == used && FrugalWith(m, root, address, c);
    NextPageFrugal(m, root, address, 1, c.one);
    NextPageFrugal(m, root, address, 2, c.two);
    NextPageFrugal(m, root, address, 3, c.three);
    assert FrugalWith(m, root, address + PAGE_SIZE, c);
  }

  lemma OneMoreTable(m: Memory, n: Memory, root: nat, address: UserAddress, d: nat, used: nat)
    requires Tree(m, root, ROOT_DEPTH) && Tree(n, root, ROOT_DEPTH) && Frugal(m, root, address, used)
    requires Search(m, root, address, ROOT_DEPTH, 1) == Ok(d) && 1 <= d <= 3
    requires Search(n, root, address, ROOT_DEPTH, 1) == Ok(NextAnswer(d, 1))
    ensures Frugal(n, root, address, used + 1)
  {
    var c: Counts :| c.one + c.two + c.three == used && FrugalWith(m, root, address, c);
    MappedFrugal(m, n, root, address, d, 1, c.one);
    MappedFrugal(m, n, root, address, d, 2, c.two);
    MappedFrugal(m, n, root, address, d, 3, c.three);
    var e := if d == 1 then c.(one := c.one + 1) else if d == 2 then c.(two := c.two + 1) else c.(three := c.three + 1);
    assert e.one + e.two + e.three == used + 1 && FrugalWith(n, root, address, e);
  }

  /** One more table, of depth `d`, where the search said so. */
  lemma MappedFrugal(m: Memory, n: Memory, root: nat, address: UserAddress, d: nat, e: nat, count: nat)
    requires Tree(m, root, ROOT_DEPTH) && Tree(n, root, ROOT_DEPTH) && FrugalAt(m, root, address, e, count)
    requires Search(m, root, address, ROOT_DEPTH, 1) == Ok(d) && d > 0 && e >= 1
    requires Search(n, root, address, ROOT_DEPTH, 1) == Ok(NextAnswer(d, 1))
    ensures FrugalAt(n, root, address, e, if e == d then count + 1 else count)
  {
  }

  /** Out of tables with one still missing: fewer pages were given than there are regions. */
  lemma FrugalRunsShort(m: Memory, root: nat, address: UserAddress, last: nat, used: nat, d: nat)
    requires Tree(m, root, ROOT_DEPTH) && Frugal(m, root, address, used) && address <= last
    requires Search(m, root, address, ROOT_DEPTH, 1) == Ok(d) && 1 <= d <= 3
    ensures used < TablesFor(last)
  {
    ShiftMonotone(address / PAGE_SIZE, last / PAGE_SIZE, 1);
    ShiftMonotone(address / PAGE_SIZE, last / PAGE_SIZE, 2);
    ShiftMonotone(address / PAGE_SIZE, last / PAGE_SIZE, 3);
  }

  // ---------------------------------------------------------------- in place

  datatype InitResult = AllReachable | OutOfPages | Blocked

  /** The first `used` of the given pages are tables now, and the others are still free. */
  ghost predicate Taken(m: Memory, pages: seq<nat>, used: nat) {
    forall i :: 0 <= i < |pages| ==> (pages[i] in m <==> i < used)
  }

  /** Every page below `address` has its tables. */
  ghost predicate ReachedBelow(m: Memory, root: nat, address: nat)
    requires Tree(m, root, ROOT_DEPTH)
  {
    forall b: UserAddress :: b < address ==> Search(m, root, b, ROOT_DEPTH, 1) == Ok(0)
  }

  lemma PageDone(m: Memory, root: nat, address: UserAddress, n: nat, used: nat)
    requires Tree(m, root, ROOT_DEPTH) && address == n * PAGE_SIZE && address + PAGE_SIZE < USER_END
    requires Frugal(m, root, address, used) && ReachedBelow(m, root, address)
    requires Search(m, root, address, ROOT_DEPTH, 1) == Ok(0)
    ensures Frugal(m, root, address + PAGE_SIZE, used) && ReachedBelow(m, root, address + PAGE_SIZE)
  {
    WholePage(m, root, address);
    forall b: UserAddress | b < address + PAGE_SIZE ensures Search(m, root, b, ROOT_DEPTH, 1) == Ok(0) {}
    NextPage(m, root, address, used);
  }

  lemma SearchInRange(m: Memory, root: nat, address: UserAddress)
    requires Tree(m, root, ROOT_DEPTH)
    requires Search(m, root, address, ROOT_DEPTH, 1).Ok? && Search(m, root, address, ROOT_DEPTH, 1).value > 0
    ensures Search(m, root, address, ROOT_DEPTH, 1).value <= 3 && Lacks(m, root, address, ROOT_DEPTH, 1)
  {
    SearchStops(m, root, address, ROOT_DEPTH, 1, ROOT_DEPTH);
  }

  lemma StillReached(m: Memory, n: Memory, root: nat, address: nat)
    requires Tree(m, root, ROOT_DEPTH) && Tree(n, root, ROOT_DEPTH) && AllBetter(m, n, root) && ReachedBelow(m, root, address)
    ensures ReachedBelow(n, root, address)
  {
    forall b: UserAddress | b < address ensures Search(n, root, b, ROOT_DEPTH, 1) == Ok(0) {
      assert Better(Search(m, root, b, ROOT_DEPTH, 1), Search(n, root, b, ROOT_DEPTH, 1));
    }
  }

  class Tables {
    var memory: Memory

    constructor (memory: Memory)
      ensures this.memory == memory
    {
      this.memory := memory;
    }

    method SearchUnsetDepth(root: nat, address: UserAddress, leaf: nat) returns (r: Result<nat>)
      requires 1 <= leaf && Tree(memory, root, ROOT_DEPTH)
      ensures r == Search(memory, root, address, ROOT_DEPTH, leaf)
    {
      var table: nat, depth: nat := root, ROOT_DEPTH;
      while depth > leaf
        invariant depth <= ROOT_DEPTH && Tree(memory, table, depth)
        invariant Search(memory, table, address, depth, leaf) == Search(memory, root, address, ROOT_DEPTH, leaf)
      {
        var entry := memory[table][Index(address, depth)];
        if entry.Missing? { return Ok(depth - 1); }
        if entry.Leaf? { return Err(AlreadyMapped); }
        ChildOf(memory, table, address, depth);
        table, depth := entry.address, depth - 1;
      }
      r := Ok(0);
    }

    method TraverseEntry(root: nat, address: UserAddress, target: nat) returns (r: Result<nat>)
      requires 1 <= target <= ROOT_DEPTH && Tree(memory, root, ROOT_DEPTH)
      ensures r == Walk(memory, root, address, ROOT_DEPTH, target)
    {
      var table: nat, depth: nat := root, ROOT_DEPTH;
      while depth > target
        invariant depth <= ROOT_DEPTH && Tree(memory, table, depth)
        invariant Walk(memory, table, address, depth, target) == Walk(memory, root, address, ROOT_DEPTH, target)
      {
        var entry := memory[table][Index(address, depth)];
        if !entry.Table? || entry.address == 0 { return Err(NoSuchPageTable); }
        ChildOf(memory, table, address, depth);
        table, depth := entry.address, depth - 1;
      }
      r := Ok(table);
    }

    method MapTable(root: nat, table: nat, tableDepth: nat, address: UserAddress) returns (error: Option<MapError>)
      requires Tree(memory, root, ROOT_DEPTH)
      modifies this
      ensures var r := MapPageTable(old(memory), root, table, tableDepth, address);
        if r.Ok? then error.None? && memory == r.value else error == Some(r.error) && memory == old(memory)
    {
      if table == 0 || table % PAGE_SIZE != 0 { return Some(InvalidPageTable); }
      if tableDepth < 1 || tableDepth >= ROOT_DEPTH { return Some(IllegalDepth); }
      var found := TraverseEntry(root, address, tableDepth + 1);
      if found.Err? { return Some(found.error); }
      WalkIsTree(memory, root, address, ROOT_DEPTH, tableDepth + 1);
      var p, i := found.value, Index(address, tableDepth + 1);
      if !memory[p][i].Missing? { return Some(AlreadyMapped); }
      memory := memory[p := WithEntry(memory[p], i, Decode(TableDescriptor(table)))];
      error := None;
    }

    /** A page is cleared and mapped as the table that the search found missing. */
    method AddTable(root: nat, address: UserAddress, depth: nat, page: nat)
      requires Tree(memory, root, ROOT_DEPTH) && IsPage(page) && page !in memory
      requires Search(memory, root, address, ROOT_DEPTH, 1) == Ok(depth) && depth > 0
      modifies this
      ensures Grown(old(memory), memory, root, address, 1, depth) && forall t :: t in memory <==> t in old(memory) || t == page
    {
      MapGrows(memory, root, address, 1, depth, page);
      memory := memory[page := Zeros()];
      var _ := MapTable(root, page, depth, address);
    }

    /** The next free page becomes the table that `address` lacks. */
    method Provide(root: nat, address: UserAddress, depth: nat, pages: seq<nat>, used: nat)
      requires Tree(memory, root, ROOT_DEPTH) && Distinct(pages) && used < |pages| && IsPage(pages[used])
      requires Taken(memory, pages, used) && Frugal(memory, root, address, used) && ReachedBelow(memory, root, address)
      requires Search(memory, root, address, ROOT_DEPTH, 1) == Ok(depth) && 1 <= depth <= 3
      modifies this
      ensures Tree(memory, root, ROOT_DEPTH) && AllBetter(old(memory), memory, root)
      ensures Taken(memory, pages, used + 1) && Frugal(memory, root, address, used + 1) && ReachedBelow(memory, root, address)
    {
      AddTable(root, address, depth, pages[used]);
      OneMoreTable(old(memory), memory, root, address, depth, used);
      StillReached(old(memory), memory, root, address);
    }

    /** Every page up to `last` gets its tables, out of the given free pages. */
    method ConfigureInitTables(root: nat, last: nat, pages: seq<nat>) returns (r: InitResult)
      requires Tree(memory, root, ROOT_DEPTH) && last + PAGE_SIZE < USER_END
      requires Distinct(pages) && forall i :: 0 <= i < |pages| ==> IsPage(pages[i]) && pages[i] !in memory
      modifies this
      ensures Tree(memory, root, ROOT_DEPTH)
      ensures r == AllReachable ==> forall b: UserAddress :: b <= last ==> Search(memory, root, b, ROOT_DEPTH, 1) == Ok(0)
      ensures r == Blocked ==> exists b: UserAddress :: b <= last && Search(old(memory), root, b, ROOT_DEPTH, 1).Err?
      ensures r == OutOfPages ==>
        && |pages| < TablesFor(last) && (forall i :: 0 <= i < |pages| ==> pages[i] in memory)
        && exists b: UserAddress :: b <= last && Lacks(memory, root, b, ROOT_DEPTH, 1)
      ensures AllBetter(old(memory), memory, root)
    {
      var address, used := 0, 0;
      ghost var start, n := memory, 0;
      assert FrugalWith(memory, root, 0, Counts(0, 0, 0));
      while address <= last
        invariant 0 <= address < USER_END && address == n * PAGE_SIZE && 0 <= n && 0 <= used <= |pages|
        invariant Tree(memory, root, ROOT_DEPTH)
        invariant Taken(memory, pages, used) && Frugal(memory, root, address, used) && ReachedBelow(memory, root, address)
        invariant AllBetter(start, memory, root)
        decreases last + PAGE_SIZE - address, |pages| - used
      {
        var depth := SearchUnsetDepth(root, address, 1);
        if depth.Err? {
          assert Better(Search(start, root, address, ROOT_DEPTH, 1), depth);
          return Blocked;
        }
        if depth.value == 0 {
          PageDone(memory, root, address, n, used);
          address, n := address + PAGE_SIZE, n + 1;
        } else {
          SearchInRange(memory, root, address);
          if used == |pages| {
            FrugalRunsShort(memory, root, address, last, used, depth.value);
            assert Lacks(memory, root, address, ROOT_DEPTH, 1);
            return OutOfPages;
          }
          ghost var before := memory;
          Provide(root, address, depth.value, pages, used);
          BetterTwice(start, before, memory, root);
          used := used + 1;
        }
      }
      r := AllReachable;
    }
  }
}
