/** From the memory and reserved ranges a boot loader reports to the memory map handed to the kernel. */
module BootMemory {

  const PAGE_SIZE: nat := 4096
  const WORD: nat := 0x1_0000_0000_0000_0000
  const RANGE_CAPACITY: nat := 32
  const MEMORY_MAP_CAPACITY: nat := 64

  /** The addresses from `start` up to but not including `end`. */
  datatype Range = Range(start: nat, end: nat)

  function AlignDown(x: nat): nat { x / PAGE_SIZE * PAGE_SIZE }
  function AlignUp(x: nat): nat { (x + PAGE_SIZE - 1) % WORD / PAGE_SIZE * PAGE_SIZE }

  ghost predicate Paged(r: Range) {
    r.start < r.end < WORD && r.start % PAGE_SIZE == 0 && r.end % PAGE_SIZE == 0
  }

  ghost predicate AllPaged(s: seq<Range>) {
    forall r :: r in s ==> Paged(r)
  }

  ghost predicate Holds(r: Range, x: nat) {
    r.start <= x < r.end
  }

  /** Some range contains the address. */
  ghost predicate In(s: seq<Range>, x: nat) {
    exists i :: 0 <= i < |s| && Holds(s[i], x)
  }

  ghost predicate SameUnion(s: seq<Range>, t: seq<Range>) {
    forall x: nat :: In(s, x) <==> In(t, x)
  }

  ghost predicate Sorted(s: seq<Range>) {
    forall i, j :: 0 <= i < j < |s| ==> s[i].start <= s[j].start
  }

  /** Ascending, with at least a gap between neighbours. */
  ghost predicate Separated(s: seq<Range>) {
    forall i, j :: 0 <= i < j < |s| ==> s[i].end < s[j].start
  }

  // ---------------------------------------------------------------- sorting

  lemma PermutedUnion(s: seq<Range>, t: seq<Range>)
    requires multiset(s) == multiset(t)
    ensures SameUnion(s, t) && (AllPaged(s) ==> AllPaged(t))
  {
    forall x: nat ensures In(s, x) <==> In(t, x) {
      if In(s, x) {
        var i :| 0 <= i < |s| && Holds(s[i], x);
        assert s[i] in multiset(t);
      }
      if In(t, x) {
        var i :| 0 <= i < |t| && Holds(t[i], x);
        assert t[i] in multiset(s);
      }
    }
    if AllPaged(s) {
      forall r | r in t ensures Paged(r) { assert r in multiset(s); }
    }
  }

  /** Exchange sort by start address, in place. */
  method Sort(a: array<Range>, count: nat)
    requires count <= a.Length
    modifies a
    ensures Sorted(a[..count]) && multiset(a[..count]) == multiset(old(a[..count])) && a[count..] == old(a[count..])
  {
    var outer := 0;
    while outer < count
      invariant outer <= count && multiset(a[..count]) == multiset(old(a[..count])) && a[count..] == old(a[count..])
      invariant forall i, j :: 0 <= i < outer && i < j < count ==> a[i].start <= a[j].start
    {
      var inner := outer + 1;
      while inner < count
        invariant outer < inner <= count && multiset(a[..count]) == multiset(old(a[..count])) && a[count..] == old(a[count..])
        invariant forall i, j :: 0 <= i < outer && i < j < count ==> a[i].start <= a[j].start
        invariant forall j :: outer < j < inner ==> a[outer].start <= a[j].start
      {
        if a[inner].start < a[outer].start {
          Swap(a, count, outer, inner);
        }
        inner := inner + 1;
      }
      outer := outer + 1;
    }
  }

  method Swap(a: array<Range>, count: nat, i: nat, j: nat)
    requires i < j < count <= a.Length
    modifies a
    ensures a[i] == old(a[j]) && a[j] == old(a[i]) && forall k :: 0 <= k < a.Length && k != i && k != j ==> a[k] == old(a[k])
    ensures multiset(a[..count]) == multiset(old(a[..count])) && a[count..] == old(a[count..])
  {
    ghost var s := a[..count];
    var temporary := a[i];
    a[i] := a[j];
    a[j] := temporary;
    assert a[..count] == s[i := s[j]][j := s[i]];
  }

  // ---------------------------------------------------------------- merging

  lemma UnionSnoc(s: seq<Range>, r: Range, x: nat)
    ensures In(s + [r], x) <==> In(s, x) || Holds(r, x)
  {
    var t := s + [r];
    if In(t, x) {
      var i :| 0 <= i < |t| && Holds(t[i], x);
      if i < |s| { assert Holds(s[i], x); }
    }
    if In(s, x) {
      var i :| 0 <= i < |s| && Holds(s[i], x);
      assert Holds(t[i], x);
    }
    if Holds(r, x) { assert Holds(t[|s|], x); }
  }

  /** A range that begins inside or at the end of the last one is absorbed by it. */
  lemma UnionAbsorb(s: seq<Range>, last: Range, r: Range, x: nat)
    requires last.start <= r.start <= last.end
    ensures In(s + [Range(last.start, if r.end > last.end then r.end else last.end)], x) <==> In(s + [last], x) || Holds(r, x)
  {
    UnionSnoc(s, last, x);
    UnionSnoc(s, Range(last.start, if r.end > last.end then r.end else last.end), x);
  }

  /** What has been merged: the union of the ranges read, separated and not beyond the next one. */
  ghost predicate Merged(s: seq<Range>, index: nat, out: seq<Range>)
    requires index <= |s|
  {
    && SameUnion(out, s[..index]) && Separated(out) && AllPaged(out)
    && (forall i, j :: 0 <= i < |out| && index <= j < |s| ==> out[i].start <= s[j].start)
  }

  /** The merged ranges with one more, which starts no earlier than they do. */
  function Absorb(out: seq<Range>, r: Range): seq<Range> {
    var k := |out| - 1;
    if out == [] || out[k].end < r.start then out + [r]
    else out[..k] + [Range(out[k].start, if r.end > out[k].end then r.end else out[k].end)]
  }

  lemma MergeStep(s: seq<Range>, index: nat, out: seq<Range>)
    requires index < |s| && Sorted(s) && AllPaged(s) && Merged(s, index, out)
    ensures Merged(s, index + 1, Absorb(out, s[index]))
  {
    var r := s[index];
    var k := |out| - 1;
    assert s[..index + 1] == s[..index] + [r];
    assert Paged(r);
    if out == [] || out[k].end < r.start {
      forall x: nat ensures In(out + [r], x) <==> In(s[..index + 1], x) {
        UnionSnoc(out, r, x);
        UnionSnoc(s[..index], r, x);
      }
    } else {
      var last := out[k];
      var wide := Range(last.start, if r.end > last.end then r.end else last.end);
      assert out == out[..k] + [last];
      assert Paged(last);
      forall x: nat ensures In(out[..k] + [wide], x) <==> In(s[..index + 1], x) {
        UnionAbsorb(out[..k], last, r, x);
        UnionSnoc(s[..index], r, x);
      }
    }
  }

  /** Neighbours that touch or overlap become one, in place. */
  method Merge(a: array<Range>, count: nat) returns (merged: nat)
    requires count <= a.Length && Sorted(a[..count]) && AllPaged(a[..count])
    modifies a
    ensures merged <= count && Separated(a[..merged]) && AllPaged(a[..merged])
    ensures SameUnion(a[..merged], old(a[..count])) && a[count..] == old(a[count..])
  {
    ghost var s := a[..count];
    merged := 0;
    var index := 0;
    while index < count
      invariant merged <= index <= count && Merged(s, index, a[..merged])
      invariant forall k :: index <= k < count ==> a[k] == s[k]
      invariant a[count..] == old(a[count..])
    {
      MergeStep(s, index, a[..merged]);
      merged := MergeOne(a, merged, index);
      index := index + 1;
    }
    assert s[..count] == s;
  }

  method MergeOne(a: array<Range>, merged: nat, index: nat) returns (m: nat)
    requires merged <= index < a.Length
    modifies a
    ensures m <= index + 1 && a[..m] == Absorb(old(a[..merged]), old(a[index]))
    ensures forall k :: index < k < a.Length ==> a[k] == old(a[k])
  {
    if merged == 0 || a[merged - 1].end < a[index].start {
      a[merged] := a[index];
      m := merged + 1;
    } else {
      if a[index].end > a[merged - 1].end {
        a[merged - 1] := Range(a[merged - 1].start, a[index].end);
      }
      m := merged;
    }
  }

  method SortAndMerge(a: array<Range>, count: nat) returns (merged: nat)
    requires count <= a.Length && AllPaged(a[..count])
    modifies a
    ensures merged <= count && Separated(a[..merged]) && AllPaged(a[..merged])
    ensures SameUnion(a[..merged], old(a[..count])) && a[count..] == old(a[count..])
  {
    Sort(a, count);
    PermutedUnion(old(a[..count]), a[..count]);
    merged := Merge(a, count);
  }

  // ---------------------------------------------------------------- the map

  datatype Kind = Device | Free | Reserved

  datatype MapEntry = MapEntry(start: nat, pages: nat, kind: Kind)
  {
    function End(): nat { start + pages * PAGE_SIZE }
  }

  /** One more stretch at the end of the map, joined with the last entry if it continues it. */
  function AddEntry(entries: seq<MapEntry>, start: nat, end: nat, kind: Kind): seq<MapEntry> {
    var s, e := AlignUp(start), AlignDown(end);
    var k := |entries| - 1;
    if s >= e || |entries| >= MEMORY_MAP_CAPACITY then entries
    else if entries != [] && entries[k].kind == kind && entries[k].End() == s
    then entries[..k] + [entries[k].(pages := entries[k].pages + (e - s) / PAGE_SIZE)]
    else entries + [MapEntry(s, (e - s) / PAGE_SIZE, kind)]
  }

  function MapEnd(entries: seq<MapEntry>): nat {
    if entries == [] then 0 else entries[|entries| - 1].End()
  }

  /** What an address is, by the reported ranges. */
  ghost function KindOf(ram: seq<Range>, reserved: seq<Range>, x: nat): Kind {
    if !In(ram, x) then Device else if In(reserved, x) then Reserved else Free
  }

  ghost predicate Uniform(ram: seq<Range>, reserved: seq<Range>, start: nat, end: nat, kind: Kind) {
    forall x: nat :: start <= x < end ==> KindOf(ram, reserved, x) == kind
  }

  /** Entry `i` is right about its addresses and follows its predecessor, which is of another kind. */
  ghost predicate EntryOk(entries: seq<MapEntry>, ram: seq<Range>, reserved: seq<Range>, i: int)
    requires 0 <= i < |entries|
  {
    && entries[i].pages > 0 && entries[i].start % PAGE_SIZE == 0
    && Uniform(ram, reserved, entries[i].start, entries[i].End(), entries[i].kind)
    && (if i == 0 then entries[i].start == 0
        else entries[i].start == entries[i - 1].End() && entries[i].kind != entries[i - 1].kind)
  }

  /** Without gaps or overlaps the entries say what each address up to the end of the map is. */
  ghost predicate Drawn(entries: seq<MapEntry>, ram: seq<Range>, reserved: seq<Range>) {
    |entries| <= MEMORY_MAP_CAPACITY && forall i :: 0 <= i < |entries| ==> EntryOk(entries, ram, reserved, i)
  }

  /** Drawn up to `f`, or full before. */
  ghost predicate DrawnTo(entries: seq<MapEntry>, ram: seq<Range>, reserved: seq<Range>, f: nat) {
    Drawn(entries, ram, reserved) && MapEnd(entries) <= f && (|entries| < MEMORY_MAP_CAPACITY ==> MapEnd(entries) == f)
  }

  lemma AddKeeps(entries: seq<MapEntry>, ram: seq<Range>, reserved: seq<Range>, start: nat, end: nat, kind: Kind)
    requires DrawnTo(entries, ram, reserved, start) && Paged(Range(start, end))
    requires Uniform(ram, reserved, start, end, kind)
    ensures DrawnTo(AddEntry(entries, start, end, kind), ram, reserved, end)
  {
    if |entries| < MEMORY_MAP_CAPACITY {
      assert AlignUp(start) == start && AlignDown(end) == end;
      var n := AddEntry(entries, start, end, kind);
      var pages := (end - start) / PAGE_SIZE;
      assert pages > 0 && start + pages * PAGE_SIZE == end;
      forall i | 0 <= i < |n| ensures EntryOk(n, ram, reserved, i) {
        if i < |entries| { assert EntryOk(entries, ram, reserved, i); }
      }
    }
  }

  /** Every address below the end of the map lies in one entry, and only one. */
  lemma {:induction false} OneEntryEach(entries: seq<MapEntry>, ram: seq<Range>, reserved: seq<Range>, x: nat)
    requires Drawn(entries, ram, reserved) && x < MapEnd(entries)
    ensures exists i :: 0 <= i < |entries| && entries[i].start <= x < entries[i].End()
    ensures forall i, j :: 0 <= i < j < |entries| ==> entries[i].End() <= entries[j].start
    decreases |entries|
  {
    var k := |entries| - 1;
    assert EntryOk(entries, ram, reserved, k);
    if x < entries[k].start {
      var front := entries[..k];
      forall i | 0 <= i < |front| ensures EntryOk(front, ram, reserved, i) { assert EntryOk(entries, ram, reserved, i); }
      OneEntryEach(front, ram, reserved, x);
    }
    Ascending(entries, ram, reserved);
  }

  lemma {:induction false} Ascending(entries: seq<MapEntry>, ram: seq<Range>, reserved: seq<Range>)
    requires Drawn(entries, ram, reserved)
    ensures forall i, j :: 0 <= i < j < |entries| ==> entries[i].End() <= entries[j].start
    decreases |entries|
  {
    if entries != [] {
      var k := |entries| - 1;
      var front := entries[..k];
      forall i | 0 <= i < |front| ensures EntryOk(front, ram, reserved, i) { assert EntryOk(entries, ram, reserved, i); }
      Ascending(front, ram, reserved);
      forall i, j | 0 <= i < j < |entries| ensures entries[i].End() <= entries[j].start {
        assert EntryOk(entries, ram, reserved, j);
        if j == k && i < k - 1 { assert EntryOk(entries, ram, reserved, k - 1) && front[i].End() <= front[k - 1].start; }
      }
    }
  }

  // ---------------------------------------------------------------- drawing it

  ghost predicate Aligned(x: nat) { x < WORD && x % PAGE_SIZE == 0 }

  /** Within RAM range `r`, everything up to `cursor` is settled and `done` reserved ranges are behind it. */
  ghost predicate Cursor(reserved: seq<Range>, r: Range, done: nat, cursor: nat)
    requires done <= |reserved|
  {
    && r.start <= cursor <= r.end && Aligned(cursor)
    && (forall k :: 0 <= k < done ==> reserved[k].end <= cursor || reserved[k].start >= r.end || cursor == r.end)
    && (forall k :: done <= k < |reserved| ==> cursor == r.start || cursor <= reserved[k].start)
  }

  lemma InRam(ram: seq<Range>, i: nat, x: nat)
    requires i < |ram| && Holds(ram[i], x)
    ensures In(ram, x)
  {
  }

  /** From the cursor to the next reserved range, RAM is free. */
  lemma FreeStretch(ram: seq<Range>, reserved: seq<Range>, i: nat, done: nat, cursor: nat, stop: nat)
    requires i < |ram| && done <= |reserved| && Separated(reserved) && AllPaged(reserved)
    requires Cursor(reserved, ram[i], done, cursor) && stop <= ram[i].end
    requires done < |reserved| ==> stop <= reserved[done].start || reserved[done].start >= ram[i].end || stop <= cursor
    ensures Uniform(ram, reserved, cursor, stop, Free)
  {
    if done < |reserved| { assert reserved[done] in reserved; }
    forall x: nat | cursor <= x < stop ensures KindOf(ram, reserved, x) == Free {
      InRam(ram, i, x);
      forall k | 0 <= k < |reserved| ensures !Holds(reserved[k], x) {}
    }
  }

  lemma ReservedStretch(ram: seq<Range>, reserved: seq<Range>, i: nat, k: nat, start: nat, end: nat)
    requires i < |ram| && k < |reserved| && ram[i].start <= start && end <= ram[i].end
    requires reserved[k].start <= start && end <= reserved[k].end
    ensures Uniform(ram, reserved, start, end, Reserved)
  {
    forall x: nat | start <= x < end ensures KindOf(ram, reserved, x) == Reserved {
      InRam(ram, i, x);
      InRam(reserved, k, x);
    }
  }

  /** Before the first RAM range and between neighbours there is device memory. */
  lemma DeviceStretch(ram: seq<Range>, reserved: seq<Range>, i: nat, previous: nat)
    requires i < |ram| && Separated(ram) && AllPaged(ram) && previous == (if i == 0 then 0 else ram[i - 1].end)
    ensures Uniform(ram, reserved, previous, ram[i].start, Device)
  {
    assert ram[i] in ram;
    if i > 0 { assert ram[i - 1] in ram; }
    forall x: nat | previous <= x < ram[i].start ensures KindOf(ram, reserved, x) == Device {
      forall k | 0 <= k < |ram| ensures !Holds(ram[k], x) {}
    }
  }

  function Later(a: nat, b: nat): nat { if a > b then a else b }

  /** The reserved range `k` inside RAM range `i` is passed: free memory before it, then its own. */
  method PassReserved(entries: seq<MapEntry>, ghost ram: seq<Range>, ghost i: nat, r: Range,
                      ghost reserved: seq<Range>, ghost k: nat, next: Range, cursor: nat)
    returns (drawn: seq<MapEntry>, moved: nat)
    requires i < |ram| && ram[i] == r && Paged(r) && k < |reserved| && reserved[k] == next
    requires Separated(reserved) && AllPaged(reserved) && Cursor(reserved, r, k, cursor)
    requires DrawnTo(entries, ram, reserved, cursor)
    ensures DrawnTo(drawn, ram, reserved, moved) && Cursor(reserved, r, k + 1, moved)
  {
    drawn, moved := entries, cursor;
    assert next in reserved;
    if next.end <= r.start || next.start >= r.end { return; }
    var start := if next.start < r.start then r.start else next.start;
    var end := if next.end > r.end then r.end else next.end;
    if cursor < start {
      FreeStretch(ram, reserved, i, k, cursor, start);
      AddKeeps(drawn, ram, reserved, cursor, start, Free);
      drawn := AddEntry(drawn, cursor, start, Free);
    }
    if cursor < end {
      ReservedStretch(ram, reserved, i, k, start, end);
      AddKeeps(drawn, ram, reserved, start, end, Reserved);
      drawn := AddEntry(drawn, Later(cursor, start), end, Reserved);
      moved := end;
    }
  }

  /** One RAM range is drawn, split into free and reserved stretches. */
  method DrawRam(entries: seq<MapEntry>, ghost ram: seq<Range>, ghost i: nat, r: Range, a: array<Range>, count: nat)
    returns (drawn: seq<MapEntry>)
    requires i < |ram| && ram[i] == r && Paged(r)
    requires count <= a.Length && Separated(a[..count]) && AllPaged(a[..count])
    requires DrawnTo(entries, ram, a[..count], r.start)
    ensures DrawnTo(drawn, ram, a[..count], r.end)
  {
    drawn := entries;
    var cursor: nat := r.start;
    ghost var reserved := a[..count];
    for k := 0 to count
      invariant DrawnTo(drawn, ram, reserved, cursor) && Cursor(reserved, r, k, cursor)
    {
      drawn, cursor := PassReserved(drawn, ram, i, r, reserved, k, a[k], cursor);
    }
    if cursor < r.end {
      FreeStretch(ram, reserved, i, count, cursor, r.end);
      AddKeeps(drawn, ram, reserved, cursor, r.end, Free);
      drawn := AddEntry(drawn, cursor, r.end, Free);
    }
  }

  /** The range list with one more range widened to whole pages; empty and surplus ranges are dropped. */
  method AddRange(a: array<Range>, count: nat, start: nat, end: nat) returns (n: nat)
    requires a.Length == RANGE_CAPACITY && count <= RANGE_CAPACITY && start < WORD && end < WORD && AllPaged(a[..count])
    modifies a
    ensures n <= RANGE_CAPACITY && AllPaged(a[..n])
    ensures a[..n] == old(a[..count]) + if AlignDown(start) < AlignUp(end) && count < RANGE_CAPACITY then [Range(AlignDown(start), AlignUp(end))] else []
  {
    var s, e := AlignDown(start), AlignUp(end);
    if s >= e || count >= RANGE_CAPACITY { return count; }
    a[count] := Range(s, e);
    n := count + 1;
    assert a[..n] == old(a[..count]) + [Range(s, e)];
  }

  /** The RAM reported by the loader, or one gigabyte where boards have it. */
  function ReportedRam(ram: seq<Range>): seq<Range> {
    if ram == [] then [Range(0x4000_0000, 0x8000_0000)] else ram
  }

  lemma SameKinds(ram: seq<Range>, reserved: seq<Range>, ram': seq<Range>, reserved': seq<Range>, entries: seq<MapEntry>)
    requires SameUnion(ram, ram') && SameUnion(reserved, reserved') && Drawn(entries, ram, reserved)
    ensures Drawn(entries, ram', reserved')
  {
    forall i | 0 <= i < |entries| ensures EntryOk(entries, ram', reserved', i) {
      assert EntryOk(entries, ram, reserved, i);
      forall x: nat | entries[i].start <= x < entries[i].End() ensures KindOf(ram', reserved', x) == entries[i].kind {
        assert KindOf(ram, reserved, x) == entries[i].kind;
      }
    }
  }

  /**
   The whole map: right about every address it describes, and, unless it ran full, up to the end of
   the last RAM range.
   */
  method ConstructMemoryMap(ram: array<Range>, ramCount: nat, reserved: array<Range>, reservedCount: nat)
    returns (entries: seq<MapEntry>, end: nat)
    requires ram != reserved && ram.Length == reserved.Length == RANGE_CAPACITY
    requires ramCount <= RANGE_CAPACITY && reservedCount <= RANGE_CAPACITY
    requires AllPaged(ram[..ramCount]) && AllPaged(reserved[..reservedCount])
    modifies ram, reserved
    ensures Drawn(entries, ReportedRam(old(ram[..ramCount])), old(reserved[..reservedCount]))
    ensures |entries| < MEMORY_MAP_CAPACITY ==> MapEnd(entries) == end
    ensures forall x: nat :: In(ReportedRam(old(ram[..ramCount])), x) ==> x < end
  {
    var n := ramCount;
    if n == 0 { n := AddRange(ram, 0, 0x4000_0000, 0x8000_0000); }
    ghost var was := ram[..n];
    assert was == ReportedRam(old(ram[..ramCount]));
    n := SortAndMerge(ram, n);
    var m := SortAndMerge(reserved, reservedCount);
    ghost var a, b := ram[..n], reserved[..m];
    entries, end := DrawAll(ram, n, reserved, m);
    SameKinds(a, b, was, old(reserved[..reservedCount]), entries);
    forall x: nat | In(was, x) ensures x < end { assert In(a, x); }
  }

  /** Device memory up to each RAM range, then the range itself. */
  method DrawAll(ram: array<Range>, n: nat, reserved: array<Range>, m: nat) returns (entries: seq<MapEntry>, end: nat)
    requires n <= ram.Length && m <= reserved.Length
    requires Separated(ram[..n]) && AllPaged(ram[..n]) && Separated(reserved[..m]) && AllPaged(reserved[..m])
    ensures DrawnTo(entries, ram[..n], reserved[..m], end)
    ensures forall x: nat :: In(ram[..n], x) ==> x < end
  {
    ghost var a, b := ram[..n], reserved[..m];
    var previous: nat := 0;
    entries := [];
    for i := 0 to n
      invariant DrawnTo(entries, a, b, previous) && previous == if i == 0 then 0 else a[i - 1].end
    {
      assert ram[i] == a[i] && Paged(a[i]);
      if previous < ram[i].start {
        DeviceStretch(a, b, i, previous);
        assert i > 0 ==> Paged(a[i - 1]);
        AddKeeps(entries, a, b, previous, ram[i].start, Device);
        entries := AddEntry(entries, previous, ram[i].start, Device);
      }
      entries := DrawRam(entries, a, i, ram[i], reserved, m);
      previous := ram[i].end;
    }
    end := previous;
    forall x: nat | In(a, x) ensures x < end {
      var k :| 0 <= k < |a| && Holds(a[k], x);
      if k < n - 1 { assert Paged(a[n - 1]); }
    }
  }
}
