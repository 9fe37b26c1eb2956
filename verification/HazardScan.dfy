/** The sequential half of the hazard pointer code: one thread's retired list
    and the scan that decides which retired nodes may be reclaimed. */
module HazardScan {
  import opened Common
  import Records = HazardRecords

  /** A node by its address. NULL is address 0. */
  class Node {
    const addr: nat
    var next: Node?

    constructor (addr: nat)
      requires addr != 0
      ensures this.addr == addr && next == null
    {
      this.addr, next := addr, null;
    }
  }

  // ------------------------------------------------- what a scan should decide

  /** The nodes of `s` found in `hazards`, in order. */
  function Kept(s: seq<Node>, hazards: seq<nat>): seq<Node> {
    if s == [] then []
    else Kept(s[..|s| - 1], hazards) + (if s[|s| - 1].addr in hazards then [s[|s| - 1]] else [])
  }

  /** The nodes of `s` not found in `hazards`, in order. */
  function Dropped(s: seq<Node>, hazards: seq<nat>): seq<Node> {
    if s == [] then []
    else Dropped(s[..|s| - 1], hazards) + (if s[|s| - 1].addr in hazards then [] else [s[|s| - 1]])
  }

  /** The non-NULL values among those read from one record's slots. */
  function NonNull(row: seq<nat>): seq<nat> {
    if row == [] then []
    else NonNull(row[..|row| - 1]) + (if row[|row| - 1] != 0 then [row[|row| - 1]] else [])
  }

  /** What the walk over the records collects. `slots[r][i]` is the value read
      from slot `i` of the r-th record visited, whenever that read happened. */
  function Collected(slots: seq<seq<nat>>): seq<nat> {
    if slots == [] then [] else Collected(slots[..|slots| - 1]) + NonNull(slots[|slots| - 1])
  }

  ghost predicate Distinct(s: seq<Node>) {
    forall i, j :: 0 <= i < j < |s| ==> s[i].addr != s[j].addr
  }

  ghost predicate Read(slots: seq<seq<nat>>, x: nat) {
    exists r, i :: 0 <= r < |slots| && 0 <= i < |slots[r]| && slots[r][i] == x
  }

  ghost predicate Before(s: seq<Node>, a: Node, b: Node) {
    exists i, j :: 0 <= i < j < |s| && s[i] == a && s[j] == b
  }

  lemma {:induction false} KeptMembers(s: seq<Node>, hazards: seq<nat>, x: Node)
    ensures x in Kept(s, hazards) <==> x in s && x.addr in hazards
  {
    if s == [] {
    } else {
      KeptMembers(s[..|s| - 1], hazards, x);
      assert s == s[..|s| - 1] + [s[|s| - 1]];
    }
  }

  lemma {:induction false} NonNullMembers(row: seq<nat>, x: nat)
    ensures |NonNull(row)| <= |row|
    ensures x in NonNull(row) <==> x != 0 && x in row
  {
    if row == [] {
    } else {
      NonNullMembers(row[..|row| - 1], x);
      assert row == row[..|row| - 1] + [row[|row| - 1]];
    }
  }

  /** The scan collects exactly the non-NULL values it read. */
  lemma {:induction false} CollectsWhatWasRead(slots: seq<seq<nat>>, x: nat)
    ensures x in Collected(slots) <==> x != 0 && Read(slots, x)
  {
    if slots == [] {
    } else {
      var last := |slots| - 1;
      CollectsWhatWasRead(slots[..last], x);
      NonNullMembers(slots[last], x);
      if Read(slots[..last], x) {
        var r, i :| 0 <= r < last && 0 <= i < |slots[..last][r]| && slots[..last][r][i] == x;
        assert slots[r][i] == x;
      }
      if x in slots[last] {
        var i :| 0 <= i < |slots[last]| && slots[last][i] == x;
      }
      if Read(slots, x) && x !in slots[last] {
        var r, i :| 0 <= r < |slots| && 0 <= i < |slots[r]| && slots[r][i] == x;
        assert r < last && slots[..last][r][i] == x;
      }
    }
  }

  ghost predicate AllRows(slots: seq<seq<nat>>, width: nat) {
    forall r :: 0 <= r < |slots| ==> |slots[r]| == width
  }

  lemma {:induction false} CollectedBound(slots: seq<seq<nat>>, width: nat)
    requires AllRows(slots, width)
    ensures |Collected(slots)| <= Slots(|slots|, width)
  {
    if slots == [] {
    } else {
      var last := |slots| - 1;
      CollectedBound(slots[..last], width);
      NonNullMembers(slots[last], 0);
    }
  }

  lemma MultisetOfAppend<T>(s: seq<T>, x: T)
    ensures multiset(s + [x]) == multiset(s) + multiset{x}
    ensures multiset([x] + s) == multiset(s) + multiset{x}
  {
  }

  lemma MultisetOfSum<T>(s: seq<T>, u: seq<T>)
    ensures multiset(s + u) == multiset(s) + multiset(u)
  {
  }

  lemma Regroup<T>(after: multiset<T>, freed: multiset<T>, retired: multiset<T>, x: T,
                   end: multiset<T>, later: multiset<T>, rest: multiset<T>)
    requires after + freed == retired + multiset{x} && end + later == after + rest
    ensures end + (freed + later) == retired + (rest + multiset{x})
  {
    calc {
      end + (freed + later);
      (end + later) + freed;
      (after + rest) + freed;
      (after + freed) + rest;
      (retired + multiset{x}) + rest;
      retired + (rest + multiset{x});
    }
  }

  lemma MultisetOfLast<T>(s: seq<T>)
    requires s != []
    ensures multiset(s) == multiset(s[..|s| - 1]) + multiset{s[|s| - 1]}
  {
    assert s == s[..|s| - 1] + [s[|s| - 1]];
  }

  lemma {:induction false} ReversedMultiset<T>(s: seq<T>)
    ensures multiset(Reversed(s)) == multiset(s)
  {
    if s == [] {
    } else {
      ReversedMultiset(s[..|s| - 1]);
      MultisetOfLast(s);
      MultisetOfAppend(Reversed(s[..|s| - 1]), s[|s| - 1]);
    }
  }

  lemma {:induction false} KeptAndDropped(s: seq<Node>, hazards: seq<nat>)
    ensures multiset(Kept(s, hazards)) + multiset(Dropped(s, hazards)) == multiset(s)
    ensures |Kept(s, hazards)| + |Dropped(s, hazards)| == |s|
  {
    if s == [] {
    } else {
      var init, last := s[..|s| - 1], s[|s| - 1];
      KeptAndDropped(init, hazards);
      MultisetOfLast(s);
      MultisetOfAppend(Kept(init, hazards), last);
      MultisetOfAppend(Dropped(init, hazards), last);
      assert Kept(init, hazards) + [] == Kept(init, hazards) && Dropped(init, hazards) + [] == Dropped(init, hazards);
    }
  }

  /** A scan neither loses nor duplicates a retired node: the new list and the
      reclaimed nodes are the old list. */
  lemma ScanPartitions(s: seq<Node>, hazards: seq<nat>)
    ensures multiset(Reversed(Kept(s, hazards))) + multiset(Dropped(s, hazards)) == multiset(s)
    ensures |Reversed(Kept(s, hazards))| + |Dropped(s, hazards)| == |s|
  {
    KeptAndDropped(s, hazards);
    ReversedMultiset(Kept(s, hazards));
    if s != [] { ReversedMembers(Kept(s, hazards), s[0]); }
  }

  /** The survivors keep their order among themselves. */
  lemma {:induction false} KeptKeepsOrder(s: seq<Node>, hazards: seq<nat>, i: nat, j: nat)
    requires i < j < |Kept(s, hazards)|
    ensures Before(s, Kept(s, hazards)[i], Kept(s, hazards)[j])
    decreases |s|
  {
    var init, kept := s[..|s| - 1], Kept(s[..|s| - 1], hazards);
    if j < |kept| {
      KeptKeepsOrder(init, hazards, i, j);
      var a, b :| 0 <= a < b < |init| && init[a] == kept[i] && init[b] == kept[j];
      assert s[a] == kept[i] && s[b] == kept[j];
    } else {
      KeptMembers(init, hazards, kept[i]);
      var a :| 0 <= a < |init| && init[a] == kept[i];
      assert s[a] == kept[i] && s[|s| - 1] == Kept(s, hazards)[j];
    }
  }

  /** The new retired list holds the survivors in the opposite order. */
  lemma SurvivorsAreReversed(s: seq<Node>, hazards: seq<nat>, i: nat, j: nat)
    requires i < j < |Reversed(Kept(s, hazards))|
    ensures Before(s, Reversed(Kept(s, hazards))[j], Reversed(Kept(s, hazards))[i])
  {
    var kept := Kept(s, hazards);
    ReversedMembers(kept, s[0]);
    ReversedBackwards(kept, |kept| - 1 - i);
    ReversedBackwards(kept, |kept| - 1 - j);
    KeptKeepsOrder(s, hazards, |kept| - 1 - j, |kept| - 1 - i);
  }

  lemma {:induction false} Pigeonhole(s: seq<Node>, hazards: seq<nat>)
    requires Distinct(s) && forall n :: n in s ==> n.addr in hazards
    ensures |s| <= |hazards|
    decreases |s|
  {
    if s == [] {
    } else {
      var init, last := s[..|s| - 1], s[|s| - 1];
      var k :| 0 <= k < |hazards| && hazards[k] == last.addr;
      var others := hazards[..k] + hazards[k + 1..];
      forall n | n in init ensures n.addr in others {
        var i :| 0 <= i < |init| && init[i] == n;
        assert s[i].addr != last.addr;
        var m :| 0 <= m < |hazards| && hazards[m] == n.addr;
        assert others[if m < k then m else m - 1] == n.addr;
      }
      Pigeonhole(init, others);
    }
  }

  lemma {:induction false} KeptDistinct(s: seq<Node>, hazards: seq<nat>)
    requires Distinct(s)
    ensures Distinct(Kept(s, hazards))
  {
    if s == [] {
    } else {
      var init, last := s[..|s| - 1], s[|s| - 1];
      KeptDistinct(init, hazards);
      forall n | n in Kept(init, hazards) ensures n.addr != last.addr {
        KeptMembers(init, hazards, n);
        var i :| 0 <= i < |init| && init[i] == n;
        assert s[i].addr != s[|s| - 1].addr;
      }
    }
  }

  /** Of distinct retired nodes at most one survives per slot read, so a scan of
      at least 2 * N * K of them reclaims at least N * K. */
  lemma ScanFreesHalf(s: seq<Node>, slots: seq<seq<nat>>, width: nat)
    requires Distinct(s) && AllRows(slots, width)
    ensures |Kept(s, Collected(slots))| <= Slots(|slots|, width)
    ensures |Dropped(s, Collected(slots))| >= |s| - Slots(|slots|, width)
  {
    var hazards := Collected(slots);
    KeptDistinct(s, hazards);
    forall n | n in Kept(s, hazards) ensures n.addr in hazards {
      KeptMembers(s, hazards, n);
    }
    Pigeonhole(Kept(s, hazards), hazards);
    CollectedBound(slots, width);
    KeptAndDropped(s, hazards);
  }

  // ---------------------------------------------------- a thread's calls to free

  /** One hazard_pointer_free: the node retired, the caller's threshold at that
      moment, and what a scan would read in the records' slots. */
  datatype Call = Call(node: Node, threshold: nat, slots: seq<seq<nat>>)

  ghost predicate Scans(retired: seq<Node>, c: Call) {
    |retired| + 1 >= c.threshold
  }

  function AfterFree(retired: seq<Node>, c: Call): seq<Node> {
    if |retired| + 1 >= c.threshold then Reversed(Kept([c.node] + retired, Collected(c.slots))) else [c.node] + retired
  }

  function FreedBy(retired: seq<Node>, c: Call): seq<Node> {
    if |retired| + 1 >= c.threshold then Dropped([c.node] + retired, Collected(c.slots)) else []
  }

  function AfterCalls(retired: seq<Node>, calls: seq<Call>): seq<Node>
    decreases |calls|
  {
    if calls == [] then retired else AfterCalls(AfterFree(retired, calls[0]), calls[1..])
  }

  function FreedByCalls(retired: seq<Node>, calls: seq<Call>): seq<Node>
    decreases |calls|
  {
    if calls == [] then [] else FreedBy(retired, calls[0]) + FreedByCalls(AfterFree(retired, calls[0]), calls[1..])
  }

  function RetiredBy(calls: seq<Call>): seq<Node> {
    if calls == [] then [] else [calls[0].node] + RetiredBy(calls[1..])
  }

  /** Over any run of calls, scanning or not, whatever the thresholds and
      hazards: every node retired is either still in the list or has been
      handed to gc_function, and only once. */
  lemma {:induction false} CallsConserve(retired: seq<Node>, calls: seq<Call>)
    ensures multiset(AfterCalls(retired, calls)) + multiset(FreedByCalls(retired, calls)) ==
            multiset(retired) + multiset(RetiredBy(calls))
    decreases |calls|
  {
    if calls == [] {
    } else {
      var c, rest := calls[0], calls[1..];
      var after := AfterFree(retired, c);
      FreeConserves(retired, c);
      CallsConserve(after, rest);
      MultisetOfAppend(RetiredBy(rest), c.node);
      MultisetOfSum(FreedBy(retired, c), FreedByCalls(after, rest));
      Regroup(multiset(after), multiset(FreedBy(retired, c)), multiset(retired), c.node,
              multiset(AfterCalls(after, rest)), multiset(FreedByCalls(after, rest)), multiset(RetiredBy(rest)));
    }
  }

  lemma FreeConserves(retired: seq<Node>, c: Call)
    ensures multiset(AfterFree(retired, c)) + multiset(FreedBy(retired, c)) == multiset(retired) + multiset{c.node}
  {
    MultisetOfAppend(retired, c.node);
    if Scans(retired, c) { ScanPartitions([c.node] + retired, Collected(c.slots)); }
  }

  /** Once the thresholds have settled at 2 * N * K, a call leaves fewer than
      2 * N * K nodes retired however many there were, and a call that scans
      leaves at most N * K and reclaims at least N * K. */
  lemma FreeStaysBelowThreshold(retired: seq<Node>, c: Call, width: nat)
    requires Distinct([c.node] + retired) && AllRows(c.slots, width) && width > 0 && |c.slots| > 0
    requires c.threshold == Records.Threshold(|c.slots|, width)
    ensures |AfterFree(retired, c)| < c.threshold
    ensures Scans(retired, c) ==>
      |AfterFree(retired, c)| <= Slots(|c.slots|, width) <= |FreedBy(retired, c)|
  {
    if Scans(retired, c) {
      ScanFreesHalf([c.node] + retired, c.slots, width);
      ReversedMembers(Kept([c.node] + retired, Collected(c.slots)), c.node);
    }
  }

  /** Nothing a hazard slot was seen to hold is reclaimed by that scan. */
  lemma FreedIsUnprotected(retired: seq<Node>, c: Call, n: Node)
    requires n.addr != 0
    ensures n in FreedBy(retired, c) <==> Scans(retired, c) && n in [c.node] + retired && !Read(c.slots, n.addr)
  {
    if Scans(retired, c) {
      DroppedMembers([c.node] + retired, Collected(c.slots), n);
      CollectsWhatWasRead(c.slots, n.addr);
    }
  }

  lemma {:induction false} DroppedMembers(s: seq<Node>, hazards: seq<nat>, x: Node)
    ensures x in Dropped(s, hazards) <==> x in s && x.addr !in hazards
  {
    if s == [] {
    } else {
      DroppedMembers(s[..|s| - 1], hazards, x);
      assert s == s[..|s| - 1] + [s[|s| - 1]];
    }
  }

  // -------------------------------------------------------- sort and search

  /** qsort's comparison of two plist entries. */
  function Compare(one: nat, two: nat): int {
    if one == two then 0 else if one < two then -1 else 1
  }

  ghost predicate Sorted(s: seq<nat>) {
    forall i, j :: 0 <= i < j < |s| ==> s[i] <= s[j]
  }

  function Insert(s: seq<nat>, x: nat): seq<nat> {
    if s == [] then [x]
    else if Compare(s[|s| - 1], x) <= 0 then s + [x]
    else Insert(s[..|s| - 1], x) + [s[|s| - 1]]
  }

  /** Stands for the C library's qsort with that comparison. */
  function Sort(s: seq<nat>): seq<nat> {
    if s == [] then [] else Insert(Sort(s[..|s| - 1]), s[|s| - 1])
  }

  lemma {:induction false} InsertMembers(s: seq<nat>, x: nat, y: nat)
    ensures y in Insert(s, x) <==> y == x || y in s
  {
    if s == [] {
    } else {
      InsertMembers(s[..|s| - 1], x, y);
      assert s == s[..|s| - 1] + [s[|s| - 1]];
    }
  }

  lemma {:induction false} InsertSorted(s: seq<nat>, x: nat)
    requires Sorted(s)
    ensures Sorted(Insert(s, x))
  {
    if s == [] {
    } else {
      var init, last := s[..|s| - 1], s[|s| - 1];
      if Compare(last, x) > 0 {
        InsertSorted(init, x);
        var inserted := Insert(init, x);
        forall i | 0 <= i < |inserted| ensures inserted[i] <= last {
          InsertMembers(init, x, inserted[i]);
        }
      }
    }
  }

  lemma {:induction false} InsertMultiset(s: seq<nat>, x: nat)
    ensures multiset(Insert(s, x)) == multiset(s) + multiset{x}
  {
    MultisetOfAppend(s, x);
    if s == [] {
      assert [] + [x] == [x];
    } else {
      var init, last := s[..|s| - 1], s[|s| - 1];
      MultisetOfLast(s);
      InsertMultiset(init, x);
      MultisetOfAppend(Insert(init, x), last);
    }
  }

  lemma {:induction false} SortSorted(s: seq<nat>)
    ensures Sorted(Sort(s))
  {
    if s == [] {
    } else {
      SortSorted(s[..|s| - 1]);
      InsertSorted(Sort(s[..|s| - 1]), s[|s| - 1]);
    }
  }

  lemma {:induction false} SortMultiset(s: seq<nat>)
    ensures multiset(Sort(s)) == multiset(s)
  {
    if s == [] {
    } else {
      SortMultiset(s[..|s| - 1]);
      MultisetOfLast(s);
      InsertMultiset(Sort(s[..|s| - 1]), s[|s| - 1]);
    }
  }

  lemma SameElements(a: seq<nat>, b: seq<nat>, x: nat)
    requires multiset(a) == multiset(b)
    ensures |a| == |b| && (x in a <==> x in b)
  {
    assert |a| == |multiset(a)| == |multiset(b)| == |b|;
    assert x in a <==> x in multiset(a);
    assert x in b <==> x in multiset(b);
  }

  method SortFirst(a: array<nat>, n: nat)
    requires n <= a.Length
    modifies a
    ensures Sorted(a[..n]) && multiset(a[..n]) == multiset(old(a[..n]))
    ensures a[n..] == old(a[n..])
  {
    var sorted := Sort(a[..n]);
    SortSorted(a[..n]);
    SortMultiset(a[..n]);
    SameElements(sorted, a[..n], 0);
    forall i | 0 <= i < n {
      a[i] := sorted[i];
    }
    assert a[..n] == sorted;
  }

  /** On a sorted prefix, finds the needle exactly when it is there. */
  method BinarySearch(haystack: array<nat>, size: nat, needle: nat) returns (found: bool)
    requires size <= haystack.Length && Sorted(haystack[..size])
    ensures found <==> needle in haystack[..size]
  {
    if size == 0 { return false; }
    var start: int, end: int := 0, size - 1;
    while start <= end
      invariant 0 <= start <= end + 1 <= size
      invariant forall i :: 0 <= i < start ==> haystack[..size][i] < needle
      invariant forall i :: end < i < size ==> needle < haystack[..size][i]
    {
      var middle := (start + end) / 2;
      var middleValue := haystack[middle];
      assert haystack[..size][middle] == middleValue;
      if middleValue > needle {
        end := middle - 1;
      } else if middleValue < needle {
        start := middle + 1;
      } else {
        return true;
      }
    }
    return false;
  }

  // ------------------------------------------------------------ the thread record

  function NodeAt(nodes: seq<Node>, i: nat): Node? {
    if i < |nodes| then nodes[i] else null
  }

  ghost predicate LinkedAt(nodes: seq<Node>, i: nat)
    requires i < |nodes|
    reads nodes
  {
    nodes[i].next == NodeAt(nodes, i + 1)
  }

  ghost predicate LinkedFrom(nodes: seq<Node>, k: nat)
    reads nodes
  {
    forall i :: k <= i < |nodes| ==> LinkedAt(nodes, i)
  }

  /** `nodes` are the nodes linked from `first`, each once. */
  ghost predicate IsList(first: Node?, nodes: seq<Node>)
    reads nodes
  {
    && Distinct(nodes)
    && first == NodeAt(nodes, 0)
    && LinkedFrom(nodes, 0)
  }

  /** The parts of a record only its own thread touches. */
  class Record {
    var retireThreshold: nat
    var retiredCount: nat
    var retiredList: Node?
    var plistSize: nat
    var plist: array?<nat>
    ghost var retired: seq<Node>

    ghost predicate Valid()
      reads this, retired, plist
    {
      && IsList(retiredList, retired) && retiredCount == |retired|
      && (plist != null ==> plist.Length == plistSize)
    }

    constructor (retireThreshold: nat)
      ensures Valid() && retired == [] && this.retireThreshold == retireThreshold && plist == null
    {
      this.retireThreshold := retireThreshold;
      retiredCount, retiredList, plistSize, plist, retired := 0, null, 0, null, [];
    }

    /** Make room for `size` pointers. */
    method Reserve(size: nat)
      requires plist != null ==> plist.Length == plistSize
      modifies this`plist, this`plistSize
      ensures plist != null && plist.Length == plistSize >= size
      ensures if old(plist) != null && old(plistSize) >= size then plist == old(plist)
              else fresh(plist) && plistSize == size
    {
      if plist == null || plistSize < size {
        plistSize := size;
        plist := new nat[size];
      }
    }

    /** The walk over the records. It stays inside plist because half the head
        record's threshold is room for every slot of every record visited. */
    method Collect(headThreshold: nat, slots: seq<seq<nat>>, ghost width: nat) returns (index: nat)
      requires plist != null && plist.Length >= headThreshold / 2
      requires AllRows(slots, width) && width > 0 && headThreshold >= Records.Threshold(|slots|, width)
      modifies plist
      ensures index == |Collected(slots)| <= plist.Length && plist[..index] == Collected(slots)
    {
      index := 0;
      var r := 0;
      while r < |slots|
        invariant 0 <= r <= |slots|
        invariant index == |Collected(slots[..r])| <= Slots(r, width)
        invariant index <= plist.Length && plist[..index] == Collected(slots[..r])
      {
        SlotsMonotone(r + 1, |slots|, width);
        NonNullMembers(slots[r], 0);
        assert slots[..r + 1][..r] == slots[..r];
        assert index < headThreshold / 2;
        index := CollectRow(slots[r], index);
        r := r + 1;
      }
      assert slots[..|slots|] == slots;
    }

    /** One record's slots. */
    method CollectRow(row: seq<nat>, start: nat) returns (index: nat)
      requires plist != null && start + |row| <= plist.Length
      modifies plist
      ensures index == start + |NonNull(row)| <= plist.Length
      ensures plist[..index] == old(plist[..start]) + NonNull(row)
    {
      index := start;
      var i := 0;
      while i < |row|
        invariant 0 <= i <= |row| && index <= start + i
        invariant index == start + |NonNull(row[..i])|
        invariant plist[..index] == old(plist[..start]) + NonNull(row[..i])
      {
        var h := row[i];
        assert row[..i + 1][..i] == row[..i];
        if h != 0 {
          plist[index] := h;
          index := index + 1;
          assert plist[..index] == plist[..index - 1] + [h];
        }
        i := i + 1;
      }
      assert row[..|row|] == row;
    }

    /** Puts a node in front of the retired list. */
    method Push(node: Node)
      requires IsList(retiredList, retired) && retiredCount == |retired|
      requires forall n :: n in retired ==> n.addr != node.addr
      modifies this`retiredList, this`retiredCount, this`retired, node
      ensures IsList(retiredList, retired) && retiredCount == |retired|
      ensures retired == [node] + old(retired)
    {
      node.next := retiredList;
      retiredList := node;
      retiredCount := retiredCount + 1;
      retired := [node] + retired;
      forall i | 0 < i < |retired| ensures LinkedAt(retired, i) {
        assert old(LinkedAt(retired, i - 1));
      }
    }

    /** The scan's last loop: sort the retired nodes into survivors, relinked in
        reverse, and nodes to reclaim. */
    method Relink(hazards: array<nat>, index: nat, ghost read: seq<nat>) returns (freed: seq<Node>)
      requires IsList(retiredList, retired)
      requires index <= hazards.Length && Sorted(hazards[..index]) && multiset(hazards[..index]) == multiset(read)
      modifies this`retiredList, this`retiredCount, this`retired, retired
      ensures IsList(retiredList, retired) && retiredCount == |retired|
      ensures retired == Reversed(Kept(old(retired), read)) && freed == Dropped(old(retired), read)
    {
      ghost var nodes, sorted := retired, hazards[..index];
      var node := retiredList;
      retiredList, retiredCount, retired, freed := null, 0, [], [];
      ghost var k := 0;
      while node != null
        invariant 0 <= k <= |nodes| && node == NodeAt(nodes, k) && LinkedFrom(nodes, k)
        invariant IsList(retiredList, retired) && retiredCount == |retired|
        invariant retired == Reversed(Kept(nodes[..k], sorted)) && freed == Dropped(nodes[..k], sorted)
        invariant hazards[..index] == sorted
        decreases |nodes| - k
      {
        label before:
        assert LinkedAt(nodes, k);
        var next := node.next;
        var isHazardous := BinarySearch(hazards, index, node.addr);
        KeptStep(nodes, sorted, k);
        if isHazardous {
          Push(node);
          forall i | k < i < |nodes| ensures LinkedAt(nodes, i) {
            assert old@before(LinkedAt(nodes, i));
          }
        } else {
          freed := freed + [node];
        }
        node := next;
        k := k + 1;
      }
      assert nodes[..|nodes|] == nodes;
      SameHazards(nodes, sorted, read);
    }

    /** hazard_pointer_scan. `slots` are the values its walk reads and the result
        the nodes handed to gc_function, in order. */
    method Scan(headThreshold: nat, slots: seq<seq<nat>>, ghost width: nat) returns (freed: seq<Node>)
      requires Valid() && AllRows(slots, width) && width > 0 && headThreshold >= Records.Threshold(|slots|, width)
      modifies this, plist, retired
      ensures Valid() && (plist == old(plist) || fresh(plist)) && retireThreshold == old(retireThreshold)
      ensures retired == Reversed(Kept(old(retired), Collected(slots)))
      ensures freed == Dropped(old(retired), Collected(slots))
    {
      var index := Prepare(headThreshold, slots, width);
      freed := Relink(plist, index, Collected(slots));
    }

    /** The scan's first half: the plist holds the hazards read, sorted. */
    method Prepare(headThreshold: nat, slots: seq<seq<nat>>, ghost width: nat) returns (index: nat)
      requires plist != null ==> plist.Length == plistSize
      requires AllRows(slots, width) && width > 0 && headThreshold >= Records.Threshold(|slots|, width)
      modifies this`plist, this`plistSize, plist
      ensures plist != null && plist.Length == plistSize && (plist == old(plist) || fresh(plist))
      ensures index <= plist.Length && Sorted(plist[..index]) && multiset(plist[..index]) == multiset(Collected(slots))
    {
      var maxPointers := headThreshold / 2;
      Reserve(maxPointers);
      index := Collect(headThreshold, slots, width);
      SortFirst(plist, index);
    }

    /** hazard_pointer_free. When the thresholds have settled at 2 * N * K the
        list is below the threshold again after every call, and a call that
        scans reclaims at least N * K nodes. */
    method Free(node: Node, headThreshold: nat, slots: seq<seq<nat>>, ghost width: nat) returns (freed: seq<Node>)
      requires Valid() && AllRows(slots, width) && width > 0 && headThreshold >= Records.Threshold(|slots|, width)
      requires forall n :: n in retired ==> n.addr != node.addr
      modifies this, plist, retired, node
      ensures Valid() && (plist == old(plist) || fresh(plist)) && retireThreshold == old(retireThreshold)
      ensures retired == AfterFree(old(retired), Call(node, retireThreshold, slots))
      ensures freed == FreedBy(old(retired), Call(node, retireThreshold, slots))
      ensures retireThreshold == Records.Threshold(|slots|, width) && |slots| > 0 ==> retiredCount < retireThreshold
    {
      ghost var c := Call(node, retireThreshold, slots);
      freed := [];
      Push(node);
      if retiredCount >= retireThreshold {
        freed := Scan(headThreshold, slots, width);
      }
      if retireThreshold == Records.Threshold(|slots|, width) && |slots| > 0 {
        assert Distinct([node] + old(retired));
        FreeStaysBelowThreshold(old(retired), c, width);
      }
    }
  }

  /** Membership is all the scan asks of the hazards, so sorting them is harmless. */
  lemma {:induction false} SameHazards(s: seq<Node>, a: seq<nat>, b: seq<nat>)
    requires multiset(a) == multiset(b)
    ensures Kept(s, a) == Kept(s, b) && Dropped(s, a) == Dropped(s, b)
  {
    if s == [] {
    } else {
      SameHazards(s[..|s| - 1], a, b);
      SameElements(a, b, s[|s| - 1].addr);
    }
  }

  /** Node `k` is decided after the first `k`, and none of those is it. */
  lemma KeptStep(nodes: seq<Node>, hazards: seq<nat>, k: nat)
    requires k < |nodes| && Distinct(nodes)
    ensures forall n :: n in Reversed(Kept(nodes[..k], hazards)) ==> n.addr != nodes[k].addr
    ensures forall i :: k < i < |nodes| ==> nodes[i] != nodes[k]
    ensures nodes[k].addr in hazards ==>
      && Reversed(Kept(nodes[..k + 1], hazards)) == [nodes[k]] + Reversed(Kept(nodes[..k], hazards))
      && Dropped(nodes[..k + 1], hazards) == Dropped(nodes[..k], hazards)
    ensures nodes[k].addr !in hazards ==>
      && Kept(nodes[..k + 1], hazards) == Kept(nodes[..k], hazards)
      && Dropped(nodes[..k + 1], hazards) == Dropped(nodes[..k], hazards) + [nodes[k]]
  {
    assert nodes[..k + 1][..k] == nodes[..k];
    forall n | n in Reversed(Kept(nodes[..k], hazards)) ensures n.addr != nodes[k].addr {
      ReversedMembers(Kept(nodes[..k], hazards), n);
      KeptMembers(nodes[..k], hazards, n);
      var i :| 0 <= i < k && nodes[..k][i] == n;
      assert nodes[i].addr != nodes[k].addr;
    }
    if nodes[k].addr in hazards {
      var kept := Kept(nodes[..k], hazards);
      assert (kept + [nodes[k]])[..|kept|] == kept;
    }
  }
}
