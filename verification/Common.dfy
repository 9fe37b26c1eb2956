/** Vocabulary shared by every container: optional values, thread names and
    the power-of-two index mask. */
module Common {

  datatype Option<+T> = None | Some(value: T)

  /** The payload of a container: an uninterpreted non-null pointer. */
  type Item = int

  type Tid = nat

  /** The slot of logical index `i` in a buffer of `n` slots: `i & (n - 1)` in
      the source, where `n` is a power of two. */
  function Slot(i: nat, n: nat): (r: nat)
    requires n > 0
    ensures r < n
  {
    if i < n then i else Slot(i - n, n)
  }

  lemma {:induction false} SlotIsModulo(i: nat, n: nat)
    requires n > 0
    ensures Slot(i, n) == i % n
  {
    if i >= n {
      SlotIsModulo(i - n, n);
      SameQuotient(n, (i - n) / n, i / n, (i - n) % n, i % n);
    }
  }

  lemma SameQuotient(n: int, p: int, q: int, r: int, r': int)
    requires 0 <= r < n && 0 <= r' < n && (p * n + r) + n == q * n + r'
    ensures r == r'
  {
    var d := p + 1 - q;
    assert d * n == r' - r;
    assert d >= 1 ==> d * n >= n;
    assert d <= -1 ==> d * n <= -n;
  }

  /** Two logical indices less than one lap apart never share a slot. */
  lemma {:induction false} SlotInjective(i: nat, j: nat, n: nat)
    requires n > 0 && i <= j < i + n
    ensures Slot(i, n) == Slot(j, n) ==> i == j
  {
    if i >= n {
      SlotInjective(i - n, j - n, n);
    } else if j >= n {
      assert Slot(j, n) == Slot(j - n, n) == j - n;
    }
  }

  lemma SlotWindowPair(i: nat, j: nat, lo: nat, n: nat)
    requires n > 0 && lo <= i < lo + n && lo <= j < lo + n
    ensures Slot(i, n) == Slot(j, n) ==> i == j
  {
    if i <= j {
      SlotInjective(i, j, n);
    } else {
      SlotInjective(j, i, n);
    }
  }

  /** `high - low < size` on unsigned 64-bit counters: the difference of a
      smaller from a larger one wraps to a huge number, never below `size`. */
  predicate RoomBelow(high: nat, low: nat, size: nat) {
    low <= high && high - low < size
  }

  /** The indices from `lo` up to and not including `hi`. */
  function Range(lo: nat, hi: nat): (r: set<nat>)
    ensures forall i: nat :: i in r <==> lo <= i < hi
    decreases hi
  {
    if hi <= lo then {} else Range(lo, hi - 1) + {hi - 1}
  }

  /** N * K: the hazard slots in `rows` records of `width` slots each. */
  function Slots(rows: nat, width: nat): nat {
    if rows == 0 then 0 else Slots(rows - 1, width) + width
  }

  lemma {:induction false} SlotsIsProduct(rows: nat, width: nat)
    ensures Slots(rows, width) == rows * width
  {
    if rows == 0 {
    } else {
      SlotsIsProduct(rows - 1, width);
    }
  }

  lemma {:induction false} SlotsMonotone(a: nat, b: nat, width: nat)
    requires a <= b
    ensures Slots(a, width) <= Slots(b, width)
    decreases b
  {
    if a == b {
    } else {
      SlotsMonotone(a, b - 1, width);
    }
  }

  lemma SliceLast<T>(s: seq<T>, lo: nat, hi: nat)
    requires lo <= hi < |s|
    ensures s[lo..hi + 1] == s[lo..hi] + [s[hi]]
  {
  }

  lemma SliceFirst<T>(s: seq<T>, lo: nat, hi: nat)
    requires lo < hi <= |s|
    ensures s[lo..hi] == [s[lo]] + s[lo + 1..hi]
  {
  }

  lemma DropFirst<T>(s: seq<T>, lo: nat)
    requires lo < |s|
    ensures s[lo..] == [s[lo]] + s[lo + 1..]
  {
  }

  lemma DropAppend<T>(s: seq<T>, lo: nat, x: T)
    requires lo <= |s|
    ensures (s + [x])[lo..] == s[lo..] + [x]
  {
  }

  function Reversed<T>(s: seq<T>): seq<T> {
    if s == [] then [] else [s[|s| - 1]] + Reversed(s[..|s| - 1])
  }

  lemma {:induction false} ReversedMembers<T>(s: seq<T>, x: T)
    ensures |Reversed(s)| == |s|
    ensures x in Reversed(s) <==> x in s
  {
    if s == [] {
    } else {
      ReversedMembers(s[..|s| - 1], x);
      assert s == s[..|s| - 1] + [s[|s| - 1]];
    }
  }

  /** Reading the reversed sequence backwards gives the sequence. */
  lemma {:induction false} ReversedBackwards<T>(s: seq<T>, k: nat)
    requires k < |s|
    ensures |Reversed(s)| == |s| && Reversed(s)[|s| - 1 - k] == s[k]
  {
    var init := s[..|s| - 1];
    ReversedMembers(s, s[k]);
    ReversedMembers(init, s[k]);
    if k == |s| - 1 {
    } else {
      ReversedBackwards(init, k);
    }
  }
}
