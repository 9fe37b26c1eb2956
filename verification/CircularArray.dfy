/** The growable circular array under the work-stealing deque. */
module CircularArray {
  import opened Common

  function Get(data: seq<Item>, i: nat): Item
    requires |data| > 0
  {
    data[Slot(i, |data|)]
  }

  function Put(data: seq<Item>, i: nat, p: Item): (r: seq<Item>)
    requires |data| > 0
    ensures |r| == |data|
  {
    data[Slot(i, |data|) := p]
  }

  /** What the copy loop leaves in `to` after copying indices start..end. */
  function Copied(to: seq<Item>, from: seq<Item>, start: nat, end: nat): (r: seq<Item>)
    requires |to| > 0 && |from| > 0
    ensures |r| == |to|
    decreases end - start
  {
    if end <= start then to else Copied(Put(to, start, Get(from, start)), from, start + 1, end)
  }

  /** Neither array confuses two indices of the copied range, so every one of
      them reads the same in the copy, whatever the new memory held. */
  lemma {:induction false} CopiedReadsTheSame(to: seq<Item>, from: seq<Item>, start: nat, end: nat, i: nat)
    requires |to| > 0 && |from| > 0 && start <= i < end <= start + |to|
    ensures Get(Copied(to, from, start, end), i) == Get(from, i)
    decreases end - start
  {
    var to' := Put(to, start, Get(from, start));
    if i == start {
      CopiedKeeps(to', from, start + 1, end, start);
    } else {
      CopiedReadsTheSame(to', from, start + 1, end, i);
    }
  }

  lemma {:induction false} CopiedKeeps(to: seq<Item>, from: seq<Item>, start: nat, end: nat, i: nat)
    requires |to| > 0 && |from| > 0 && i < start && end <= i + |to|
    ensures Get(Copied(to, from, start, end), i) == Get(to, i)
    decreases end - start
  {
    if end <= start {
    } else {
      SlotWindowPair(i, start, i, |to|);
      CopiedKeeps(Put(to, start, Get(from, start)), from, start + 1, end, i);
    }
  }

  class Circular {
    const data: array<Item>

    ghost predicate Valid() {
      data.Length > 0
    }

    /** `memory` is freshly allocated and holds whatever it held. */
    constructor (memory: array<Item>)
      requires memory.Length > 0
      ensures Valid() && data == memory
    {
      data := memory;
    }

    method At(i: nat) returns (p: Item)
      requires Valid()
      ensures p == Get(data[..], i)
    {
      p := data[Slot(i, data.Length)];
    }

    method Store(i: nat, p: Item)
      requires Valid()
      modifies data
      ensures data[..] == Put(old(data[..]), i, p)
    {
      data[Slot(i, data.Length)] := p;
    }

    /** Doubles the array: the result reads the same at every index of
        start..end and this array is left alone for threads still using it. */
    method Grow(start: nat, end: nat, memory: array<Item>) returns (grown: Circular)
      requires Valid() && start <= end
      requires memory.Length == 2 * data.Length && memory != data
      modifies memory
      ensures fresh(grown) && grown.Valid() && grown.data == memory
      ensures memory[..] == Copied(old(memory[..]), data[..], start, end)
      ensures end <= start + memory.Length ==>
                forall i :: start <= i < end ==> Get(memory[..], i) == Get(data[..], i)
    {
      grown := new Circular(memory);
      ghost var before := memory[..];
      var i := start;
      while i < end
        invariant start <= i <= end
        invariant Copied(before, data[..], start, end) == Copied(memory[..], data[..], i, end)
      {
        var p := At(i);
        grown.Store(i, p);
        i := i + 1;
      }
      forall i | start <= i < end <= start + memory.Length ensures Get(memory[..], i) == Get(data[..], i) {
        CopiedReadsTheSame(before, data[..], start, end, i);
      }
    }
  }
}
