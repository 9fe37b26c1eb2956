/** The work-stealing deque: one owner pushes and pops at the bottom, any number
    of thieves steal from the top, one shared-memory access at a time. */
module Deque {
  import opened AtomicDeque
  import opened Common
  import opened CircularArray

  datatype Result = Empty | Abort | Got(v: Item)

  datatype OwnerPc =
    | Idle
    | PushBottom(v: Item, grow: bool)                      // read bottom
    | PushTop(v: Item, grow: bool, b: int)                 // read top
    | PushArray(v: Item, grow: bool, b: int, t: int)       // read underlying_array
    | PushInstall(v: Item, b: int, a: nat)                 // underlying_array = a
    | PushPut(v: Item, b: int, a: nat)                     // a[b] = p
    | PushPublish(v: Item, b: int)                         // bottom = b + 1
    | PopBottom                                            // read bottom
    | PopArray(b: int)                                     // read underlying_array
    | PopStore(b: int, a: nat)                             // bottom = b
    | PopTop(b: int, a: nat)                               // read top
    | PopRestore(t: int)                                   // bottom = t
    | PopGet(b: int, a: nat, t: int)                       // read a[b]
    | PopCas(t: int, ret: Item)                            // CAS top
    | PopFinish(t: int, res: Result)                       // bottom = t + 1
    | DonePush(ok: bool)
    | DonePop(res: Result)

  datatype ThiefPc =
    | Resting
    | StealTop                                             // read top
    | StealBottom(t: int)                                  // read bottom
    | StealArray(t: int, b: int)                           // read underlying_array
    | StealGet(t: int, a: nat)                             // read a[t]
    | StealCas(t: int, ret: Item)                          // CAS top
    | DoneSteal(res: Result)

  /** `Owner(memory)` is the owner's next access; `memory` is what malloc hands
      out should that access grow the array. */
  datatype Action = Push(v: Item, grow: bool) | Pop | Owner(memory: seq<Item>) | Steal(t: Tid) | Thief(t: Tid)

  /** `arrays` is every array ever allocated, `cur` the underlying one: replaced
      arrays stay readable. `items` (the last item put at each index) and `log`
      (the completed takes and publications) are history. */
  datatype State = State(
    top: int, bottom: int, arrays: seq<seq<Item>>, cur: nat,
    owner: OwnerPc, thieves: map<Tid, ThiefPc>,
    items: seq<Item>, log: seq<Event<Item>>)

  predicate Wf(s: State) {
    && s.cur < |s.arrays| && 0 <= s.top && -1 <= s.bottom
    && (forall a :: 0 <= a < |s.arrays| ==> |s.arrays[a]| > 0)
  }

  predicate Init(s: State) {
    && Wf(s) && s.top == s.bottom == 0 && s.owner == Idle
    && (forall t :: t in s.thieves ==> s.thieves[t] == Resting)
    && s.items == [] && s.log == []
  }

  predicate OwnerReady(s: State) {
    s.owner.Idle? || s.owner.DonePush? || s.owner.DonePop?
  }

  /** `n` words of freshly allocated memory. */
  function Fresh(memory: seq<Item>, n: nat): (r: seq<Item>)
    ensures |r| == n
  {
    if |memory| == n then memory else seq(n, _ => 0)
  }

  /** The owner's local decision after reading the array: refuse, grow or go on.
      The copy reads only an array that nobody but the owner writes. */
  function PushDecide(s: State, memory: seq<Item>, v: Item, grow: bool, b: int, t: int): (r: State)
    requires Wf(s)
    ensures Wf(r)
  {
    var data := s.arrays[s.cur];
    if b - t >= |data| - 1 then
      if grow && 0 <= t && 0 <= b then
        s.(arrays := s.arrays + [Copied(Fresh(memory, 2 * |data|), data, t, b)], owner := PushInstall(v, b, |s.arrays|))
      else s.(owner := DonePush(false))
    else s.(owner := PushPut(v, b, s.cur))
  }

  function PutStep(s: State, v: Item, b: int, a: nat): (r: State)
    requires Wf(s)
    ensures Wf(r)
  {
    if a < |s.arrays| && 0 <= b then
      s.(arrays := s.arrays[a := Put(s.arrays[a], b, v)], items := SetItem(s.items, b, v), owner := PushPublish(v, b))
    else s
  }

  function SetItem(items: seq<Item>, b: nat, v: Item): seq<Item> {
    if b < |items| then items[b := v] else if b == |items| then items + [v] else items
  }

  function PushStep(s: State, memory: seq<Item>): (r: State)
    requires Wf(s)
    ensures Wf(r)
  {
    match s.owner
    case PushBottom(v, grow) => s.(owner := PushTop(v, grow, s.bottom))
    case PushTop(v, grow, b) => s.(owner := PushArray(v, grow, b, s.top))
    case PushArray(v, grow, b, t) => PushDecide(s, memory, v, grow, b, t)
    case PushInstall(v, b, a) => if a < |s.arrays| then s.(cur := a, owner := PushPut(v, b, a)) else s
    case PushPut(v, b, a) => PutStep(s, v, b, a)
    case PushPublish(v, b) =>
      if b >= 0 then s.(bottom := b + 1, log := s.log + [Pushed(v)], owner := DonePush(true)) else s
    case _ => s
  }

  function PopStep(s: State): (r: State)
    requires Wf(s)
    ensures Wf(r)
  {
    match s.owner
    case PopBottom => s.(owner := PopArray(s.bottom - 1))
    case PopArray(b) => s.(owner := PopStore(b, s.cur))
    case PopStore(b, a) => if b >= -1 then s.(bottom := b, owner := PopTop(b, a)) else s
    case PopTop(b, a) => s.(owner := if b - s.top < 0 then PopRestore(s.top) else PopGet(b, a, s.top))
    case PopRestore(t) => if t >= 0 then s.(bottom := t, owner := DonePop(Empty)) else s
    case PopGet(b, a, t) =>
      if a < |s.arrays| && b >= 0 then
        var ret := Get(s.arrays[a], b);
        if b - t > 0 then s.(owner := DonePop(Got(ret)), log := s.log + [Popped(ret)]) else s.(owner := PopCas(t, ret))
      else s
    case PopCas(t, ret) =>
      if s.top == t then s.(top := t + 1, owner := PopFinish(t, Got(ret)), log := s.log + [Popped(ret)])
      else s.(owner := PopFinish(t, Abort))
    case PopFinish(t, res) => if t >= -1 then s.(bottom := t + 1, owner := DonePop(res)) else s
    case _ => s
  }

  predicate Pushing(pc: OwnerPc) {
    pc.PushBottom? || pc.PushTop? || pc.PushArray? || pc.PushInstall? || pc.PushPut? || pc.PushPublish?
  }

  function Goto(s: State, t: Tid, pc: ThiefPc): State {
    s.(thieves := s.thieves[t := pc])
  }

  /** The thief's CAS that moves top from its current value succeeds. */
  function Take(s: State, t: Tid, ret: Item): State {
    Goto(s, t, DoneSteal(Got(ret))).(top := s.top + 1, log := s.log + [Stole(t, ret)])
  }

  function ThiefStep(s: State, t: Tid): (r: State)
    requires Wf(s) && t in s.thieves
    ensures Wf(r) && t in r.thieves
  {
    match s.thieves[t]
    case StealTop => Goto(s, t, StealBottom(s.top))
    case StealBottom(top) => Goto(s, t, StealArray(top, s.bottom))
    case StealArray(top, b) => Goto(s, t, if b - top <= 0 then DoneSteal(Empty) else StealGet(top, s.cur))
    case StealGet(top, a) =>
      if a < |s.arrays| && top >= 0 then Goto(s, t, StealCas(top, Get(s.arrays[a], top))) else s
    case StealCas(top, ret) => if s.top == top then Take(s, t, ret) else Goto(s, t, DoneSteal(Abort))
    case _ => s
  }

  function Next(s: State, a: Action): (r: State)
    requires Wf(s)
    ensures Wf(r)
  {
    match a
    case Push(v, grow) => if OwnerReady(s) then s.(owner := PushBottom(v, grow)) else s
    case Pop => if OwnerReady(s) then s.(owner := PopBottom) else s
    case Owner(memory) => if Pushing(s.owner) then PushStep(s, memory) else PopStep(s)
    case Steal(t) =>
      if t in s.thieves && (s.thieves[t].Resting? || s.thieves[t].DoneSteal?) then Goto(s, t, StealTop) else s
    case Thief(t) => if t in s.thieves then ThiefStep(s, t) else s
  }

  function Run(s: State, sched: seq<Action>): (r: State)
    requires Wf(s)
    ensures Wf(r)
    decreases |sched|
  {
    if sched == [] then s else Run(Next(s, sched[0]), sched[1..])
  }

  // ---------------------------------------------------------------- invariant

  /** Thieves may win indices below this bound. */
  function StealBound(s: State): int {
    match s.owner
    case PopTop(b, _) => b + 1
    case PopRestore(t) => t
    case PopGet(b, _, t) => if t < b then b else b + 1
    case PopCas(t, _) => t + 1
    case PopFinish(t, _) => t + 1
    case _ => s.bottom
  }

  /** The atomic deque holds top..LiveBound: the item the owner has won but not
      yet read is still in it. */
  function LiveBound(s: State): int {
    if s.owner.PopGet? then s.owner.b + 1 else StealBound(s)
  }

  /** `data` holds the items of indices lo..hi. */
  ghost predicate Holds(data: seq<Item>, items: seq<Item>, lo: int, hi: int)
    requires |data| > 0
  {
    forall i: nat {:trigger Slot(i, |data|)} :: lo <= i < hi && i < |items| ==> data[Slot(i, |data|)] == items[i]
  }

  ghost predicate Shape(s: State) {
    && Wf(s)
    && s.top <= StealBound(s) && s.top <= LiveBound(s) <= |s.items|
    && LiveBound(s) - s.top <= |s.arrays[s.cur]| - 1
    && Holds(s.arrays[s.cur], s.items, s.top, LiveBound(s))
  }

  function Queue(s: State): seq<Item>
    requires 0 <= s.top <= LiveBound(s) <= |s.items|
  {
    s.items[s.top..LiveBound(s)]
  }

  ghost predicate OwnerOk(s: State)
    requires Shape(s)
  {
    match s.owner
    case PushTop(v, grow, b) => b == s.bottom
    case PushArray(v, grow, b, t) => b == s.bottom && 0 <= t <= s.top && b - t <= |s.arrays[s.cur]| - 1
    case PushInstall(v, b, a) =>
      b == s.bottom && a < |s.arrays| && b - s.top <= |s.arrays[a]| - 2 && Holds(s.arrays[a], s.items, s.top, b)
    case PushPut(v, b, a) => b == s.bottom && a == s.cur && b - s.top <= |s.arrays[a]| - 2
    case PushPublish(v, b) =>
      b == s.bottom && b < |s.items| && s.items[b] == v && b - s.top <= |s.arrays[s.cur]| - 2
      && Holds(s.arrays[s.cur], s.items, s.top, b + 1)
    case PopArray(b) => b == s.bottom - 1
    case PopStore(b, a) => b == s.bottom - 1 && a == s.cur
    case PopTop(b, a) => b == s.bottom && a == s.cur
    case PopRestore(t) => s.top == t && s.bottom == t - 1
    case PopGet(b, a, t) =>
      b == s.bottom && a == s.cur && 0 <= t <= b && t <= s.top <= b + 1
      && 0 <= b < |s.items| && Get(s.arrays[a], b) == s.items[b] && (t < b ==> s.top <= b)
    case PopCas(t, ret) => s.bottom == t && 0 <= t <= s.top <= t + 1 && t < |s.items| && ret == s.items[t]
    case PopFinish(t, res) => s.bottom == t && s.top == t + 1
    case _ => true
  }

  ghost predicate ThiefOk(s: State, u: Tid)
    requires Shape(s) && u in s.thieves
  {
    match s.thieves[u]
    case StealBottom(t) => 0 <= t <= s.top
    case StealArray(t, b) => 0 <= t <= s.top && (t == s.top && b > t ==> t < StealBound(s))
    case StealGet(t, a) =>
      0 <= t <= s.top && a < |s.arrays|
      && (t == s.top ==> t < StealBound(s) && t < |s.items| && Get(s.arrays[a], t) == s.items[t])
    case StealCas(t, ret) =>
      0 <= t <= s.top && (t == s.top ==> t < StealBound(s) && t < |s.items| && ret == s.items[t])
    case _ => true
  }

  ghost predicate Inv(s: State) {
    && Shape(s) && OwnerOk(s)
    && Replay(s.log) == Some(Queue(s))
    && forall u :: u in s.thieves ==> ThiefOk(s, u)
  }

  ghost predicate Core(s: State) {
    Shape(s) && OwnerOk(s) && Replay(s.log) == Some(Queue(s))
  }

  /** All that a thief at work relies on: while top is where it read it, the
      first item stays stealable and reads the same in every array. */
  ghost predicate KeepsFirst(s: State, s': State)
    requires Shape(s) && Shape(s')
  {
    && s'.top == s.top && s'.thieves == s.thieves && |s.arrays| <= |s'.arrays|
    && (s.top < StealBound(s) ==> s.top < StealBound(s'))
    && (s.top < StealBound(s) && s.top < |s.items| ==>
          && s.top < |s'.items| && s'.items[s.top] == s.items[s.top]
          && forall a {:trigger s.arrays[a]} :: 0 <= a < |s.arrays| ==>
               Get(s'.arrays[a], s.top) == Get(s.arrays[a], s.top))
  }

  lemma OwnerKeepsThief(s: State, s': State, u: Tid)
    requires Shape(s) && Shape(s') && u in s.thieves && ThiefOk(s, u) && KeepsFirst(s, s')
    ensures ThiefOk(s', u)
  {
  }

  /** The put writes the slot of index b, which no live index shares: the live
      range is at least two shorter than the array. */
  lemma PutHolds(data: seq<Item>, items: seq<Item>, items': seq<Item>, lo: nat, b: nat, v: Item)
    requires |data| > 0 && lo <= b <= |items| && b - lo <= |data| - 2
    requires |items'| > b && items'[..b] == items[..b] && items'[b] == v
    requires Holds(data, items, lo, b)
    ensures Holds(Put(data, b, v), items', lo, b + 1)
    ensures lo < b ==> Get(Put(data, b, v), lo) == Get(data, lo)
  {
    var data' := Put(data, b, v);
    forall i: nat | lo <= i < b + 1 ensures data'[Slot(i, |data'|)] == items'[i] {
      SlotWindowPair(i, b, lo, |data|);
      if i < b {
        assert items'[i] == items'[..b][i] == items[i];
        assert data[Slot(i, |data|)] == items[i];
      }
    }
    if lo < b { SlotWindowPair(lo, b, lo, |data|); }
  }

  lemma PutCore(s: State, v: Item, b: int, a: nat)
    requires Core(s) && s.owner == PushPut(v, b, a)
    ensures Core(PutStep(s, v, b, a)) && KeepsFirst(s, PutStep(s, v, b, a)) && Queue(PutStep(s, v, b, a)) == Queue(s)
  {
    var s' := PutStep(s, v, b, a);
    PutHolds(s.arrays[a], s.items, s'.items, s.top, b, v);
    assert Queue(s') == Queue(s);
  }

  lemma DecideCore(s: State, memory: seq<Item>, v: Item, grow: bool, b: int, t: int)
    requires Core(s) && s.owner == PushArray(v, grow, b, t)
    ensures Core(PushDecide(s, memory, v, grow, b, t)) && KeepsFirst(s, PushDecide(s, memory, v, grow, b, t))
    ensures Queue(PushDecide(s, memory, v, grow, b, t)) == Queue(s)
  {
    var data := s.arrays[s.cur];
    if b - t >= |data| - 1 && grow {
      var data' := Copied(Fresh(memory, 2 * |data|), data, t, b);
      forall i: nat | s.top <= i < b && i < |s.items| ensures data'[Slot(i, |data'|)] == s.items[i] {
        CopiedReadsTheSame(Fresh(memory, 2 * |data|), data, t, b, i);
        assert data[Slot(i, |data|)] == s.items[i];
      }
    }
  }

  lemma PublishCore(s: State, v: Item, b: int)
    requires Core(s) && s.owner == PushPublish(v, b)
    ensures Core(PushStep(s, [])) && KeepsFirst(s, PushStep(s, []))
    ensures Queue(PushStep(s, [])) == Queue(s) + [v]
  {
    ReplayPush(s.log, Queue(s), v);
    SliceLast(s.items, s.top, b);
  }

  lemma PushCore(s: State, memory: seq<Item>)
    requires Core(s) && Pushing(s.owner)
    ensures Core(PushStep(s, memory)) && KeepsFirst(s, PushStep(s, memory))
    ensures Queue(PushStep(s, memory)) == if s.owner.PushPublish? then Queue(s) + [s.owner.v] else Queue(s)
  {
    match s.owner
    case PushArray(v, grow, b, t) => DecideCore(s, memory, v, grow, b, t);
    case PushPut(v, b, a) => PutCore(s, v, b, a);
    case PushPublish(v, b) => PublishCore(s, v, b);
    case _ =>
  }

  /** Reading top decides a pop: no thief can win index b any more unless it is
      also the first. */
  lemma PopTopCore(s: State, b: int, a: nat)
    requires Core(s) && s.owner == PopTop(b, a)
    ensures Core(PopStep(s)) && KeepsFirst(s, PopStep(s)) && Queue(PopStep(s)) == Queue(s)
  {
    assert s.top <= b ==> s.arrays[a][Slot(b, |s.arrays[a]|)] == s.items[b];
  }

  lemma PopQuietCore(s: State)
    requires Core(s) && !Pushing(s.owner) && !s.owner.PopTop? && !s.owner.PopGet? && !s.owner.PopCas?
    ensures Core(PopStep(s)) && KeepsFirst(s, PopStep(s)) && Queue(PopStep(s)) == Queue(s)
  {
    if s.owner.PopRestore? || s.owner.PopFinish? {
      SettleCore(s);
    } else if s.owner.PopStore? {
      RetractCore(s, s.owner.b, s.owner.a);
    }
  }

  /** Storing b in bottom hides the last item from thieves still to come. */
  lemma RetractCore(s: State, b: int, a: nat)
    requires Core(s) && s.owner == PopStore(b, a)
    ensures Core(PopStep(s)) && KeepsFirst(s, PopStep(s)) && Queue(PopStep(s)) == Queue(s)
  {
  }

  /** The pop's last store puts bottom back on top of an empty deque. */
  lemma SettleCore(s: State)
    requires Core(s) && (s.owner.PopRestore? || s.owner.PopFinish?)
    ensures Core(PopStep(s)) && KeepsFirst(s, PopStep(s)) && Queue(PopStep(s)) == Queue(s)
  {
    assert Queue(s) == [] == Queue(PopStep(s));
  }

  lemma PopGetCore(s: State, b: int, a: nat, t: int)
    requires Core(s) && s.owner == PopGet(b, a, t)
    ensures Core(PopStep(s)) && KeepsFirst(s, PopStep(s))
    ensures t < b ==> Queue(s) == Queue(PopStep(s)) + [Get(s.arrays[a], b)]
  {
    PopGetShape(s, b, a, t);
    if t < b {
      SliceLast(s.items, s.top, b);
      ReplayPop(s.log, s.items[s.top..b], s.items[b]);
    }
  }

  lemma PopGetShape(s: State, b: int, a: nat, t: int)
    requires Shape(s) && OwnerOk(s) && s.owner == PopGet(b, a, t)
    ensures Shape(PopStep(s)) && OwnerOk(PopStep(s)) && KeepsFirst(s, PopStep(s))
  {
  }

  lemma PopCasCore(s: State, t: int, ret: Item)
    requires Core(s) && s.owner == PopCas(t, ret)
    ensures Core(PopStep(s)) && (s.top != t ==> KeepsFirst(s, PopStep(s)))
    ensures Queue(PopStep(s)) == [] && Queue(s) == if s.top == t then [ret] else []
  {
    if s.top == t {
      assert Queue(s) == [] + [ret];
      ReplayPop(s.log, [], ret);
      assert Queue(PopStep(s)) == [];
    }
  }

  lemma PopCore(s: State)
    requires Core(s) && !Pushing(s.owner)
    ensures Core(PopStep(s)) && (PopStep(s).top == s.top ==> KeepsFirst(s, PopStep(s)))
  {
    match s.owner
    case PopGet(b, a, t) => PopGetCore(s, b, a, t);
    case PopCas(t, ret) => PopCasCore(s, t, ret);
    case PopTop(b, a) => PopTopCore(s, b, a);
    case PopRestore(t) => PopQuietCore(s);
    case PopFinish(t, res) => PopQuietCore(s);
    case _ => PopQuietCore(s);
  }

  lemma TopMoved(s: State, s': State, u: Tid)
    requires Shape(s) && Shape(s') && u in s.thieves && u in s'.thieves && ThiefOk(s, u)
    requires s'.top == s.top + 1 && s'.thieves[u] == s.thieves[u] && s'.arrays == s.arrays
    ensures ThiefOk(s', u)
  {
  }

  lemma OwnerInv(s: State, memory: seq<Item>)
    requires Inv(s)
    ensures Inv(Next(s, Owner(memory)))
  {
    var s' := Next(s, Owner(memory));
    if Pushing(s.owner) {
      PushCore(s, memory);
    } else {
      PopCore(s);
    }
    forall u | u in s'.thieves ensures ThiefOk(s', u) {
      if s'.top == s.top { OwnerKeepsThief(s, s', u); } else { TopMoved(s, s', u); }
    }
  }

  lemma TakeCore(s: State, t: Tid, ret: Item)
    requires Core(s) && t in s.thieves && s.top < StealBound(s) && ret == s.items[s.top]
    ensures Core(Take(s, t, ret)) && Queue(s) == [ret] + Queue(Take(s, t, ret))
  {
    TakeShape(s, t, ret);
    SliceFirst(s.items, s.top, LiveBound(s));
    ReplaySteal(s.log, s.items[s.top + 1..LiveBound(s)], t, ret);
  }

  lemma TakeShape(s: State, t: Tid, ret: Item)
    requires Shape(s) && OwnerOk(s) && t in s.thieves && s.top < StealBound(s)
    ensures Shape(Take(s, t, ret)) && OwnerOk(Take(s, t, ret))
  {
  }

  lemma GotoInv(s: State, t: Tid, pc: ThiefPc)
    requires Inv(s) && t in s.thieves
    requires Shape(Goto(s, t, pc)) ==> ThiefOk(Goto(s, t, pc), t)
    ensures Inv(Goto(s, t, pc))
  {
    GotoCore(s, t, pc);
    forall u | u in s.thieves && u != t ensures ThiefOk(Goto(s, t, pc), u) {
      GotoOther(s, t, pc, u);
    }
  }

  lemma GotoCore(s: State, t: Tid, pc: ThiefPc)
    requires Core(s)
    ensures Core(Goto(s, t, pc)) && Queue(Goto(s, t, pc)) == Queue(s)
  {
  }

  lemma GotoOther(s: State, t: Tid, pc: ThiefPc, u: Tid)
    requires Shape(s) && Shape(Goto(s, t, pc)) && u in s.thieves && u != t && ThiefOk(s, u)
    ensures ThiefOk(Goto(s, t, pc), u)
  {
  }

  lemma StealArrayInv(s: State, t: Tid, top: int, b: int)
    requires Inv(s) && t in s.thieves && s.thieves[t] == StealArray(top, b)
    ensures Inv(ThiefStep(s, t))
  {
    assert ThiefOk(s, t);
    assert top == s.top && b > top ==> s.arrays[s.cur][Slot(top, |s.arrays[s.cur]|)] == s.items[top];
    GotoInv(s, t, if b - top <= 0 then DoneSteal(Empty) else StealGet(top, s.cur));
  }

  lemma StealGetInv(s: State, t: Tid, top: int, a: nat)
    requires Inv(s) && t in s.thieves && s.thieves[t] == StealGet(top, a)
    ensures Inv(ThiefStep(s, t))
  {
    assert ThiefOk(s, t);
    GotoInv(s, t, StealCas(top, Get(s.arrays[a], top)));
  }

  lemma ThiefInv(s: State, t: Tid)
    requires Inv(s) && t in s.thieves
    ensures Inv(ThiefStep(s, t))
  {
    assert ThiefOk(s, t);
    match s.thieves[t]
    case StealTop => GotoInv(s, t, StealBottom(s.top));
    case StealBottom(top) => GotoInv(s, t, StealArray(top, s.bottom));
    case StealArray(top, b) => StealArrayInv(s, t, top, b);
    case StealGet(top, a) => StealGetInv(s, t, top, a);
    case StealCas(top, ret) =>
      if s.top == top { TakeInv(s, t, ret); } else { GotoInv(s, t, DoneSteal(Abort)); }
    case _ =>
  }

  lemma TakeInv(s: State, t: Tid, ret: Item)
    requires Inv(s) && t in s.thieves && s.top < StealBound(s) && ret == s.items[s.top]
    ensures Inv(Take(s, t, ret))
  {
    TakeCore(s, t, ret);
    forall u | u in s.thieves && u != t ensures ThiefOk(Take(s, t, ret), u) {
      TopMoved(s, Take(s, t, ret), u);
    }
  }

  lemma CallInv(s: State, pc: OwnerPc)
    requires Inv(s) && OwnerReady(s) && (pc.PushBottom? || pc.PopBottom?)
    ensures Inv(s.(owner := pc))
  {
    forall u | u in s.thieves ensures ThiefOk(s.(owner := pc), u) {
      assert ThiefOk(s, u);
    }
  }

  lemma NextInv(s: State, a: Action)
    requires Inv(s)
    ensures Inv(Next(s, a))
  {
    match a
    case Push(v, grow) => if OwnerReady(s) { CallInv(s, PushBottom(v, grow)); }
    case Pop => if OwnerReady(s) { CallInv(s, PopBottom); }
    case Owner(memory) => OwnerInv(s, memory);
    case Steal(t) => if t in s.thieves { GotoInv(s, t, StealTop); }
    case Thief(t) => if t in s.thieves { ThiefInv(s, t); }
  }

  lemma {:induction false} RunInv(s: State, sched: seq<Action>)
    requires Inv(s)
    ensures Inv(Run(s, sched))
    decreases |sched|
  {
    if sched == [] {
    } else {
      NextInv(s, sched[0]);
      RunInv(Next(s, sched[0]), sched[1..]);
    }
  }

  lemma InitInv(s: State)
    requires Init(s)
    ensures Inv(s)
  {
  }

  // ------------------------------------------------------------- main results

  /** In every run of one owner and any number of thieves the completed
      operations form a history of one atomic deque, whose contents are what is
      left; so each pushed item was taken at most once, pushed equals taken plus
      live, and the live items never fill the array. */
  lemma RunIsAtomicDeque(s0: State, sched: seq<Action>)
    requires Init(s0)
    ensures var s := Run(s0, sched);
      && 0 <= s.top <= LiveBound(s) <= |s.items|
      && Replay(s.log) == Some(Queue(s))
      && PushedItems(s.log) == TakenItems(s.log) + multiset(Queue(s))
      && |Queue(s)| < |s.arrays[s.cur]|
  {
    InitInv(s0);
    RunInv(s0, sched);
    ReplayConserves(Run(s0, sched).log);
  }

  /** What the owner's push does to the atomic deque: publishing bottom appends
      the argument, no other access changes anything. */
  lemma PushRefines(s: State, memory: seq<Item>)
    requires Inv(s) && Pushing(s.owner)
    ensures var s' := Next(s, Owner(memory));
      && Inv(s')
      && Queue(s') == (if s.owner.PushPublish? then Queue(s) + [s.owner.v] else Queue(s))
      && (s.owner.PushPublish? ==> s'.owner == DonePush(true) && s'.log == s.log + [Pushed(s.owner.v)])
  {
    OwnerInv(s, memory);
    PushCore(s, memory);
  }

  /** The owner has won index b for good: reading its slot removes the last item
      and returns it. */
  lemma PopGetRefines(s: State)
    requires Inv(s) && s.owner.PopGet? && s.owner.t < s.owner.b
    ensures var s' := PopStep(s);
      && Inv(s') && Queue(s) != []
      && s'.owner == DonePop(Got(Queue(s)[|Queue(s)| - 1]))
      && Queue(s') == Queue(s)[..|Queue(s)| - 1]
      && s'.log == s.log + [Popped(Queue(s)[|Queue(s)| - 1])]
  {
    OwnerInv(s, []);
    PopGetCore(s, s.owner.b, s.owner.a, s.owner.t);
  }

  /** The owner's CAS decides the last item: it gets it, or a thief already has
      and the deque is empty. Either way the deque is empty afterwards. */
  lemma PopCasRefines(s: State)
    requires Inv(s) && s.owner.PopCas?
    ensures var s' := PopStep(s);
      && Inv(s')
      && (if s.top == s.owner.t
          then Queue(s) == [s.owner.ret] && s'.owner == PopFinish(s.owner.t, Got(s.owner.ret))
               && s'.log == s.log + [Popped(s.owner.ret)]
          else Queue(s) == [] && s'.owner == PopFinish(s.owner.t, Abort) && s'.log == s.log)
      && Queue(s') == []
  {
    OwnerInv(s, []);
    PopCasCore(s, s.owner.t, s.owner.ret);
  }

  /** Every other access of a pop leaves the deque alone. */
  lemma PopQuietRefines(s: State)
    requires Inv(s) && !Pushing(s.owner)
    requires !s.owner.PopCas? && (s.owner.PopGet? ==> s.owner.t == s.owner.b)
    ensures Inv(PopStep(s)) && Queue(PopStep(s)) == Queue(s) && PopStep(s).log == s.log
  {
    OwnerInv(s, []);
    if s.owner.PopTop? {
      PopTopCore(s, s.owner.b, s.owner.a);
    } else if !s.owner.PopGet? {
      PopQuietCore(s);
    }
  }

  /** A pop answers Empty only on an empty deque. */
  lemma PopEmptyIsExact(s: State)
    requires Inv(s) && s.owner.PopTop?
    ensures PopStep(s).owner.PopRestore? <==> Queue(s) == []
  {
  }

  /** A thief whose CAS on top succeeds removes the first item and returns it;
      otherwise it changes nothing and reports Abort. */
  lemma StealRefines(s: State, t: Tid)
    requires Inv(s) && t in s.thieves && s.thieves[t].StealCas?
    ensures var s' := ThiefStep(s, t);
      var StealCas(top, ret) := s.thieves[t];
      if s.top == top
      then Queue(s) == [ret] + Queue(s') && s'.thieves[t] == DoneSteal(Got(ret)) && s'.log == s.log + [Stole(t, ret)]
      else Queue(s') == Queue(s) && s'.thieves[t] == DoneSteal(Abort)
  {
    assert ThiefOk(s, t);
    if s.top == s.thieves[t].t { TakeCore(s, t, s.thieves[t].ret); }
  }

  /** Whichever array a thief still holds, current or replaced while it was on
      its way, index t reads the item last put at t as long as its CAS can still
      succeed. */
  lemma StaleArrayReadsTheItem(s: State, t: Tid)
    requires Inv(s) && t in s.thieves && s.thieves[t].StealGet? && s.thieves[t].t == s.top
    ensures var StealGet(top, a) := s.thieves[t];
      0 <= top < |s.items| && a < |s.arrays| && Get(s.arrays[a], top) == s.items[top] && Queue(s) != []
  {
    assert ThiefOk(s, t);
  }

  /** A thief answers Empty only when, as it read bottom, nothing was live but
      possibly the one item the owner was just then popping. */
  lemma StealEmptyIsJustified(s: State, t: Tid)
    requires Inv(s) && t in s.thieves && s.thieves[t].StealBottom? && s.bottom <= s.thieves[t].t
    ensures Queue(s) == [] || (|Queue(s)| == 1 && PopInFlight(s.owner))
  {
    assert ThiefOk(s, t);
  }

  /** A pop is between hiding the last item and settling who gets it. */
  predicate PopInFlight(pc: OwnerPc) {
    pc.PopTop? || pc.PopGet? || pc.PopCas?
  }

  /** With its reading of top still current as it reads bottom, a thief answers
      Empty exactly when the deque is empty or holds one item that a pop in
      flight is after: with no pop in flight, exactly when it is empty. */
  lemma StealEmptyIsExact(s: State, t: Tid)
    requires Inv(s) && t in s.thieves && s.thieves[t] == StealBottom(s.top)
    ensures ThiefStep(ThiefStep(s, t), t).thieves[t] == DoneSteal(Empty) <==>
            Queue(s) == [] || (|Queue(s)| == 1 && PopInFlight(s.owner))
  {
    assert ThiefOk(s, t);
  }

  /** The race for the last item: when owner and thief both stand before the
      CAS on the same index, exactly the one that moves first gets it. */
  lemma LastItemRace(s: State, t: Tid, memory: seq<Item>)
    requires Inv(s) && t in s.thieves && s.thieves[t].StealCas? && s.owner.PopCas?
    requires s.owner.t == s.top == s.thieves[t].t
    ensures var o := Next(s, Owner(memory));
      o.owner == PopFinish(s.top, Got(s.owner.ret)) && ThiefStep(o, t).thieves[t] == DoneSteal(Abort)
    ensures var h := ThiefStep(s, t);
      h.thieves[t] == DoneSteal(Got(s.owner.ret)) && Next(h, Owner(memory)).owner == PopFinish(s.top, Abort)
  {
    assert ThiefOk(s, t);
  }

  // The owner running without interference.

  function Solo(s: State, memory: seq<Item>, n: nat): (r: State)
    requires Wf(s)
    ensures Wf(r)
    decreases n
  {
    if n == 0 then s else Solo(Next(s, Owner(memory)), memory, n - 1)
  }

  /** A pop on a deque holding `q` ended in `s'` as a sequential one would. */
  ghost predicate PopOutcome(q: seq<Item>, s': State) {
    && Inv(s')
    && s'.owner == DonePop(if q == [] then Empty else Got(q[|q| - 1]))
    && Queue(s') == (if q == [] then [] else q[..|q| - 1])
  }

  lemma PopAlone(s: State)
    requires Inv(s) && OwnerReady(s)
    ensures PopOutcome(Queue(s), Solo(Next(s, Pop), [], 7))
  {
    CallInv(s, PopBottom);
    PopReadsBottom(Next(s, Pop));
  }

  lemma PopReadsBottom(s: State)
    requires Inv(s) && s.owner.PopBottom?
    ensures PopOutcome(Queue(s), Solo(s, [], 7))
  {
    PopQuietRefines(s);
    PopReadsArray(PopStep(s));
  }

  lemma PopReadsArray(s: State)
    requires Inv(s) && s.owner.PopArray?
    ensures PopOutcome(Queue(s), Solo(s, [], 6))
  {
    PopQuietRefines(s);
    PopStoresBottom(PopStep(s));
  }

  lemma PopStoresBottom(s: State)
    requires Inv(s) && s.owner.PopStore?
    ensures PopOutcome(Queue(s), Solo(s, [], 5))
  {
    PopQuietRefines(s);
    PopReadsTop(PopStep(s));
  }

  lemma PopReadsTop(s: State)
    requires Inv(s) && s.owner.PopTop?
    ensures PopOutcome(Queue(s), Solo(s, [], 4))
  {
    PopQuietRefines(s);
    PopEmptyIsExact(s);
    var s1 := PopStep(s);
    if s1.owner.PopRestore? {
      PopRestoresBottom(s1);
    } else if s1.owner.t < s1.owner.b {
      PopReadsItem(s1);
    } else {
      PopLastItem(s1);
    }
  }

  lemma PopRestoresBottom(s: State)
    requires Inv(s) && s.owner.PopRestore?
    ensures PopOutcome(Queue(s), Solo(s, [], 3))
  {
    PopQuietRefines(s);
    SoloDone(PopStep(s), [], 2);
  }

  lemma PopReadsItem(s: State)
    requires Inv(s) && s.owner.PopGet? && s.owner.t < s.owner.b
    ensures PopOutcome(Queue(s), Solo(s, [], 3))
  {
    PopGetRefines(s);
    SoloDone(PopStep(s), [], 2);
  }

  lemma {:induction false} SoloDone(s: State, memory: seq<Item>, n: nat)
    requires Wf(s) && OwnerReady(s)
    ensures Solo(s, memory, n) == s
    decreases n
  {
    if n == 0 {
    } else {
      SoloDone(s, memory, n - 1);
    }
  }

  lemma PopLastItem(s: State)
    requires Inv(s) && s.owner.PopGet? && s.owner.t == s.owner.b == s.top
    ensures PopOutcome(Queue(s), Solo(s, [], 3))
  {
    PopQuietRefines(s);
    PopWinsLast(PopStep(s));
  }

  lemma PopWinsLast(s: State)
    requires Inv(s) && s.owner.PopCas? && s.owner.t == s.top
    ensures PopOutcome(Queue(s), Solo(s, [], 2))
  {
    PopCasRefines(s);
    var s1 := PopStep(s);
    PopQuietRefines(s1);
    assert Solo(s, [], 2) == Solo(s1, [], 1) == PopStep(s1);
  }

  /** A push on a deque holding `q` in array `cur` ended in `s'`: refused exactly
      when the array is full and may not grow; growing doubles the array and
      leaves every array that thieves may still hold as it was. */
  ghost predicate PushOutcome(q: seq<Item>, arrays: seq<seq<Item>>, cur: nat, v: Item, grow: bool, s': State)
    requires cur < |arrays|
  {
    var full := |q| == |arrays[cur]| - 1;
    && Inv(s')
    && s'.owner == DonePush(grow || !full)
    && Queue(s') == (if grow || !full then q + [v] else q)
    && (if grow && full
        then arrays <= s'.arrays && |s'.arrays[s'.cur]| == 2 * |arrays[cur]|
        else s'.cur == cur && |s'.arrays[s'.cur]| == |arrays[cur]|)
  }

  lemma PushAlone(s: State, v: Item, grow: bool, memory: seq<Item>)
    requires Inv(s) && OwnerReady(s)
    ensures PushOutcome(Queue(s), s.arrays, s.cur, v, grow, Solo(Next(s, Push(v, grow)), memory, 6))
  {
    CallInv(s, PushBottom(v, grow));
    PushReadsBottom(Next(s, Push(v, grow)), memory);
  }

  lemma PushReadsBottom(s: State, memory: seq<Item>)
    requires Inv(s) && s.owner.PushBottom?
    ensures PushOutcome(Queue(s), s.arrays, s.cur, s.owner.v, s.owner.grow, Solo(s, memory, 6))
  {
    PushRefines(s, memory);
    PushReadsTop(PushStep(s, memory), memory);
  }

  lemma PushReadsTop(s: State, memory: seq<Item>)
    requires Inv(s) && s.owner.PushTop?
    ensures PushOutcome(Queue(s), s.arrays, s.cur, s.owner.v, s.owner.grow, Solo(s, memory, 5))
  {
    PushRefines(s, memory);
    PushReadsArray(PushStep(s, memory), memory);
  }

  lemma PushReadsArray(s: State, memory: seq<Item>)
    requires Inv(s) && s.owner.PushArray? && s.owner.t == s.top
    ensures PushOutcome(Queue(s), s.arrays, s.cur, s.owner.v, s.owner.grow, Solo(s, memory, 4))
  {
    if s.owner.b - s.owner.t < |s.arrays[s.cur]| - 1 {
      PushFits(s, memory);
    } else if s.owner.grow {
      PushGrows(s, memory);
    } else {
      PushRefines(s, memory);
      SoloDone(PushStep(s, memory), memory, 3);
    }
  }

  lemma PushFits(s: State, memory: seq<Item>)
    requires Inv(s) && s.owner.PushArray? && s.owner.t == s.top && s.owner.b - s.owner.t < |s.arrays[s.cur]| - 1
    ensures PushOutcome(Queue(s), s.arrays, s.cur, s.owner.v, s.owner.grow, Solo(s, memory, 4))
  {
    PushRefines(s, memory);
    PutAndPublish(PushStep(s, memory), memory, 1);
  }

  lemma PushGrows(s: State, memory: seq<Item>)
    requires Inv(s) && s.owner.PushArray? && s.owner.t == s.top && s.owner.grow
    requires s.owner.b - s.owner.t >= |s.arrays[s.cur]| - 1
    ensures PushOutcome(Queue(s), s.arrays, s.cur, s.owner.v, s.owner.grow, Solo(s, memory, 4))
  {
    PushRefines(s, memory);
    PushInstalls(PushStep(s, memory), memory);
  }

  lemma PushInstalls(s: State, memory: seq<Item>)
    requires Inv(s) && s.owner.PushInstall?
    ensures var s' := Solo(s, memory, 3);
      && Inv(s') && s'.owner == DonePush(true) && Queue(s') == Queue(s) + [s.owner.v]
      && s'.cur == s.owner.a && |s'.arrays| == |s.arrays| && |s'.arrays[s'.cur]| == |s.arrays[s'.cur]|
      && (forall a :: 0 <= a < |s.arrays| && a != s'.cur ==> s'.arrays[a] == s.arrays[a])
  {
    PushRefines(s, memory);
    PutAndPublish(PushStep(s, memory), memory, 0);
  }

  lemma PutAndPublish(s: State, memory: seq<Item>, extra: nat)
    requires Inv(s) && s.owner.PushPut?
    ensures var s' := Solo(s, memory, 2 + extra);
      && Inv(s') && s'.owner == DonePush(true) && Queue(s') == Queue(s) + [s.owner.v]
      && s'.cur == s.cur && |s'.arrays| == |s.arrays| && |s'.arrays[s.cur]| == |s.arrays[s.cur]|
      && (forall a :: 0 <= a < |s.arrays| && a != s.cur ==> s'.arrays[a] == s.arrays[a])
  {
    PushRefines(s, memory);
    var s1 := PushStep(s, memory);
    PublishAndDone(s1, memory, extra);
    assert Solo(s, memory, 2 + extra) == Solo(s1, memory, 1 + extra);
  }

  lemma PublishAndDone(s: State, memory: seq<Item>, extra: nat)
    requires Inv(s) && s.owner.PushPublish?
    ensures var s' := Solo(s, memory, 1 + extra);
      && Inv(s') && s'.owner == DonePush(true) && Queue(s') == Queue(s) + [s.owner.v]
      && s'.cur == s.cur && s'.arrays == s.arrays
  {
    PushRefines(s, memory);
    SoloDone(PushStep(s, memory), memory, extra);
  }

  // A steal that answers Empty although an item is there.

  lemma {:induction false} RunSplit(s: State, a: seq<Action>, b: seq<Action>)
    requires Wf(s)
    ensures Run(s, a + b) == Run(Run(s, a), b)
    decreases |a|
  {
    if a == [] {
      assert a + b == b;
    } else {
      assert (a + b)[1..] == a[1..] + b;
      RunSplit(Next(s, a[0]), a[1..], b);
    }
  }

  lemma RunStep(s: State, a: Action, rest: seq<Action>)
    requires Wf(s)
    ensures Run(s, [a] + rest) == Run(Next(s, a), rest)
  {
    assert ([a] + rest)[1..] == rest;
  }

  /** Start a pop and let it hide the last item. */
  const HIDE: seq<Action> := [Pop] + OWNER_STEPS
  const OWNER_STEPS: seq<Action> := [Owner([])] + ([Owner([])] + ([Owner([])] + []))

  /** A whole steal by `t`, up to its answer. */
  function LookFor(t: Tid): seq<Action> {
    [Steal(t)] + ([Thief(t)] + ([Thief(t)] + ([Thief(t)] + [])))
  }

  /** From `s` to `s'` a pop has come as far as hiding the last item. */
  ghost predicate Hidden(s: State, s': State) {
    && Inv(s) && Inv(s') && s'.owner.PopTop? && s'.thieves == s.thieves && Queue(s') == Queue(s)
  }

  lemma HideHides(s: State)
    requires Inv(s) && OwnerReady(s)
    ensures Hidden(s, Run(s, HIDE))
  {
    CallInv(s, PopBottom);
    RunStep(s, Pop, OWNER_STEPS);
    HideFromBottom(Next(s, Pop));
  }

  lemma HideFromBottom(s: State)
    requires Inv(s) && s.owner.PopBottom?
    ensures Hidden(s, Run(s, OWNER_STEPS))
  {
    PopQuietRefines(s);
    RunStep(s, Owner([]), [Owner([])] + ([Owner([])] + []));
    HideFromArray(PopStep(s));
  }

  lemma HideFromArray(s: State)
    requires Inv(s) && s.owner.PopArray?
    ensures Hidden(s, Run(s, [Owner([])] + ([Owner([])] + [])))
  {
    PopQuietRefines(s);
    RunStep(s, Owner([]), [Owner([])] + []);
    var s1 := PopStep(s);
    PopQuietRefines(s1);
    RunStep(s1, Owner([]), []);
  }

  /** From `s` to `s'` thief `t` has come to answer Empty, and nothing else. */
  ghost predicate Missed(s: State, s': State, t: Tid) {
    && Inv(s) && Inv(s') && t in s'.thieves && s'.thieves[t] == DoneSteal(Empty) && Queue(s') == Queue(s)
  }

  lemma LookFindsNone(s: State, t: Tid)
    requires Inv(s) && t in s.thieves && s.thieves[t].Resting?
    requires |Queue(s)| == 1 && PopInFlight(s.owner)
    ensures Missed(s, Run(s, LookFor(t)), t)
  {
    NextInv(s, Steal(t));
    RunStep(s, Steal(t), [Thief(t)] + ([Thief(t)] + ([Thief(t)] + [])));
    LookReadsTop(Next(s, Steal(t)), t);
  }

  lemma LookReadsTop(s: State, t: Tid)
    requires Inv(s) && t in s.thieves && s.thieves[t].StealTop?
    requires |Queue(s)| == 1 && PopInFlight(s.owner)
    ensures Missed(s, Run(s, [Thief(t)] + ([Thief(t)] + ([Thief(t)] + []))), t)
  {
    ThiefInv(s, t);
    RunStep(s, Thief(t), [Thief(t)] + ([Thief(t)] + []));
    LookReadsBottom(ThiefStep(s, t), t);
  }

  lemma LookReadsBottom(s: State, t: Tid)
    requires Inv(s) && t in s.thieves && s.thieves[t] == StealBottom(s.top)
    requires |Queue(s)| == 1 && PopInFlight(s.owner)
    ensures Missed(s, Run(s, [Thief(t)] + ([Thief(t)] + [])), t)
  {
    StealEmptyIsExact(s, t);
    ThiefInv(s, t);
    var s1 := ThiefStep(s, t);
    ThiefInv(s1, t);
    RunStep(s, Thief(t), [Thief(t)] + []);
    RunStep(s1, Thief(t), []);
  }

  /** Whenever one item is queued and the owner is at rest, a pop and a steal
      can interleave so that the steal answers Empty while the item is there. */
  lemma StealCanMissTheItem(s: State, t: Tid)
    requires Inv(s) && OwnerReady(s) && t in s.thieves && s.thieves[t].Resting? && |Queue(s)| == 1
    ensures var s' := Run(s, HIDE + LookFor(t));
      Inv(s') && t in s'.thieves && s'.thieves[t] == DoneSteal(Empty) && Queue(s') == Queue(s)
  {
    HideHides(s);
    LookFindsNone(Run(s, HIDE), t);
    RunSplit(s, HIDE, LookFor(t));
  }

  lemma {:induction false} SoloIsRun(s: State, n: nat)
    requires Wf(s)
    ensures Solo(s, [], n) == Run(s, seq(n, _ => Owner([])))
    decreases n
  {
    var sched := seq(n, _ => Owner([]));
    if n == 0 {
    } else {
      SoloIsRun(Next(s, Owner([])), n - 1);
      assert sched[1..] == seq(n - 1, _ => Owner([]));
    }
  }

  /** Such a run from the initial state: push one item, start to pop it, steal. */
  lemma MissedItemFromStart(s: State, t: Tid)
    requires Init(s) && |s.arrays[s.cur]| >= 2 && t in s.thieves
    ensures var sched := [Push(7, false)] + seq(6, _ => Owner([])) + (HIDE + LookFor(t));
      var s' := Run(s, sched);
      && Inv(s') && t in s'.thieves && s'.thieves[t] == DoneSteal(Empty) && Queue(s') == [7]
  {
    InitInv(s);
    PushAlone(s, 7, false, []);
    var push := [Push(7, false)] + seq(6, _ => Owner([]));
    var s1 := Run(s, push);
    RunSplit(s, [Push(7, false)], seq(6, _ => Owner([])));
    SoloIsRun(Next(s, Push(7, false)), 6);
    RunKeepsThieves(s, push);
    StealCanMissTheItem(s1, t);
    RunSplit(s, push, HIDE + LookFor(t));
  }

  lemma {:induction false} RunKeepsThieves(s: State, sched: seq<Action>)
    requires Wf(s) && forall a :: a in sched ==> a.Push? || a.Owner?
    ensures Run(s, sched).thieves == s.thieves
    decreases |sched|
  {
    if sched == [] {
    } else {
      RunKeepsThieves(Next(s, sched[0]), sched[1..]);
    }
  }

  // ------------------------------------------------------------ in-place form

  function Pow2(n: nat): (r: nat)
    ensures r > 0
  {
    if n == 0 then 1 else 2 * Pow2(n - 1)
  }

  class WorkStealingDeque {
    var top: int
    var bottom: int
    var arrays: seq<Circular>
    var cur: nat
    var owner: OwnerPc
    var thieves: map<Tid, ThiefPc>
    ghost var items: seq<Item>
    ghost var log: seq<Event<Item>>

    ghost function Memory(): set<array<Item>>
      reads this
    {
      set c: Circular | c in arrays :: c.data
    }

    ghost function Contents(): (r: seq<seq<Item>>)
      reads this, Memory()
      ensures |r| == |arrays|
      ensures forall a :: 0 <= a < |arrays| ==> r[a] == arrays[a].data[..]
    {
      seq(|arrays|, a requires 0 <= a < |arrays| reads this, Memory() => arrays[a].data[..])
    }

    ghost function View(): State
      reads this, Memory()
    {
      State(top, bottom, Contents(), cur, owner, thieves, items, log)
    }

    /** No two arrays share memory. */
    ghost predicate Separate()
      reads this
    {
      forall a, b :: 0 <= a < b < |arrays| ==> arrays[a].data != arrays[b].data
    }

    /** An empty deque on a freshly allocated array of 2 to the `logSize` words,
        and at least 2 to the 8th. */
    constructor (logSize: nat, memory: array<Item>, threads: set<Tid>)
      requires memory.Length == Pow2(if logSize < 8 then 8 else logSize)
      ensures Init(View()) && Separate() && Memory() == {memory} && thieves.Keys == threads
    {
      var a := new Circular(memory);
      top, bottom, arrays, cur := 0, 0, [a], 0;
      owner := Idle;
      thieves := map t | t in threads :: Resting;
      items, log := [], [];
      new;
      assert Contents()[0] == memory[..];
    }

    /** One access of the owner's push to an array: reading it and making the
        size test, or the put. */
    method PushArrayAccess(memory: seq<Item>)
      requires Wf(View()) && Separate() && (owner.PushArray? || owner.PushPut?)
      modifies this, Memory()
      ensures View() == PushStep(old(View()), memory)
      ensures Separate() && fresh(Memory() - old(Memory()))
    {
      match owner
      case PushArray(v, grow, b, t) => DecidePush(memory, v, grow, b, t);
      case PushPut(v, b, a) => if a < |arrays| && b >= 0 { PutItem(v, b, a); }
    }

    /** One access of the owner's push to top, bottom or underlying_array. */
    method PushAccess()
      requires Wf(View()) && !owner.PushArray? && !owner.PushPut?
      modifies this
      ensures View() == PushStep(old(View()), []) && arrays == old(arrays)
    {
      match owner
      case PushBottom(v, grow) => owner := PushTop(v, grow, bottom);
      case PushTop(v, grow, b) => owner := PushArray(v, grow, b, top);
      case PushInstall(v, b, a) => if a < |arrays| { cur := a; owner := PushPut(v, b, a); }
      case PushPublish(v, b) => if b >= 0 { PublishBottom(v, b); }
      case _ =>
    }

    method PublishBottom(v: Item, b: nat)
      requires Wf(View()) && owner == PushPublish(v, b)
      modifies this
      ensures View() == PushStep(old(View()), []) && arrays == old(arrays)
    {
      bottom := b + 1;
      log := log + [Pushed(v)];
      owner := DonePush(true);
    }

    /** The size test, and growing when it asks for that. */
    method DecidePush(memory: seq<Item>, v: Item, grow: bool, b: int, t: int)
      requires Wf(View()) && Separate()
      modifies this
      ensures View() == PushDecide(old(View()), memory, v, grow, b, t)
      ensures Separate() && fresh(Memory() - old(Memory()))
    {
      var a := arrays[cur];
      assert Contents()[cur] == a.data[..];
      if b - t < a.data.Length - 1 {
        owner := PushPut(v, b, cur);
      } else if grow && 0 <= t && 0 <= b {
        GrowUnderlying(memory, v, b, t);
      } else {
        owner := DonePush(false);
      }
    }

    method PutItem(v: Item, b: nat, a: nat)
      requires Wf(View()) && Separate() && a < |arrays|
      modifies this, arrays[a].data
      ensures View() == PutStep(old(View()), v, b, a)
      ensures arrays == old(arrays)
    {
      arrays[a].Store(b, v);
      items := SetItem(items, b, v);
      owner := PushPublish(v, b);
      assert Contents() == old(Contents())[a := Put(old(Contents())[a], b, v)];
    }

    method GrowUnderlying(memory: seq<Item>, v: Item, b: nat, t: nat)
      requires Wf(View()) && Separate() && b - t >= |View().arrays[cur]| - 1
      modifies this
      ensures View() == PushDecide(old(View()), memory, v, true, b, t)
      ensures Separate() && fresh(Memory() - old(Memory()))
    {
      var a := arrays[cur];
      var n := 2 * a.data.Length;
      var words := Fresh(memory, n);
      var mem := new Item[n](i requires 0 <= i < n => words[i]);
      assert mem[..] == words;
      assert Contents()[cur] == a.data[..];
      var grown := a.Grow(t, b, mem);
      owner := PushInstall(v, b, |arrays|);
      arrays := arrays + [grown];
      assert Contents() == old(Contents()) + [mem[..]];
    }

    /** One shared-memory access of the owner's pop. */
    method PopAccess()
      requires Wf(View())
      modifies this
      ensures View() == PopStep(old(View())) && arrays == old(arrays)
    {
      match owner
      case PopBottom => owner := PopArray(bottom - 1);
      case PopArray(b) => owner := PopStore(b, cur);
      case PopStore(b, a) => if b >= -1 { bottom := b; owner := PopTop(b, a); }
      case PopTop(b, a) =>
        if b - top < 0 { owner := PopRestore(top); } else { owner := PopGet(b, a, top); }
      case PopRestore(t) => if t >= 0 { bottom := t; owner := DonePop(Empty); }
      case PopGet(b, a, t) => ReadBottom(b, a, t);
      case PopCas(t, ret) =>
        if top == t {
          top := t + 1;
          log := log + [Popped(ret)];
          owner := PopFinish(t, Got(ret));
        } else {
          owner := PopFinish(t, Abort);
        }
      case PopFinish(t, res) => if t >= -1 { bottom := t + 1; owner := DonePop(res); }
      case _ =>
    }

    method ReadBottom(b: int, a: nat, t: int)
      requires Wf(View()) && owner == PopGet(b, a, t)
      modifies this
      ensures View() == PopStep(old(View())) && arrays == old(arrays)
    {
      if a < |arrays| && b >= 0 {
        assert Contents()[a] == arrays[a].data[..];
        var ret := arrays[a].At(b);
        if b - t > 0 {
          log := log + [Popped(ret)];
          owner := DonePop(Got(ret));
        } else {
          owner := PopCas(t, ret);
        }
      }
    }

    /** One shared-memory access of thief `t`. */
    method ThiefAccess(t: Tid)
      requires Wf(View()) && t in thieves
      modifies this
      ensures View() == ThiefStep(old(View()), t) && arrays == old(arrays)
    {
      match thieves[t]
      case StealTop => thieves := thieves[t := StealBottom(top)];
      case StealBottom(tp) => thieves := thieves[t := StealArray(tp, bottom)];
      case StealArray(tp, b) =>
        thieves := thieves[t := if b - tp <= 0 then DoneSteal(Empty) else StealGet(tp, cur)];
      case StealGet(tp, a) =>
        if a < |arrays| && tp >= 0 {
          assert Contents()[a] == arrays[a].data[..];
          var ret := arrays[a].At(tp);
          thieves := thieves[t := StealCas(tp, ret)];
        }
      case StealCas(tp, ret) =>
        if top == tp {
          top := tp + 1;
          log := log + [Stole(t, ret)];
          thieves := thieves[t := DoneSteal(Got(ret))];
        } else {
          thieves := thieves[t := DoneSteal(Abort)];
        }
      case _ =>
    }

    method Perform(a: Action)
      requires Wf(View()) && Separate()
      modifies this, Memory()
      ensures View() == Next(old(View()), a)
      ensures Separate() && fresh(Memory() - old(Memory()))
    {
      match a
      case Push(v, grow) =>
        if owner.Idle? || owner.DonePush? || owner.DonePop? { owner := PushBottom(v, grow); }
      case Pop =>
        if owner.Idle? || owner.DonePush? || owner.DonePop? { owner := PopBottom; }
      case Owner(memory) =>
        if owner.PushArray? || owner.PushPut? {
          PushArrayAccess(memory);
        } else if Pushing(owner) {
          PushAccess();
        } else {
          PopAccess();
        }
      case Steal(t) =>
        if t in thieves && (thieves[t].Resting? || thieves[t].DoneSteal?) { thieves := thieves[t := StealTop]; }
      case Thief(t) => if t in thieves { ThiefAccess(t); }
    }

    /** Any interleaving of the owner and the thieves, performed in place. */
    method Interleave(sched: seq<Action>)
      requires Inv(View()) && Separate()
      modifies this, Memory()
      ensures View() == Run(old(View()), sched) && Inv(View()) && Separate()
    {
      for i := 0 to |sched|
        invariant Inv(View()) && Separate() && fresh(Memory() - old(Memory()))
        invariant Run(old(View()), sched) == Run(View(), sched[i..])
      {
        NextInv(View(), sched[i]);
        Perform(sched[i]);
        assert sched[i..][1..] == sched[i + 1..];
      }
    }
  }
}
