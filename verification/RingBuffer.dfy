/** The lock-free ring buffer: any number of threads run trypush, trypop and
    size, one shared-memory access at a time. */
module RingBuffer {
  import opened Common

  /** Where a thread stands; the fields are its registers. Each step performs
      the one access named in the comment. */
  datatype Pc =
    | Idle
    | PushLow(v: Item)                                // read low
    | PushHigh(v: Item, low: nat)                     // read high
    | PushSlot(v: Item, low: nat, high: nat)          // read buffer[index]
    | PushCas(v: Item, high: nat)                     // CAS high
    | PushStore(v: Item, at: nat)                     // buffer[index] = in
    | PopHigh                                         // read high
    | PopLow(high: nat)                               // read low
    | PopSlot(high: nat, low: nat)                    // read buffer[index]
    | PopCas(low: nat, ret: Item)                     // CAS low
    | PopClear(at: nat, ret: Item)                    // buffer[index] = 0
    | SizeHigh                                        // read high
    | SizeLow(high: nat)                              // read low
    | DonePush(ok: bool)
    | DonePop(res: Option<Item>)
    | DoneSize(n: nat)

  datatype Op = TryPush(v: Item) | TryPop | Size

  datatype Action = Call(t: Tid, op: Op) | Go(t: Tid)

  /** `pushed` and `popped` record the arguments and results in the order of the
      successful CASes; `storing` and `clearing` name the thread that has claimed
      an index and not yet written its slot. No step reads these four. */
  datatype State = State(
    size: nat, high: nat, low: nat, buf: seq<Option<Item>>, pcs: map<Tid, Pc>,
    pushed: seq<Item>, popped: seq<Item>,
    storing: map<nat, Tid>, clearing: map<nat, Tid>)

  predicate Wf(s: State) {
    s.size > 0 && |s.buf| == s.size
  }

  predicate Init(s: State) {
    && Wf(s) && s.high == s.low == 0
    && (forall k :: 0 <= k < s.size ==> s.buf[k] == None)
    && (forall t :: t in s.pcs ==> s.pcs[t] == Idle)
    && s.pushed == [] && s.popped == [] && s.storing == map[] && s.clearing == map[]
  }

  predicate Ready(pc: Pc) {
    pc.Idle? || pc.DonePush? || pc.DonePop? || pc.DoneSize?
  }

  function Start(op: Op): Pc {
    match op
    case TryPush(v) => PushLow(v)
    case TryPop => PopHigh
    case Size => SizeHigh
  }

  function Goto(s: State, t: Tid, pc: Pc): State {
    s.(pcs := s.pcs[t := pc])
  }

  /** The CAS that moves high from its current value succeeds. */
  function ClaimPush(s: State, t: Tid, v: Item): State {
    s.(pcs := s.pcs[t := PushStore(v, s.high)], high := s.high + 1,
       pushed := s.pushed + [v], storing := s.storing[s.high := t])
  }

  function StoreItem(s: State, t: Tid, v: Item, at: nat): (r: State)
    requires Wf(s)
    ensures Wf(r)
  {
    s.(pcs := s.pcs[t := DonePush(true)], buf := s.buf[Slot(at, s.size) := Some(v)], storing := s.storing - {at})
  }

  /** The CAS that moves low from its current value succeeds. */
  function ClaimPop(s: State, t: Tid, ret: Item): State {
    s.(pcs := s.pcs[t := PopClear(s.low, ret)], low := s.low + 1,
       popped := s.popped + [ret], clearing := s.clearing[s.low := t])
  }

  function ClearSlot(s: State, t: Tid, at: nat, ret: Item): (r: State)
    requires Wf(s)
    ensures Wf(r)
  {
    s.(pcs := s.pcs[t := DonePop(Some(ret))], buf := s.buf[Slot(at, s.size) := None], clearing := s.clearing - {at})
  }

  /** One step of a trypush. */
  function PushStep(s: State, t: Tid, pc: Pc): (r: State)
    requires Wf(s)
    ensures Wf(r)
  {
    match pc
    case PushLow(v) => Goto(s, t, PushHigh(v, s.low))
    case PushHigh(v, low) => Goto(s, t, PushSlot(v, low, s.high))
    case PushSlot(v, low, high) =>
      if s.buf[Slot(high, s.size)] == None && RoomBelow(high, low, s.size)
      then Goto(s, t, PushCas(v, high))
      else Goto(s, t, DonePush(false))
    case PushCas(v, high) => if s.high == high then ClaimPush(s, t, v) else Goto(s, t, DonePush(false))
    case PushStore(v, at) => StoreItem(s, t, v, at)
    case _ => s
  }

  /** One step of a trypop. */
  function PopStep(s: State, t: Tid, pc: Pc): (r: State)
    requires Wf(s)
    ensures Wf(r)
  {
    match pc
    case PopHigh => Goto(s, t, PopLow(s.high))
    case PopLow(high) => Goto(s, t, PopSlot(high, s.low))
    case PopSlot(high, low) =>
      var ret := s.buf[Slot(low, s.size)];
      if ret.Some? && high > low then Goto(s, t, PopCas(low, ret.value)) else Goto(s, t, DonePop(None))
    case PopCas(low, ret) => if s.low == low then ClaimPop(s, t, ret) else Goto(s, t, DonePop(None))
    case PopClear(at, ret) => ClearSlot(s, t, at, ret)
    case _ => s
  }

  /** One step of size(). */
  function SizeStep(s: State, t: Tid, pc: Pc): State {
    match pc
    case SizeHigh => Goto(s, t, SizeLow(s.high))
    case SizeLow(high) => Goto(s, t, DoneSize(if high >= s.low then high - s.low else 0))
    case _ => s
  }

  predicate Pushing(pc: Pc) {
    pc.PushLow? || pc.PushHigh? || pc.PushSlot? || pc.PushCas? || pc.PushStore?
  }

  predicate Popping(pc: Pc) {
    pc.PopHigh? || pc.PopLow? || pc.PopSlot? || pc.PopCas? || pc.PopClear?
  }

  /** One step of thread `t`, in whichever operation it is. */
  function GoStep(s: State, t: Tid): (r: State)
    requires Wf(s) && t in s.pcs
    ensures Wf(r) && t in r.pcs
  {
    var pc := s.pcs[t];
    if Pushing(pc) then PushStep(s, t, pc)
    else if Popping(pc) then PopStep(s, t, pc)
    else SizeStep(s, t, pc)
  }

  /** An action that is not enabled changes nothing. */
  function Next(s: State, a: Action): (r: State)
    requires Wf(s)
    ensures Wf(r)
  {
    if a.t !in s.pcs then s
    else match a
      case Call(t, op) => if Ready(s.pcs[t]) then Goto(s, t, Start(op)) else s
      case Go(t) => GoStep(s, t)
  }

  function Run(s: State, sched: seq<Action>): (r: State)
    requires Wf(s)
    ensures Wf(r)
    decreases |sched|
  {
    if sched == [] then s else Run(Next(s, sched[0]), sched[1..])
  }

  // ---------------------------------------------------------------- invariant

  /** What the slot of logical index `i`, with low <= i < low + size, holds. */
  function Expected(s: State, i: nat): Option<Item>
    requires |s.pushed| == s.high && s.low <= s.high && s.low <= i < s.low + s.size
  {
    if i < s.high then (if i in s.storing then None else Some(s.pushed[i]))
    else if i >= s.size && i - s.size in s.clearing then Some(s.pushed[i - s.size])
    else None
  }

  ghost predicate Counts(s: State) {
    && Wf(s)
    && s.low <= s.high <= s.low + s.size
    && |s.pushed| == s.high
    && s.popped == s.pushed[..s.low]
  }

  /** Every claimed and unwritten index has one thread about to write it. */
  ghost predicate StoringOk(s: State)
    requires Counts(s)
  {
    forall i :: i in s.storing ==>
      s.low <= i < s.high && s.storing[i] in s.pcs && s.pcs[s.storing[i]] == PushStore(s.pushed[i], i)
  }

  ghost predicate ClearingOk(s: State)
    requires Counts(s)
  {
    forall i :: i in s.clearing ==>
      i < s.low && s.high <= i + s.size && s.clearing[i] in s.pcs && s.pcs[s.clearing[i]] == PopClear(i, s.pushed[i])
  }

  ghost predicate SlotsOk(s: State)
    requires Counts(s)
  {
    forall i: nat {:trigger Slot(i, s.size)} :: s.low <= i < s.low + s.size ==> s.buf[Slot(i, s.size)] == Expected(s, i)
  }

  ghost predicate Shared(s: State) {
    Counts(s) && StoringOk(s) && ClearingOk(s) && SlotsOk(s)
  }

  ghost predicate ThreadOk(s: State, t: Tid)
    requires Shared(s) && t in s.pcs
  {
    match s.pcs[t]
    case PushHigh(_, low) => low <= s.low
    case PushSlot(_, low, high) => low <= s.low && low <= high <= s.high
    case PushCas(_, high) =>
      high <= s.high && (high == s.high ==> high < s.low + s.size && Expected(s, high) == None)
    case PushStore(v, at) => at in s.storing && s.storing[at] == t
    case PopLow(high) => high <= s.high
    case PopSlot(high, low) => high <= s.high && low <= s.low
    case PopCas(low, ret) =>
      low <= s.low && (low == s.low ==> low < s.high && low !in s.storing && ret == s.pushed[low])
    case PopClear(at, ret) => at in s.clearing && s.clearing[at] == t
    case SizeLow(high) => high <= s.high
    case DoneSize(n) => n <= s.size
    case _ => true
  }

  ghost predicate Inv(s: State) {
    Shared(s) && forall t :: t in s.pcs ==> ThreadOk(s, t)
  }

  /** Threads that are about to write a slot are the ones the claims name. */
  predicate Claiming(pc: Pc) {
    pc.PushStore? || pc.PopClear?
  }

  lemma GotoShared(s: State, t: Tid, pc: Pc)
    requires Shared(s) && t in s.pcs && !Claiming(s.pcs[t])
    ensures Shared(Goto(s, t, pc))
  {
    var s' := Goto(s, t, pc);
    assert forall i: nat | s.low <= i < s.low + s.size :: Expected(s', i) == Expected(s, i);
  }

  lemma ClaimPushSlots(s: State, t: Tid, v: Item)
    requires Counts(s) && SlotsOk(s)
    requires s.high < s.low + s.size && Expected(s, s.high) == None
    ensures Counts(ClaimPush(s, t, v)) && SlotsOk(ClaimPush(s, t, v))
  {
    var s' := ClaimPush(s, t, v);
    assert forall i: nat | s.low <= i < s.low + s.size :: Expected(s', i) == Expected(s, i);
  }

  lemma ClaimPushShared(s: State, t: Tid, v: Item)
    requires Shared(s) && t in s.pcs && !Claiming(s.pcs[t])
    requires s.high < s.low + s.size && Expected(s, s.high) == None
    ensures Shared(ClaimPush(s, t, v))
  {
    ClaimPushSlots(s, t, v);
  }

  lemma StoreItemSlots(s: State, t: Tid, v: Item, at: nat)
    requires Counts(s) && SlotsOk(s) && s.low <= at < s.high && v == s.pushed[at]
    ensures Counts(StoreItem(s, t, v, at)) && SlotsOk(StoreItem(s, t, v, at))
  {
    var s' := StoreItem(s, t, v, at);
    forall i: nat | s.low <= i < s.low + s.size ensures s'.buf[Slot(i, s'.size)] == Expected(s', i) {
      SlotWindowPair(i, at, s.low, s.size);
      assert s.buf[Slot(i, s.size)] == Expected(s, i);
    }
  }

  lemma StoreItemShared(s: State, t: Tid, v: Item, at: nat)
    requires Shared(s) && at in s.storing && s.storing[at] == t && s.pcs[t] == PushStore(v, at)
    ensures Shared(StoreItem(s, t, v, at))
  {
    StoreItemSlots(s, t, v, at);
  }

  lemma ClaimPopSlots(s: State, t: Tid)
    requires Counts(s) && SlotsOk(s) && s.low < s.high && s.low !in s.storing
    ensures Counts(ClaimPop(s, t, s.pushed[s.low])) && SlotsOk(ClaimPop(s, t, s.pushed[s.low]))
  {
    var s' := ClaimPop(s, t, s.pushed[s.low]);
    assert Slot(s.low + s.size, s.size) == Slot(s.low, s.size);
    forall i: nat | s'.low <= i < s'.low + s'.size ensures s'.buf[Slot(i, s'.size)] == Expected(s', i) {
      assert i < s.low + s.size ==> s.buf[Slot(i, s.size)] == Expected(s, i);
      assert s.buf[Slot(s.low, s.size)] == Expected(s, s.low);
    }
  }

  lemma ClaimPopShared(s: State, t: Tid)
    requires Shared(s) && t in s.pcs && !Claiming(s.pcs[t])
    requires s.low < s.high && s.low !in s.storing
    ensures Shared(ClaimPop(s, t, s.pushed[s.low]))
  {
    ClaimPopSlots(s, t);
  }

  lemma ClearSlotSlots(s: State, t: Tid, at: nat, ret: Item)
    requires Counts(s) && SlotsOk(s) && at < s.low && s.high <= at + s.size
    ensures Counts(ClearSlot(s, t, at, ret)) && SlotsOk(ClearSlot(s, t, at, ret))
  {
    var s' := ClearSlot(s, t, at, ret);
    assert Slot(at + s.size, s.size) == Slot(at, s.size);
    forall i: nat | s.low <= i < s.low + s.size ensures s'.buf[Slot(i, s'.size)] == Expected(s', i) {
      SlotWindowPair(i, at + s.size, s.low, s.size);
      assert s.buf[Slot(i, s.size)] == Expected(s, i);
    }
  }

  lemma ClearSlotShared(s: State, t: Tid, at: nat, ret: Item)
    requires Shared(s) && at in s.clearing && s.clearing[at] == t && s.pcs[t] == PopClear(at, ret)
    ensures Shared(ClearSlot(s, t, at, ret))
  {
    ClearSlotSlots(s, t, at, ret);
  }

  // What one thread's registers promise survives the steps of the others.

  lemma GotoOther(s: State, t: Tid, pc: Pc, u: Tid)
    requires Shared(s) && Shared(Goto(s, t, pc)) && u in s.pcs && u != t && ThreadOk(s, u)
    ensures ThreadOk(Goto(s, t, pc), u)
  {
  }

  lemma ClaimPushOther(s: State, t: Tid, v: Item, u: Tid)
    requires Shared(s) && Shared(ClaimPush(s, t, v)) && u in s.pcs && u != t && ThreadOk(s, u)
    ensures ThreadOk(ClaimPush(s, t, v), u)
  {
  }

  lemma StoreItemOther(s: State, t: Tid, v: Item, at: nat, u: Tid)
    requires Shared(s) && Shared(StoreItem(s, t, v, at)) && u in s.pcs && u != t && ThreadOk(s, u)
    requires at in s.storing && s.storing[at] == t
    ensures ThreadOk(StoreItem(s, t, v, at), u)
  {
  }

  lemma ClaimPopOther(s: State, t: Tid, ret: Item, u: Tid)
    requires Shared(s) && Shared(ClaimPop(s, t, ret)) && u in s.pcs && u != t && ThreadOk(s, u)
    ensures ThreadOk(ClaimPop(s, t, ret), u)
  {
  }

  lemma ClearSlotOther(s: State, t: Tid, at: nat, ret: Item, u: Tid)
    requires Shared(s) && Shared(ClearSlot(s, t, at, ret)) && u in s.pcs && u != t && ThreadOk(s, u)
    requires at in s.clearing && s.clearing[at] == t
    ensures ThreadOk(ClearSlot(s, t, at, ret), u)
  {
  }

  lemma GotoInv(s: State, t: Tid, pc: Pc)
    requires Inv(s) && t in s.pcs && !Claiming(s.pcs[t])
    requires Shared(Goto(s, t, pc)) ==> ThreadOk(Goto(s, t, pc), t)
    ensures Inv(Goto(s, t, pc))
  {
    GotoShared(s, t, pc);
    forall u | u in s.pcs && u != t ensures ThreadOk(Goto(s, t, pc), u) {
      GotoOther(s, t, pc, u);
    }
  }

  lemma ClaimPushInv(s: State, t: Tid)
    requires Inv(s) && t in s.pcs && s.pcs[t].PushCas? && s.pcs[t].high == s.high
    ensures Inv(ClaimPush(s, t, s.pcs[t].v))
  {
    var v := s.pcs[t].v;
    assert ThreadOk(s, t);
    ClaimPushShared(s, t, v);
    forall u | u in s.pcs && u != t ensures ThreadOk(ClaimPush(s, t, v), u) {
      ClaimPushOther(s, t, v, u);
    }
  }

  lemma StoreItemInv(s: State, t: Tid)
    requires Inv(s) && t in s.pcs && s.pcs[t].PushStore?
    ensures Inv(StoreItem(s, t, s.pcs[t].v, s.pcs[t].at))
  {
    var PushStore(v, at) := s.pcs[t];
    assert ThreadOk(s, t);
    StoreItemShared(s, t, v, at);
    forall u | u in s.pcs && u != t ensures ThreadOk(StoreItem(s, t, v, at), u) {
      StoreItemOther(s, t, v, at, u);
    }
  }

  lemma ClaimPopInv(s: State, t: Tid)
    requires Inv(s) && t in s.pcs && s.pcs[t].PopCas? && s.pcs[t].low == s.low
    ensures Inv(ClaimPop(s, t, s.pcs[t].ret))
  {
    var ret := s.pcs[t].ret;
    assert ThreadOk(s, t);
    ClaimPopShared(s, t);
    forall u | u in s.pcs && u != t ensures ThreadOk(ClaimPop(s, t, ret), u) {
      ClaimPopOther(s, t, ret, u);
    }
  }

  lemma ClearSlotInv(s: State, t: Tid)
    requires Inv(s) && t in s.pcs && s.pcs[t].PopClear?
    ensures Inv(ClearSlot(s, t, s.pcs[t].at, s.pcs[t].ret))
  {
    var PopClear(at, ret) := s.pcs[t];
    assert ThreadOk(s, t);
    ClearSlotShared(s, t, at, ret);
    forall u | u in s.pcs && u != t ensures ThreadOk(ClearSlot(s, t, at, ret), u) {
      ClearSlotOther(s, t, at, ret, u);
    }
  }

  /** A thread that saw its slot empty and room below `size` may claim `high`
      as long as nobody else does. */
  lemma SlotSeenEmpty(s: State, low: nat, high: nat)
    requires Shared(s) && low <= s.low && RoomBelow(high, low, s.size) && high <= s.high
    requires s.buf[Slot(high, s.size)] == None
    ensures high == s.high ==> high < s.low + s.size && Expected(s, high) == None
  {
  }

  lemma SlotSeenFull(s: State, low: nat)
    requires Shared(s) && s.low == low < s.high && s.buf[Slot(low, s.size)].Some?
    ensures low !in s.storing && s.buf[Slot(low, s.size)] == Some(s.pushed[low])
  {
    assert s.buf[Slot(low, s.size)] == Expected(s, low);
  }

  lemma PushInv(s: State, t: Tid)
    requires Inv(s) && t in s.pcs
    ensures Inv(PushStep(s, t, s.pcs[t]))
  {
    assert ThreadOk(s, t);
    match s.pcs[t]
    case PushLow(v) => GotoInv(s, t, PushHigh(v, s.low));
    case PushHigh(v, low) => GotoInv(s, t, PushSlot(v, low, s.high));
    case PushSlot(v, low, high) =>
      if s.buf[Slot(high, s.size)] == None && RoomBelow(high, low, s.size) {
        SlotSeenEmpty(s, low, high);
        GotoInv(s, t, PushCas(v, high));
      } else {
        GotoInv(s, t, DonePush(false));
      }
    case PushCas(v, high) =>
      if s.high == high { ClaimPushInv(s, t); } else { GotoInv(s, t, DonePush(false)); }
    case PushStore(v, at) => StoreItemInv(s, t);
    case _ =>
  }

  lemma PopInv(s: State, t: Tid)
    requires Inv(s) && t in s.pcs
    ensures Inv(PopStep(s, t, s.pcs[t]))
  {
    assert ThreadOk(s, t);
    match s.pcs[t]
    case PopHigh => GotoInv(s, t, PopLow(s.high));
    case PopLow(high) => GotoInv(s, t, PopSlot(high, s.low));
    case PopSlot(high, low) =>
      var ret := s.buf[Slot(low, s.size)];
      if ret.Some? && high > low {
        if s.low == low { SlotSeenFull(s, low); }
        GotoInv(s, t, PopCas(low, ret.value));
      } else {
        GotoInv(s, t, DonePop(None));
      }
    case PopCas(low, ret) =>
      if s.low == low { ClaimPopInv(s, t); } else { GotoInv(s, t, DonePop(None)); }
    case PopClear(at, ret) => ClearSlotInv(s, t);
    case _ =>
  }

  lemma SizeInv(s: State, t: Tid)
    requires Inv(s) && t in s.pcs
    ensures Inv(SizeStep(s, t, s.pcs[t]))
  {
    assert ThreadOk(s, t);
    match s.pcs[t]
    case SizeHigh => GotoInv(s, t, SizeLow(s.high));
    case SizeLow(high) => GotoInv(s, t, DoneSize(if high >= s.low then high - s.low else 0));
    case _ =>
  }

  lemma CallInv(s: State, t: Tid, op: Op)
    requires Inv(s) && t in s.pcs && Ready(s.pcs[t])
    ensures Inv(Goto(s, t, Start(op)))
  {
    GotoInv(s, t, Start(op));
  }

  /** Every step of every thread keeps the invariant. */
  lemma NextInv(s: State, a: Action)
    requires Inv(s)
    ensures Inv(Next(s, a))
  {
    if a.t in s.pcs {
      match a
      case Call(t, op) => if Ready(s.pcs[t]) { CallInv(s, t, op); }
      case Go(t) =>
        PushInv(s, t);
        PopInv(s, t);
        SizeInv(s, t);
    }
  }

  lemma {:induction false} RunInv(s: State, sched: seq<Action>)
    requires Inv(s)
    ensures Inv(Run(s, sched))
    decreases |sched|
  {
    if sched == [] {
    } else {
      NextInv(s, sched[0]);
      RunInv(Next(s, sched[0]), sched[1..]);
    }
  }

  lemma InitInv(s: State)
    requires Init(s)
    ensures Inv(s)
  {
  }

  // ------------------------------------------------------------- main results

  /** The abstract queue: items claimed by a push and not yet by a pop. */
  function Queue(s: State): seq<Item>
    requires s.low <= s.high == |s.pushed|
  {
    s.pushed[s.low..]
  }

  /** In every run, under any interleaving of any number of threads: the items
      popped are, in the order of the CASes on low, the first items pushed in
      the order of the CASes on high; what was pushed and not popped is queued;
      the queue never exceeds the capacity; and size() never reports more. */
  lemma RunIsFifo(s0: State, sched: seq<Action>)
    requires Init(s0)
    ensures var s := Run(s0, sched);
      && s.low <= s.high == |s.pushed|
      && s.pushed == s.popped + Queue(s)
      && |Queue(s)| <= s.size
      && (forall t :: t in s.pcs && s.pcs[t].DoneSize? ==> s.pcs[t].n <= s.size)
  {
    InitInv(s0);
    RunInv(s0, sched);
    var s := Run(s0, sched);
    forall t | t in s.pcs && s.pcs[t].DoneSize? ensures s.pcs[t].n <= s.size {
      assert ThreadOk(s, t);
    }
  }

  /** The steps of a trypush on the abstract queue: only its successful CAS
      changes it, appending the thread's argument to a queue that had room. */
  lemma PushRefines(s: State, t: Tid)
    requires Inv(s) && t in s.pcs && Pushing(s.pcs[t])
    ensures Inv(GoStep(s, t))
    ensures var q, q', pc := Queue(s), Queue(GoStep(s, t)), s.pcs[t];
      if pc.PushCas? && pc.high == s.high
      then |q| < s.size && q' == q + [pc.v] && GoStep(s, t).pcs[t] == PushStore(pc.v, s.high)
      else q' == q
  {
    PushInv(s, t);
    assert ThreadOk(s, t);
    if s.pcs[t].PushCas? { DropAppend(s.pushed, s.low, s.pcs[t].v); }
  }

  /** The steps of a trypop: only its successful CAS changes the queue, removing
      the first item, which is the one the thread will return. */
  lemma PopRefines(s: State, t: Tid)
    requires Inv(s) && t in s.pcs && Popping(s.pcs[t])
    ensures Inv(GoStep(s, t))
    ensures var q, q', pc := Queue(s), Queue(GoStep(s, t)), s.pcs[t];
      if pc.PopCas? && pc.low == s.low
      then q == [pc.ret] + q' && GoStep(s, t).pcs[t] == PopClear(s.low, pc.ret)
      else q' == q
  {
    PopInv(s, t);
    assert ThreadOk(s, t);
    if s.pcs[t].PopCas? && s.pcs[t].low == s.low {
      DropFirst(s.pushed, s.low);
    } else {
      PopKeepsPushed(s, t);
    }
  }

  lemma PopKeepsPushed(s: State, t: Tid)
    requires Wf(s) && t in s.pcs && Popping(s.pcs[t]) && !(s.pcs[t].PopCas? && s.pcs[t].low == s.low)
    ensures GoStep(s, t).pushed == s.pushed && GoStep(s, t).low == s.low
  {
  }

  /** Claiming an index and writing its slot are separate steps, yet a store
      always lands on an empty slot, a clear always erases the very item its
      thread has claimed, and no two threads are about to write the same slot. */
  lemma SlotWritesAreClean(s: State, t: Tid, u: Tid)
    requires Inv(s) && t in s.pcs && u in s.pcs && Claiming(s.pcs[t])
    ensures s.pcs[t].PushStore? ==> s.buf[Slot(s.pcs[t].at, s.size)] == None
    ensures s.pcs[t].PopClear? ==>
              s.buf[Slot(s.pcs[t].at, s.size)] == Some(s.pcs[t].ret) && s.pcs[t].ret == s.pushed[s.pcs[t].at]
    ensures t != u && Claiming(s.pcs[u]) ==> Slot(s.pcs[t].at, s.size) != Slot(s.pcs[u].at, s.size)
  {
    assert ThreadOk(s, t) && ThreadOk(s, u);
    var i := Claimed(s, t);
    if t != u && Claiming(s.pcs[u]) {
      var j := Claimed(s, u);
      SlotWindowPair(i, j, s.low, s.size);
    }
  }

  /** The index in the current lap whose slot a claiming thread will write. */
  lemma Claimed(s: State, t: Tid) returns (i: nat)
    requires Inv(s) && t in s.pcs && Claiming(s.pcs[t])
    ensures s.low <= i < s.low + s.size && Slot(i, s.size) == Slot(s.pcs[t].at, s.size)
    ensures i == if s.pcs[t].PushStore? then s.pcs[t].at else s.pcs[t].at + s.size
    ensures s.buf[Slot(i, s.size)] == Expected(s, i)
  {
    assert ThreadOk(s, t);
    i := if s.pcs[t].PushStore? then s.pcs[t].at else s.pcs[t].at + s.size;
  }

  /** A trypush fails at its slot read only for cause: another thread moved a
      counter it had read, the queue is full, or the slot it would use was
      popped and is still being cleared. */
  lemma PushFailsForCause(s: State, t: Tid)
    requires Inv(s) && t in s.pcs && s.pcs[t].PushSlot?
    ensures var PushSlot(_, low, high) := s.pcs[t];
      low == s.low && high == s.high ==>
        (GoStep(s, t).pcs[t] == DonePush(false) <==>
          |Queue(s)| == s.size || (s.high >= s.size && s.high - s.size in s.clearing))
  {
    assert ThreadOk(s, t);
  }

  /** Likewise a trypop: raced, empty, or the first item is claimed but its
      push has not stored it yet. */
  lemma PopFailsForCause(s: State, t: Tid)
    requires Inv(s) && t in s.pcs && s.pcs[t].PopSlot?
    ensures var PopSlot(high, low) := s.pcs[t];
      low == s.low && high == s.high ==>
        (GoStep(s, t).pcs[t] == DonePop(None) <==> Queue(s) == [] || s.low in s.storing)
  {
    assert ThreadOk(s, t);
    assert s.buf[Slot(s.low, s.size)] == Expected(s, s.low);
  }

  // An operation that runs alone is exact.

  ghost predicate Quiet(s: State) {
    Inv(s) && s.storing == map[] && s.clearing == map[]
  }

  /** Thread `t` takes `n` steps while nobody else moves. */
  function Solo(s: State, t: Tid, n: nat): (r: State)
    requires Wf(s) && t in s.pcs
    ensures Wf(r) && t in r.pcs
    decreases n
  {
    if n == 0 then s else Solo(GoStep(s, t), t, n - 1)
  }

  lemma Regoto(s: State, t: Tid, pc: Pc, pc': Pc)
    ensures Goto(Goto(s, t, pc), t, pc') == Goto(s, t, pc')
  {
    assert s.pcs[t := pc][t := pc'] == s.pcs[t := pc'];
  }

  /** Alone, trypush succeeds exactly when the buffer is not full, and appends. */
  lemma TryPushAlone(s: State, t: Tid, v: Item)
    requires Quiet(s) && t in s.pcs && Ready(s.pcs[t])
    ensures var s' := Solo(Next(s, Call(t, TryPush(v))), t, 5);
      && Quiet(s')
      && s'.pcs[t] == DonePush(|Queue(s)| < s.size)
      && Queue(s') == (if |Queue(s)| < s.size then Queue(s) + [v] else Queue(s))
  {
    var s1 := Goto(s, t, PushLow(v));
    var s2 := Goto(s, t, PushHigh(v, s.low));
    var s3 := Goto(s, t, PushSlot(v, s.low, s.high));
    Regoto(s, t, PushLow(v), PushHigh(v, s.low));
    Regoto(s, t, PushHigh(v, s.low), PushSlot(v, s.low, s.high));
    assert GoStep(s1, t) == s2 && GoStep(s2, t) == s3;
    CallInv(s, t, TryPush(v));
    PushInv(s1, t);
    PushInv(s2, t);
    TryPushTail(s3, t);
    assert Solo(s1, t, 5) == Solo(s2, t, 4) == Solo(s3, t, 3);
  }

  lemma TryPushTail(s: State, t: Tid)
    requires Quiet(s) && t in s.pcs && s.pcs[t].PushSlot? && s.pcs[t].low == s.low && s.pcs[t].high == s.high
    ensures var s' := Solo(s, t, 3);
      && Quiet(s')
      && s'.pcs[t] == DonePush(|Queue(s)| < s.size)
      && Queue(s') == (if |Queue(s)| < s.size then Queue(s) + [s.pcs[t].v] else Queue(s))
  {
    PushFailsForCause(s, t);
    PushInv(s, t);
    var s1 := GoStep(s, t);
    if s1.pcs[t].PushCas? {
      PushClaimAndStore(s1, t);
    }
    assert Solo(s, t, 3) == Solo(s1, t, 2);
  }

  lemma PushClaimAndStore(s: State, t: Tid)
    requires Quiet(s) && t in s.pcs && s.pcs[t].PushCas? && s.pcs[t].high == s.high
    ensures var s' := Solo(s, t, 2);
      Quiet(s') && s'.pcs[t] == DonePush(true) && Queue(s') == Queue(s) + [s.pcs[t].v]
  {
    PushRefines(s, t);
    var s1 := GoStep(s, t);
    PushRefines(s1, t);
    assert Solo(s, t, 2) == Solo(s1, t, 1) == GoStep(s1, t);
  }

  /** Alone, trypop returns the first item, and None exactly when empty. */
  lemma TryPopAlone(s: State, t: Tid)
    requires Quiet(s) && t in s.pcs && Ready(s.pcs[t])
    ensures var s' := Solo(Next(s, Call(t, TryPop)), t, 5);
      && Quiet(s')
      && s'.pcs[t] == DonePop(if Queue(s) == [] then None else Some(Queue(s)[0]))
      && Queue(s') == (if Queue(s) == [] then [] else Queue(s)[1..])
  {
    var s1 := Goto(s, t, PopHigh);
    var s2 := Goto(s, t, PopLow(s.high));
    var s3 := Goto(s, t, PopSlot(s.high, s.low));
    Regoto(s, t, PopHigh, PopLow(s.high));
    Regoto(s, t, PopLow(s.high), PopSlot(s.high, s.low));
    assert GoStep(s1, t) == s2 && GoStep(s2, t) == s3;
    CallInv(s, t, TryPop);
    PopInv(s1, t);
    PopInv(s2, t);
    TryPopTail(s3, t);
    assert Solo(s1, t, 5) == Solo(s2, t, 4) == Solo(s3, t, 3);
  }

  lemma TryPopTail(s: State, t: Tid)
    requires Quiet(s) && t in s.pcs && s.pcs[t].PopSlot? && s.pcs[t].low == s.low && s.pcs[t].high == s.high
    ensures var s' := Solo(s, t, 3);
      && Quiet(s')
      && s'.pcs[t] == DonePop(if Queue(s) == [] then None else Some(Queue(s)[0]))
      && Queue(s') == (if Queue(s) == [] then [] else Queue(s)[1..])
  {
    PopFailsForCause(s, t);
    PopInv(s, t);
    var s1 := GoStep(s, t);
    if s1.pcs[t].PopCas? {
      PopClaimAndClear(s1, t);
    }
    assert Solo(s, t, 3) == Solo(s1, t, 2);
  }

  lemma PopClaimAndClear(s: State, t: Tid)
    requires Quiet(s) && t in s.pcs && s.pcs[t].PopCas? && s.pcs[t].low == s.low
    ensures var s' := Solo(s, t, 2);
      Quiet(s') && s'.pcs[t] == DonePop(Some(s.pcs[t].ret)) && Queue(s) == [s.pcs[t].ret] + Queue(s')
  {
    PopRefines(s, t);
    var s1 := GoStep(s, t);
    PopRefines(s1, t);
    assert Solo(s, t, 2) == Solo(s1, t, 1) == GoStep(s1, t);
  }

  // ------------------------------------------------------------ in-place form

  /** The ring buffer as the source keeps it: counters and an array updated in
      place, with the registers of the threads that are inside an operation. */
  class Ring {
    const size: nat
    const buffer: array<Option<Item>>
    var high: nat
    var low: nat
    var pcs: map<Tid, Pc>
    ghost var pushed: seq<Item>
    ghost var popped: seq<Item>
    ghost var storing: map<nat, Tid>
    ghost var clearing: map<nat, Tid>

    ghost function View(): State
      reads this, buffer
    {
      State(size, high, low, buffer[..], pcs, pushed, popped, storing, clearing)
    }

    constructor (size: nat, threads: set<Tid>)
      requires size > 0
      ensures Init(View()) && View().size == size && pcs.Keys == threads && fresh(buffer)
    {
      this.size := size;
      buffer := new Option<Item>[size](_ => None);
      high, low := 0, 0;
      pcs := map t | t in threads :: Idle;
      pushed, popped, storing, clearing := [], [], map[], map[];
    }

    /** One shared-memory access of thread `t`'s trypush. */
    method PushAccess(t: Tid)
      requires Wf(View()) && t in pcs
      modifies this, buffer
      ensures View() == PushStep(old(View()), t, old(pcs[t]))
    {
      match pcs[t]
      case PushLow(v) => pcs := pcs[t := PushHigh(v, low)];
      case PushHigh(v, l) => pcs := pcs[t := PushSlot(v, l, high)];
      case PushSlot(v, l, h) =>
        if buffer[Slot(h, size)] == None && RoomBelow(h, l, size) {
          pcs := pcs[t := PushCas(v, h)];
        } else {
          pcs := pcs[t := DonePush(false)];
        }
      case PushCas(v, h) =>
        if high == h {
          high := h + 1;
          pushed, storing := pushed + [v], storing[h := t];
          pcs := pcs[t := PushStore(v, h)];
        } else {
          pcs := pcs[t := DonePush(false)];
        }
      case PushStore(v, at) =>
        buffer[Slot(at, size)] := Some(v);
        storing := storing - {at};
        pcs := pcs[t := DonePush(true)];
      case _ =>
    }

    /** One shared-memory access of thread `t`'s trypop. */
    method PopAccess(t: Tid)
      requires Wf(View()) && t in pcs
      modifies this, buffer
      ensures View() == PopStep(old(View()), t, old(pcs[t]))
    {
      match pcs[t]
      case PopHigh => pcs := pcs[t := PopLow(high)];
      case PopLow(h) => pcs := pcs[t := PopSlot(h, low)];
      case PopSlot(h, l) =>
        var ret := buffer[Slot(l, size)];
        if ret.Some? && h > l {
          pcs := pcs[t := PopCas(l, ret.value)];
        } else {
          pcs := pcs[t := DonePop(None)];
        }
      case PopCas(l, ret) =>
        if low == l {
          low := l + 1;
          popped, clearing := popped + [ret], clearing[l := t];
          pcs := pcs[t := PopClear(l, ret)];
        } else {
          pcs := pcs[t := DonePop(None)];
        }
      case PopClear(at, ret) =>
        buffer[Slot(at, size)] := None;
        clearing := clearing - {at};
        pcs := pcs[t := DonePop(Some(ret))];
      case _ =>
    }

    /** One shared-memory access of thread `t`'s size(). */
    method SizeAccess(t: Tid)
      requires Wf(View()) && t in pcs
      modifies this
      ensures View() == SizeStep(old(View()), t, old(pcs[t]))
    {
      match pcs[t]
      case SizeHigh => pcs := pcs[t := SizeLow(high)];
      case SizeLow(h) => pcs := pcs[t := DoneSize(if h >= low then h - low else 0)];
      case _ =>
    }

    /** Any interleaving of accesses of any threads, performed in place. */
    method Interleave(sched: seq<Action>)
      requires Inv(View())
      modifies this, buffer
      ensures View() == Run(old(View()), sched) && Inv(View())
    {
      for i := 0 to |sched|
        invariant Inv(View())
        invariant Run(old(View()), sched) == Run(View(), sched[i..])
      {
        var a := sched[i];
        ghost var before := View();
        if a.t in pcs {
          match a
          case Call(t, op) => if Ready(pcs[t]) { pcs := pcs[t := Start(op)]; }
          case Go(t) =>
            if Pushing(pcs[t]) { PushAccess(t); } else if Popping(pcs[t]) { PopAccess(t); } else { SizeAccess(t); }
        }
        assert View() == Next(before, a);
        NextInv(before, a);
        assert sched[i..][1..] == sched[i + 1..];
      }
    }
  }
}
