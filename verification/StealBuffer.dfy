/** The FIFO steal buffer: one master pushes and pops, any number of thieves
    steal, one shared-memory access at a time. */
module StealBuffer {
  import opened Common

  datatype MasterPc =
    | Idle
    | PushHigh(v: Item)                       // read high
    | PushLow(v: Item, high: nat)             // read low
    | PushStore(v: Item, high: nat)           // buffer[index] = data
    | PushPublish(v: Item, high: nat)         // high = high + 1
    | PopHigh                                 // read high
    | PopLow(high: nat)                       // read low
    | PopAdd(high: nat)                       // fetch-add low
    | PopReset(high: nat)                     // low = high
    | PopRead(newLow: nat)                    // read buffer[index]
    | DonePush(ok: bool)
    | DonePop(res: Option<Item>)

  datatype StealResult = Empty | Abort | Success(v: Item)

  datatype ThiefPc =
    | Resting
    | StealHigh                               // read high
    | StealLow(high: nat)                     // read low
    | StealRead(low: nat)                     // read buffer[index]
    | StealCas(low: nat, ret: Item)           // CAS low
    | DoneSteal(res: StealResult)

  /** Who took an index off the buffer: `idx` is the value the taker held in its
      own register, and a claim is not `kept` when pop gives it up. */
  datatype Claim = Claim(idx: nat, thief: Option<Tid>, kept: bool)

  datatype Action = Push(v: Item) | Pop | Master | Steal(t: Tid) | Thief(t: Tid)

  /** `pushed`, `claims` and `out` are history: the items published, the claims
      in the order they were made, and the value returned for each index. */
  datatype State = State(
    size: nat, high: nat, low: nat, buf: seq<Item>,
    master: MasterPc, thieves: map<Tid, ThiefPc>,
    pushed: seq<Item>, claims: seq<Claim>, out: map<nat, Item>)

  predicate Wf(s: State) {
    s.size > 0 && |s.buf| == s.size
  }

  predicate Init(s: State) {
    && Wf(s) && s.high == s.low == 0 && s.master == Idle
    && (forall t :: t in s.thieves ==> s.thieves[t] == Resting)
    && s.pushed == [] && s.claims == [] && s.out == map[]
  }

  predicate MasterReady(s: State) {
    s.master.Idle? || s.master.DonePush? || s.master.DonePop?
  }

  /** The master's fetch-add, and the recheck of the value it returns. */
  function PopAddStep(s: State, high: nat): State {
    var newLow := s.low + 1;
    if newLow >= high then
      s.(low := newLow, master := PopReset(high),
         claims := if newLow == high then s.claims + [Claim(newLow - 1, None, false)] else s.claims)
    else
      s.(low := newLow, master := PopRead(newLow), claims := s.claims + [Claim(newLow - 1, None, true)])
  }

  function PopReadStep(s: State, newLow: nat): State
    requires Wf(s)
  {
    if newLow == 0 then s
    else
      var v := s.buf[Slot(newLow - 1, s.size)];
      s.(master := DonePop(Some(v)), out := s.out[newLow - 1 := v])
  }

  function MasterStep(s: State): (r: State)
    requires Wf(s)
    ensures Wf(r)
  {
    match s.master
    case PushHigh(v) => s.(master := PushLow(v, s.high))
    case PushLow(v, high) =>
      s.(master := if RoomBelow(high, s.low, s.size) then PushStore(v, high) else DonePush(false))
    case PushStore(v, high) => s.(buf := s.buf[Slot(high, s.size) := v], master := PushPublish(v, high))
    case PushPublish(v, high) => s.(high := high + 1, pushed := s.pushed + [v], master := DonePush(true))
    case PopHigh => s.(master := PopLow(s.high))
    case PopLow(high) => s.(master := if high > s.low then PopAdd(high) else DonePop(None))
    case PopAdd(high) => PopAddStep(s, high)
    case PopReset(high) => s.(low := high, master := DonePop(None))
    case PopRead(newLow) => PopReadStep(s, newLow)
    case _ => s
  }

  function Goto(s: State, t: Tid, pc: ThiefPc): State {
    s.(thieves := s.thieves[t := pc])
  }

  /** The thief's CAS that moves low from `low` succeeds. */
  function Take(s: State, t: Tid, low: nat, ret: Item): State {
    Goto(s, t, DoneSteal(Success(ret))).(
      low := low + 1, claims := s.claims + [Claim(low, Some(t), true)], out := s.out[low := ret])
  }

  function ThiefStep(s: State, t: Tid): (r: State)
    requires Wf(s) && t in s.thieves
    ensures Wf(r) && t in r.thieves
  {
    match s.thieves[t]
    case StealHigh => Goto(s, t, StealLow(s.high))
    case StealLow(high) => Goto(s, t, if high > s.low then StealRead(s.low) else DoneSteal(Empty))
    case StealRead(low) => Goto(s, t, StealCas(low, s.buf[Slot(low, s.size)]))
    case StealCas(low, ret) => if s.low == low then Take(s, t, low, ret) else Goto(s, t, DoneSteal(Abort))
    case _ => s
  }

  function Next(s: State, a: Action): (r: State)
    requires Wf(s)
    ensures Wf(r)
  {
    match a
    case Push(v) => if MasterReady(s) then s.(master := PushHigh(v)) else s
    case Pop => if MasterReady(s) then s.(master := PopHigh) else s
    case Master => MasterStep(s)
    case Steal(t) =>
      if t in s.thieves && (s.thieves[t].Resting? || s.thieves[t].DoneSteal?) then Goto(s, t, StealHigh) else s
    case Thief(t) => if t in s.thieves then ThiefStep(s, t) else s
  }

  function Run(s: State, sched: seq<Action>): (r: State)
    requires Wf(s)
    ensures Wf(r)
    decreases |sched|
  {
    if sched == [] then s else Run(Next(s, sched[0]), sched[1..])
  }

  // ---------------------------------------------------------------- invariant

  ghost predicate Counts(s: State) {
    && Wf(s)
    && |s.pushed| == s.high <= s.low + s.size
    && (s.low <= s.high || (s.low == s.high + 1 && s.master == PopReset(s.high)))
    && |s.claims| == (if s.low <= s.high then s.low else s.high)
  }

  /** The k-th claim took index k; a kept one returned, or is about to return,
      the item pushed at k; and nothing else was returned. */
  ghost predicate ClaimsOk(s: State)
    requires Counts(s)
  {
    && (forall k :: 0 <= k < |s.claims| ==> s.claims[k].idx == k)
    && (forall k :: 0 <= k < |s.claims| && s.claims[k].kept ==> k in s.out || s.master == PopRead(k + 1))
    && (forall k :: k in s.out ==> k < |s.claims| && s.claims[k].kept && s.out[k] == s.pushed[k])
  }

  ghost predicate SlotsOk(s: State)
    requires Counts(s)
  {
    forall i: nat {:trigger Slot(i, s.size)} :: s.low <= i < s.high ==> s.buf[Slot(i, s.size)] == s.pushed[i]
  }

  ghost predicate MasterOk(s: State)
    requires Counts(s)
  {
    match s.master
    case PushLow(v, high) => high == s.high
    case PushStore(v, high) => high == s.high < s.low + s.size
    case PushPublish(v, high) => high == s.high < s.low + s.size && s.buf[Slot(high, s.size)] == v
    case PopLow(high) => high == s.high
    case PopAdd(high) => high == s.high
    case PopReset(high) => high == s.high <= s.low
    case PopRead(newLow) =>
      0 < newLow <= s.low && newLow < s.high && s.claims[newLow - 1].kept && newLow - 1 !in s.out
      && s.buf[Slot(newLow - 1, s.size)] == s.pushed[newLow - 1]
    case _ => true
  }

  ghost predicate Shared(s: State) {
    Counts(s) && ClaimsOk(s) && SlotsOk(s) && MasterOk(s)
  }

  ghost predicate ThiefOk(s: State, t: Tid)
    requires Counts(s) && t in s.thieves
  {
    match s.thieves[t]
    case StealLow(high) => high <= s.high
    case StealRead(low) => low < s.high && low <= s.low
    case StealCas(low, ret) => low < s.high && low <= s.low && (low == s.low ==> ret == s.pushed[low])
    case _ => true
  }

  ghost predicate Inv(s: State) {
    Shared(s) && forall t :: t in s.thieves ==> ThiefOk(s, t)
  }

  lemma PushStoreSlots(s: State, v: Item, high: nat)
    requires Counts(s) && SlotsOk(s) && s.low <= s.high == high < s.low + s.size
    ensures var s' := s.(buf := s.buf[Slot(high, s.size) := v], master := PushPublish(v, high));
      Counts(s') && SlotsOk(s')
  {
    var s' := s.(buf := s.buf[Slot(high, s.size) := v], master := PushPublish(v, high));
    forall i: nat | s'.low <= i < s'.high ensures s'.buf[Slot(i, s'.size)] == s'.pushed[i] {
      SlotWindowPair(i, high, s.low, s.size);
      assert s.buf[Slot(i, s.size)] == s.pushed[i];
    }
  }

  lemma PopAddShared(s: State, high: nat)
    requires Shared(s) && s.master == PopAdd(high)
    ensures Shared(PopAddStep(s, high))
  {
    assert s.low < s.high ==> s.buf[Slot(s.low, s.size)] == s.pushed[s.low];
  }

  predicate Popping(pc: MasterPc) {
    pc.PopHigh? || pc.PopLow? || pc.PopAdd? || pc.PopReset? || pc.PopRead?
  }

  lemma MasterPushShared(s: State)
    requires Shared(s) && !Popping(s.master)
    ensures Shared(MasterStep(s))
  {
    match s.master
    case PushStore(v, high) => PushStoreSlots(s, v, high);
    case _ =>
  }

  lemma MasterPopShared(s: State)
    requires Shared(s) && Popping(s.master)
    ensures Shared(MasterStep(s))
  {
    match s.master
    case PopAdd(high) => PopAddShared(s, high);
    case _ =>
  }

  lemma MasterShared(s: State)
    requires Shared(s)
    ensures Shared(MasterStep(s))
  {
    if Popping(s.master) { MasterPopShared(s); } else { MasterPushShared(s); }
  }

  lemma MasterKeepsThief(s: State, t: Tid)
    requires Shared(s) && Shared(MasterStep(s)) && t in s.thieves && ThiefOk(s, t)
    ensures ThiefOk(MasterStep(s), t)
  {
  }

  lemma TakeShared(s: State, t: Tid, low: nat, ret: Item)
    requires Shared(s) && t in s.thieves && s.low == low < s.high && ret == s.pushed[low]
    ensures Shared(Take(s, t, low, ret))
  {
  }

  lemma TakeKeepsThief(s: State, t: Tid, low: nat, ret: Item, u: Tid)
    requires Counts(s) && Counts(Take(s, t, low, ret)) && u in s.thieves && u != t && ThiefOk(s, u)
    requires s.low == low
    ensures ThiefOk(Take(s, t, low, ret), u)
  {
  }

  lemma GotoShared(s: State, t: Tid, pc: ThiefPc)
    requires Shared(s)
    ensures Shared(Goto(s, t, pc))
  {
  }

  lemma ThiefInv(s: State, t: Tid)
    requires Inv(s) && t in s.thieves
    ensures Inv(ThiefStep(s, t))
  {
    assert ThiefOk(s, t);
    var s' := ThiefStep(s, t);
    match s.thieves[t]
    case StealCas(low, ret) =>
      if s.low == low {
        TakeShared(s, t, low, ret);
        forall u | u in s.thieves && u != t ensures ThiefOk(s', u) {
          TakeKeepsThief(s, t, low, ret, u);
        }
      } else {
        GotoShared(s, t, DoneSteal(Abort));
      }
    case StealHigh => GotoShared(s, t, StealLow(s.high));
    case StealLow(high) => GotoShared(s, t, if high > s.low then StealRead(s.low) else DoneSteal(Empty));
    case StealRead(low) => GotoShared(s, t, StealCas(low, s.buf[Slot(low, s.size)]));
    case _ =>
  }

  lemma MasterInv(s: State)
    requires Inv(s)
    ensures Inv(MasterStep(s))
  {
    MasterShared(s);
    forall t | t in s.thieves ensures ThiefOk(MasterStep(s), t) {
      MasterKeepsThief(s, t);
    }
  }

  lemma NextInv(s: State, a: Action)
    requires Inv(s)
    ensures Inv(Next(s, a))
  {
    match a
    case Push(v) =>
    case Pop =>
    case Master => MasterInv(s);
    case Steal(t) => GotoShared(s, t, StealHigh);
    case Thief(t) => if t in s.thieves { ThiefInv(s, t); }
  }

  lemma {:induction false} RunInv(s: State, sched: seq<Action>)
    requires Inv(s)
    ensures Inv(Run(s, sched))
    decreases |sched|
  {
    if sched == [] {
    } else {
      NextInv(s, sched[0]);
      RunInv(Next(s, sched[0]), sched[1..]);
    }
  }

  lemma InitInv(s: State)
    requires Init(s)
    ensures Inv(s)
  {
  }

  // ------------------------------------------------------------- main results

  /** The indices pop gave up on. */
  function Discarded(s: State): set<nat> {
    set k: nat | k < |s.claims| && !s.claims[k].kept
  }

  function Live(s: State): set<nat> {
    Range(s.low, s.high)
  }

  function Queue(s: State): seq<Item>
    requires s.low <= s.high == |s.pushed|
  {
    s.pushed[s.low..]
  }

  /** In every run each index is handed out at most once, to one taker, in
      order, with the item that was pushed at it; and whenever the master is
      between operations every pushed index is exactly one of returned,
      discarded and still live. */
  lemma RunAccounts(s0: State, sched: seq<Action>)
    requires Init(s0)
    ensures var s := Run(s0, sched);
      && |s.pushed| == s.high && |s.claims| <= s.high
      && (forall k :: 0 <= k < |s.claims| ==> s.claims[k].idx == k)
      && (forall i :: i in s.out ==> i < |s.claims| && s.claims[i].kept && s.out[i] == s.pushed[i])
      && (MasterReady(s) ==>
            && s.low <= s.high <= s.low + s.size
            && s.out.Keys !! Discarded(s) !! Live(s)
            && s.out.Keys + Discarded(s) + Live(s) == Range(0, s.high))
  {
    InitInv(s0);
    RunInv(s0, sched);
  }

  /** No ABA: although pop can push low past high and set it back, the index a
      thief's CAS wins has never been handed out before, and the value the thief
      read is the one pushed there, never an overwritten slot. A CAS that fails
      lost its index to another taker. */
  lemma StealTakesFreshIndex(s: State, t: Tid)
    requires Inv(s) && t in s.thieves && s.thieves[t].StealCas?
    ensures var StealCas(low, ret) := s.thieves[t];
      var s' := ThiefStep(s, t);
      && (s.low == low ==>
            && low == |s.claims| && low !in s.out && s.low < s.high
            && Queue(s) == [ret] + Queue(s')
            && s'.thieves[t] == DoneSteal(Success(ret))
            && s'.claims == s.claims + [Claim(low, Some(t), true)])
      && (s.low != low ==> low < |s.claims| && s'.thieves[t] == DoneSteal(Abort))
  {
    assert ThiefOk(s, t);
  }

  /** A claim is given up in one way only: the master's own fetch-add returned
      exactly `high`, so the index it then abandons is the one it has just
      claimed, high - 1. */
  lemma DiscardsOnlyItsOwn(s: State, a: Action)
    requires Inv(s)
    ensures var s' := Next(s, a);
      && s.claims <= s'.claims && |s'.claims| <= |s.claims| + 1
      && (|s'.claims| == |s.claims| + 1 && !s'.claims[|s.claims|].kept <==>
            a == Master && s.master.PopAdd? && s.low + 1 == s.high)
      && (|s'.claims| == |s.claims| + 1 && !s'.claims[|s.claims|].kept ==>
            s'.claims[|s.claims|].idx == s.high - 1)
  {
    if a == Master {
      MasterClaims(s);
    } else {
      OthersKeepTheirs(s, a);
    }
  }

  lemma MasterClaims(s: State)
    requires Wf(s) && (s.master.PopAdd? ==> s.master.high == s.high)
    ensures MasterStep(s).claims == s.claims +
            (if !s.master.PopAdd? || s.low >= s.high then [] else [Claim(s.low, None, s.low + 1 < s.high)])
  {
  }

  lemma OthersKeepTheirs(s: State, a: Action)
    requires Wf(s) && a != Master
    ensures var claims := Next(s, a).claims;
      claims == s.claims || (|claims| == |s.claims| + 1 && s.claims <= claims && claims[|s.claims|].kept)
  {
  }

  /** When pop returns a value it is the item of the index it claimed. */
  lemma PopReturnsItsClaim(s: State)
    requires Inv(s) && s.master.PopRead?
    ensures var i := s.master.newLow - 1;
      && 0 <= i < |s.claims| && s.claims[i].idx == i && i !in s.out
      && MasterStep(s).master == DonePop(Some(s.pushed[i]))
  {
  }

  /** steal reports Empty only for cause: with its reading of high still
      current, exactly when nothing is live. */
  lemma StealEmptyIsExact(s: State, t: Tid)
    requires Inv(s) && t in s.thieves && s.thieves[t].StealLow? && s.thieves[t].high == s.high
    ensures ThiefStep(s, t).thieves[t] == DoneSteal(Empty) <==> Live(s) == {}
  {
    if s.low < s.high {
      assert s.low in Live(s);
    }
  }

  // The master running without interference.

  function Solo(s: State, n: nat): (r: State)
    requires Wf(s)
    ensures Wf(r)
    decreases n
  {
    if n == 0 then s else Solo(MasterStep(s), n - 1)
  }

  lemma PushAlone(s: State, v: Item)
    requires Inv(s) && MasterReady(s)
    ensures var s' := Solo(Next(s, Push(v)), 4);
      && Inv(s') && s.low <= s.high && s'.low <= s'.high
      && s'.master == DonePush(|Queue(s)| < s.size)
      && Queue(s') == (if |Queue(s)| < s.size then Queue(s) + [v] else Queue(s))
  {
    var s1 := Next(s, Push(v));
    var s2 := MasterStep(s1);
    var s3 := MasterStep(s2);
    NextInv(s, Push(v));
    MasterInv(s1);
    MasterInv(s2);
    assert Solo(s1, 4) == Solo(s2, 3) == Solo(s3, 2);
    if |Queue(s)| < s.size {
      PushStores(s3);
    } else {
      assert Solo(s3, 2) == Solo(s3, 1) == s3;
    }
  }

  lemma PushStores(s: State)
    requires Inv(s) && s.master.PushStore? && s.low <= s.high
    ensures var s' := Solo(s, 2);
      Inv(s') && s'.low == s.low && s'.pushed == s.pushed + [s.master.v] && s'.master == DonePush(true)
  {
    var s1 := MasterStep(s);
    MasterInv(s);
    MasterInv(s1);
    assert Solo(s, 2) == Solo(s1, 1) == MasterStep(s1);
  }

  /** From `s` to `s'` the master has popped: it returned the first item if and
      only if two or more were queued, and a lone one is gone. */
  ghost predicate PopOutcome(s: State, s': State) {
    && Inv(s) && Inv(s') && s.low <= s.high && s'.low <= s'.high
    && s'.master == DonePop(if |Queue(s)| >= 2 then Some(Queue(s)[0]) else None)
    && Queue(s') == (if |Queue(s)| >= 1 then Queue(s)[1..] else [])
    && Discarded(s') == Discarded(s) + (if |Queue(s)| == 1 then {s.low} else {})
  }

  /** pop is not a queue's pop. Even with no thief at all it returns an item if
      and only if at least two are queued: with exactly one, the fetch-add
      returns `high`, the recheck takes that for a lost race, and the item is
      removed without being returned. */
  lemma PopAlone(s: State)
    requires Inv(s) && MasterReady(s)
    ensures PopOutcome(s, Solo(Next(s, Pop), 4))
  {
    NextInv(s, Pop);
    PopReadsHigh(Next(s, Pop));
  }

  lemma PopReadsHigh(s: State)
    requires Inv(s) && s.master.PopHigh?
    ensures PopOutcome(s, Solo(s, 4))
  {
    MasterInv(s);
    PopReadsLow(MasterStep(s));
  }

  lemma PopReadsLow(s: State)
    requires Inv(s) && s.master.PopLow?
    ensures PopOutcome(s, Solo(s, 3))
  {
    MasterInv(s);
    var s1 := MasterStep(s);
    if s.low < s.high {
      PopTakes(s1);
    } else {
      assert Solo(s1, 2) == Solo(s1, 1) == s1;
    }
  }

  lemma PopTakes(s: State)
    requires Inv(s) && s.master == PopAdd(s.high) && s.low < s.high
    ensures PopOutcome(s, Solo(s, 2))
  {
    PopClaims(s);
    DiscardedGrows(s, Solo(s, 2), Claim(s.low, None, s.low + 1 < s.high));
    DropFirst(s.pushed, s.low);
  }

  lemma DiscardedGrows(s: State, s': State, c: Claim)
    requires s'.claims == s.claims + [c]
    ensures Discarded(s') == Discarded(s) + (if c.kept then {} else {|s.claims|})
  {
  }

  lemma PopClaims(s: State)
    requires Inv(s) && s.master == PopAdd(s.high) && s.low < s.high
    ensures var s' := Solo(s, 2);
      && Inv(s') && s'.low == s.low + 1 && s'.high == s.high && s'.pushed == s.pushed
      && s'.master == DonePop(if s.low + 1 < s.high then Some(s.pushed[s.low]) else None)
      && s'.claims == s.claims + [Claim(s.low, None, s.low + 1 < s.high)]
  {
    var s1 := MasterStep(s);
    MasterInv(s);
    MasterInv(s1);
    assert Solo(s, 2) == Solo(s1, 1) == MasterStep(s1);
  }

  /** The shortest such run: push one item, pop, and it is gone. */
  lemma LoneItemIsLost(s: State)
    requires Init(s)
    ensures var s1 := Solo(Next(s, Push(7)), 4);
      var s2 := Solo(Next(s1, Pop), 4);
      && s1.low <= s1.high == |s1.pushed| && s2.low <= s2.high == |s2.pushed|
      && s1.master == DonePush(true) && Queue(s1) == [7]
      && s2.master == DonePop(None) && Queue(s2) == []
  {
    InitInv(s);
    PushAlone(s, 7);
    var s1 := Solo(Next(s, Push(7)), 4);
    PopAlone(s1);
  }

  // ------------------------------------------------------------ in-place form

  class Buffer {
    const size: nat
    const buffer: array<Item>
    var high: nat
    var low: nat
    var master: MasterPc
    var thieves: map<Tid, ThiefPc>
    ghost var pushed: seq<Item>
    ghost var claims: seq<Claim>
    ghost var out: map<nat, Item>

    ghost function View(): State
      reads this, buffer
    {
      State(size, high, low, buffer[..], master, thieves, pushed, claims, out)
    }

    /** `buffer` is raw memory: nothing is known of its initial contents. */
    constructor (size: nat, threads: set<Tid>, memory: array<Item>)
      requires size > 0 && memory.Length == size
      ensures Init(View()) && buffer == memory && thieves.Keys == threads
    {
      this.size := size;
      buffer := memory;
      high, low := 0, 0;
      master := Idle;
      thieves := map t | t in threads :: Resting;
      pushed, claims, out := [], [], map[];
    }

    /** One shared-memory access of the master. */
    method MasterAccess()
      requires Wf(View())
      modifies this, buffer
      ensures View() == MasterStep(old(View()))
    {
      match master
      case PushHigh(v) => master := PushLow(v, high);
      case PushLow(v, h) =>
        if RoomBelow(h, low, size) { master := PushStore(v, h); } else { master := DonePush(false); }
      case PushStore(v, h) =>
        buffer[Slot(h, size)] := v;
        master := PushPublish(v, h);
      case PushPublish(v, h) =>
        high := h + 1;
        pushed := pushed + [v];
        master := DonePush(true);
      case PopHigh => master := PopLow(high);
      case PopLow(h) =>
        if h > low { master := PopAdd(h); } else { master := DonePop(None); }
      case PopAdd(h) =>
        low := low + 1;
        var newLow := low;
        if newLow >= h {
          master := PopReset(h);
          claims := if newLow == h then claims + [Claim(newLow - 1, None, false)] else claims;
        } else {
          master := PopRead(newLow);
          claims := claims + [Claim(newLow - 1, None, true)];
        }
      case PopReset(h) =>
        low := h;
        master := DonePop(None);
      case PopRead(newLow) =>
        if newLow > 0 {
          var v := buffer[Slot(newLow - 1, size)];
          out := out[newLow - 1 := v];
          master := DonePop(Some(v));
        }
      case _ =>
    }

    /** One shared-memory access of thief `t`. */
    method ThiefAccess(t: Tid)
      requires Wf(View()) && t in thieves
      modifies this
      ensures View() == ThiefStep(old(View()), t)
    {
      match thieves[t]
      case StealHigh => thieves := thieves[t := StealLow(high)];
      case StealLow(h) =>
        if h > low { thieves := thieves[t := StealRead(low)]; } else { thieves := thieves[t := DoneSteal(Empty)]; }
      case StealRead(l) => thieves := thieves[t := StealCas(l, buffer[Slot(l, size)])];
      case StealCas(l, ret) =>
        if low == l {
          low := l + 1;
          claims, out := claims + [Claim(l, Some(t), true)], out[l := ret];
          thieves := thieves[t := DoneSteal(Success(ret))];
        } else {
          thieves := thieves[t := DoneSteal(Abort)];
        }
      case _ =>
    }

    /** Any interleaving of the master and the thieves, performed in place. */
    method Interleave(sched: seq<Action>)
      requires Inv(View())
      modifies this, buffer
      ensures View() == Run(old(View()), sched) && Inv(View())
    {
      for i := 0 to |sched|
        invariant Inv(View())
        invariant Run(old(View()), sched) == Run(View(), sched[i..])
      {
        ghost var before := View();
        match sched[i] {
          case Push(v) => if master.Idle? || master.DonePush? || master.DonePop? { master := PushHigh(v); }
          case Pop => if master.Idle? || master.DonePush? || master.DonePop? { master := PopHigh; }
          case Master => MasterAccess();
          case Steal(t) =>
            if t in thieves && (thieves[t].Resting? || thieves[t].DoneSteal?) {
              thieves := thieves[t := StealHigh];
            }
          case Thief(t) => if t in thieves { ThiefAccess(t); }
        }
        assert View() == Next(before, sched[i]);
        NextInv(before, sched[i]);
        assert sched[i..][1..] == sched[i + 1..];
      }
    }
  }
}
