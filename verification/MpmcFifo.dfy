/** The optimistic multi-producer multi-consumer FIFO over hazard pointers: any
    number of threads push and pop, retired nodes are reclaimed by scans and
    reclaimed nodes are overwritten and pushed again. */
module MpmcFifo {
  import opened Common
  import HP = HazardProtocol

  type Node = HP.Node

  /** Where a thread stands; each step performs the access in the comment. A
      check step compares a shared pointer, read again, with a register. */
  datatype Pc =
    | Idle
    | PushClear(n: Node)                               // new_node->prev = NULL
    | PushTail(n: Node)                                // read tail
    | PushUse(n: Node, x: Node)                        // hazard slot 0 = tail
    | PushCheck(n: Node, x: Node)                      // read tail again
    | PushCas(n: Node, x: Node)                        // CAS tail
    | PushLink(n: Node, x: Node)                       // tail->prev = new_node
    | PushRelease                                      // hazard slot 0 = NULL
    | DonePush
    | PopHead                                          // read head
    | PopUse(h: Node)                                  // hazard slot 0 = head
    | PopCheck(h: Node)                                // read head again
    | PopPrev(h: Node)                                 // read head->prev
    | PopGiveUp                                        // hazard slot 0 = NULL
    | PopUse1(h: Node, p: Node)                        // hazard slot 1 = prev
    | PopCheck1(h: Node, p: Node)                      // read head again
    | PopValue(h: Node, p: Node)                       // read prev->value
    | PopCas(h: Node, p: Node, v: Item)                // CAS head
    | PopClear0(h: Node, v: Item)                      // hazard slot 0 = NULL
    | PopClear1(h: Node, v: Item)                      // hazard slot 1 = NULL
    | PopRetire(h: Node, v: Item)                      // push on the retired list
    | PopScan(v: Item)                                 // inside hazard_pointer_scan
    | DonePop(res: Option<Item>)

  /** Who a node belongs to: the queue, a thread about to push it, a thread that
      has just unlinked it, or the reclamation protocol and the callers. */
  datatype Place = Queued(i: nat) | Held(t: Tid) | Limbo(t: Tid) | Out

  /** `scan` says whether the retired list has reached its threshold. A reclaimed
      node may be overwritten in any way and pushed with any value. */
  datatype Action =
    | Join | Push(t: Tid, n: Node, v: Item) | Pop(t: Tid) | Go(t: Tid, scan: bool)
    | Scribble(n: Node, prev: Node, v: Item)

  /** Threads are numbered by their hazard records. `order` is every node in the
      order of the tail CASes, `vals` their values, `first` the position of the
      head, `pending` who still has to link a position, `popped` the values
      taken in the order of the head CASes: history, like `place`. */
  datatype State = State(
    hp: HP.State, head: Node, tail: Node, prev: map<Node, Node>, value: map<Node, Item>, pcs: seq<Pc>,
    place: map<Node, Place>, order: seq<Node>, vals: seq<Item>,
    first: nat, pending: map<nat, Tid>, popped: seq<Item>)

  ghost predicate Init(s: State) {
    && HP.Init(s.hp) && s.hp.width == 2 && s.pcs == []
    && s.head == s.tail && s.head in s.place && s.prev.Keys == s.value.Keys == s.place.Keys == s.hp.phase.Keys
    && s.place[s.head] == Queued(0) && s.hp.phase[s.head].Live? && s.prev[s.head] == 0
    && (forall n :: n in s.place && n != s.head ==> s.place[n] == Out && s.hp.phase[n].Reclaimed?)
    && s.order == [s.head] && s.vals == [s.value[s.head]] && s.first == 0 && s.pending == map[] && s.popped == []
  }

  predicate Ready(pc: Pc) {
    pc.Idle? || pc.DonePush? || pc.DonePop?
  }

  /** The caller owns the node: it was never pushed or has been reclaimed. */
  predicate Free(s: State, n: Node) {
    n in s.place && s.place[n].Out? && n in s.hp.phase && s.hp.phase[n].Reclaimed?
  }

  function Goto(s: State, t: Tid, pc: Pc): State
    requires t < |s.pcs|
  {
    s.(pcs := s.pcs[t := pc])
  }

  function SetHazard(s: State, t: Tid, k: nat, x: Node, pc: Pc): State
    requires t < |s.pcs|
  {
    Goto(s, t, pc).(hp := HP.Use(s.hp, t, k, x))
  }

  function Confirm(s: State, t: Tid, k: nat, pc: Pc): State
    requires t < |s.pcs|
  {
    Goto(s, t, pc).(hp := HP.Confirm(s.hp, t, k))
  }

  function PrevOf(s: State, n: Node): Node {
    if n in s.prev then s.prev[n] else 0
  }

  function ValueOf(s: State, n: Node): Item {
    if n in s.value then s.value[n] else 0
  }

  function Clear(s: State, t: Tid, n: Node): State
    requires t < |s.pcs|
  {
    Goto(s, t, PushTail(n)).(prev := s.prev[n := 0])
  }

  /** The CAS on tail succeeds. */
  function SwingTail(s: State, t: Tid, n: Node, x: Node): State
    requires t < |s.pcs|
  {
    Goto(s, t, PushLink(n, x)).(
      tail := n, place := s.place[n := Queued(|s.order|)], order := s.order + [n],
      vals := s.vals + [ValueOf(s, n)], pending := s.pending[|s.order| := t])
  }

  /** The position a node has in the order of the tail CASes. */
  function Position(s: State, n: Node): nat {
    if n in s.place && s.place[n].Queued? then s.place[n].i else 0
  }

  function Link(s: State, t: Tid, n: Node, x: Node): State
    requires t < |s.pcs|
  {
    Goto(s, t, PushRelease).(prev := s.prev[x := n], pending := s.pending - {Position(s, n)})
  }

  /** The CAS on head succeeds. */
  function SwingHead(s: State, t: Tid, h: Node, p: Node, v: Item): State
    requires t < |s.pcs|
  {
    Goto(s, t, PopClear0(h, v)).(
      head := p, place := s.place[h := Limbo(t)], first := s.first + 1, popped := s.popped + [v])
  }

  function Retire(s: State, t: Tid, h: Node, v: Item, scan: bool): State
    requires t < |s.pcs|
  {
    var hp := HP.Retire(s.hp, t, h);
    Goto(s, t, if scan then PopScan(v) else DonePop(Some(v))).(
      hp := if scan then HP.StartScan(hp, t) else hp, place := s.place[h := Out])
  }

  function Scan(s: State, t: Tid, v: Item): State
    requires t < |s.pcs|
  {
    var hp := HP.ScanStep(s.hp, t);
    Goto(s, t, if HP.Joined(hp, t) && hp.scans[t].NoScan? then DonePop(Some(v)) else PopScan(v)).(hp := hp)
  }

  predicate Pushing(pc: Pc) {
    pc.PushClear? || pc.PushTail? || pc.PushUse? || pc.PushCheck? || pc.PushCas? || pc.PushLink? || pc.PushRelease?
  }

  function PushStep(s: State, t: Tid): State
    requires t < |s.pcs|
  {
    match s.pcs[t]
    case PushClear(n) => Clear(s, t, n)
    case PushTail(n) => Goto(s, t, PushUse(n, s.tail))
    case PushUse(n, x) => SetHazard(s, t, 0, x, PushCheck(n, x))
    case PushCheck(n, x) => if x != s.tail then Goto(s, t, PushTail(n)) else Confirm(s, t, 0, PushCas(n, x))
    case PushCas(n, x) => if s.tail == x then SwingTail(s, t, n, x) else Goto(s, t, PushTail(n))
    case PushLink(n, x) => Link(s, t, n, x)
    case PushRelease => SetHazard(s, t, 0, 0, DonePush)
    case _ => s
  }

  function PopStep(s: State, t: Tid, scan: bool): State
    requires t < |s.pcs|
  {
    match s.pcs[t]
    case PopHead => Goto(s, t, PopUse(s.head))
    case PopUse(h) => SetHazard(s, t, 0, h, PopCheck(h))
    case PopCheck(h) => if h != s.head then Goto(s, t, PopHead) else Confirm(s, t, 0, PopPrev(h))
    case PopPrev(h) => Goto(s, t, if PrevOf(s, h) == 0 then PopGiveUp else PopUse1(h, PrevOf(s, h)))
    case PopGiveUp => SetHazard(s, t, 0, 0, DonePop(None))
    case PopUse1(h, p) => SetHazard(s, t, 1, p, PopCheck1(h, p))
    case PopCheck1(h, p) => if h != s.head then Goto(s, t, PopHead) else Confirm(s, t, 1, PopValue(h, p))
    case PopValue(h, p) => Goto(s, t, PopCas(h, p, ValueOf(s, p)))
    case PopCas(h, p, v) => if s.head == h then SwingHead(s, t, h, p, v) else Goto(s, t, PopHead)
    case PopClear0(h, v) => SetHazard(s, t, 0, 0, PopClear1(h, v))
    case PopClear1(h, v) => SetHazard(s, t, 1, 0, PopRetire(h, v))
    case PopRetire(h, v) => Retire(s, t, h, v, scan)
    case PopScan(v) => Scan(s, t, v)
    case _ => s
  }

  function AddThread(s: State): State {
    s.(hp := HP.Join(s.hp), pcs := s.pcs + [Idle])
  }

  /** A caller takes a reclaimed node, fills it and pushes it. */
  function Offer(s: State, t: Tid, n: Node, v: Item): State
    requires t < |s.pcs|
  {
    Goto(s, t, PushClear(n)).(hp := HP.Reuse(s.hp, n), value := s.value[n := v], place := s.place[n := Held(t)])
  }

  function Overwrite(s: State, n: Node, prev: Node, v: Item): State {
    s.(prev := s.prev[n := prev], value := s.value[n := v])
  }

  function Next(s: State, a: Action): State {
    match a
    case Join => AddThread(s)
    case Push(t, n, v) => if t < |s.pcs| && Ready(s.pcs[t]) && Free(s, n) then Offer(s, t, n, v) else s
    case Pop(t) => if t < |s.pcs| && Ready(s.pcs[t]) then Goto(s, t, PopHead) else s
    case Go(t, scan) =>
      if t >= |s.pcs| then s else if Pushing(s.pcs[t]) then PushStep(s, t) else PopStep(s, t, scan)
    case Scribble(n, prev, v) =>
      if Free(s, n) then Overwrite(s, n, prev, v) else s
  }

  function Run(s: State, sched: seq<Action>): State
    decreases |sched|
  {
    if sched == [] then s else Run(Next(s, sched[0]), sched[1..])
  }

  // ---------------------------------------------------------------- invariant

  ghost predicate Counts(s: State) {
    && 0 !in s.place && s.prev.Keys == s.value.Keys == s.place.Keys == s.hp.phase.Keys
    && s.first < |s.order| == |s.vals|
    && s.head == s.order[s.first] && s.tail == s.order[|s.order| - 1]
    && s.popped == s.vals[1..s.first + 1]
    && HP.Shape(s.hp) && s.hp.width == 2 && |s.pcs| == |s.hp.slots|
  }

  ghost predicate PlacedAt(s: State, i: nat)
    requires i < |s.order|
  {
    s.order[i] in s.place && s.place[s.order[i]] == Queued(i)
  }

  ghost predicate Indexed(s: State, n: Node)
    requires Counts(s) && n in s.place
  {
    s.place[n].Queued? ==> s.first <= s.place[n].i < |s.order| && s.order[s.place[n].i] == n
  }

  ghost predicate Placed(s: State)
    requires Counts(s)
  {
    && (forall i {:trigger PlacedAt(s, i)} :: s.first <= i < |s.order| ==> PlacedAt(s, i))
    && (forall n {:trigger Indexed(s, n)} :: n in s.place ==> Indexed(s, n))
  }

  /** The queue and the threads own live nodes, the protocol the others; and a
      node that was unlinked keeps its link until it is reclaimed. */
  ghost predicate PhasesOk(s: State)
    requires Counts(s)
  {
    forall n {:trigger s.place[n]} {:trigger s.hp.phase[n]} :: n in s.place ==>
      && (s.place[n].Out? <==> !s.hp.phase[n].Live?)
      && (s.place[n].Limbo? || s.hp.phase[n].Retired? ==> s.prev[n] != 0)
  }

  ghost predicate NodeOk(s: State, i: nat)
    requires i < |s.order| == |s.vals|
  {
    && s.order[i] in s.prev && s.order[i] in s.value
    && s.prev[s.order[i]] == (if i + 1 < |s.order| && i + 1 !in s.pending then s.order[i + 1] else 0)
    && s.value[s.order[i]] == s.vals[i]
  }

  ghost predicate ChainOk(s: State)
    requires Counts(s)
  {
    forall i {:trigger NodeOk(s, i)} :: s.first <= i < |s.order| ==> NodeOk(s, i)
  }

  ghost predicate PendingOk(s: State)
    requires Counts(s)
  {
    forall i :: i in s.pending ==>
      s.first < i < |s.order| && s.pending[i] < |s.pcs| && s.pcs[s.pending[i]] == PushLink(s.order[i], s.order[i - 1])
  }

  ghost predicate Shared(s: State) {
    Counts(s) && Placed(s) && PhasesOk(s) && ChainOk(s) && PendingOk(s)
  }

  ghost predicate HeldBy(s: State, t: Tid, n: Node) {
    n in s.place && s.place[n] == Held(t)
  }

  ghost predicate SlotIs(s: State, t: Tid, k: nat, x: Node) {
    HP.HasSlot(s.hp, t, k) && s.hp.slots[t][k] == x
  }

  /** Slot `k` of `t` protects node `x`. */
  ghost predicate Guards(s: State, t: Tid, k: nat, x: Node) {
    SlotIs(s, t, k, x) && (t, k) in s.hp.confirmed && x in s.place
  }

  /** `h` was the head when it was confirmed: it still is, or it was unlinked
      and has not been reused since. */
  ghost predicate WasHead(s: State, t: Tid, h: Node) {
    Guards(s, t, 0, h) && (h == s.head || s.place[h].Limbo? || s.place[h].Out?)
  }

  /** What the thread read from head->prev is still the node behind the head,
      if the head is still `h`. */
  ghost predicate SawPrev(s: State, h: Node, p: Node)
    requires Counts(s)
  {
    h == s.head ==> s.first + 1 < |s.order| && s.first + 1 !in s.pending && p == s.order[s.first + 1]
  }

  ghost predicate ThreadOk(s: State, t: Tid)
    requires Counts(s) && t < |s.pcs|
  {
    && (s.hp.scans[t].NoScan? <==> !s.pcs[t].PopScan?)
    && match s.pcs[t]
       case PushClear(n) => HeldBy(s, t, n)
       case PushTail(n) => HeldBy(s, t, n) && s.prev[n] == 0
       case PushUse(n, x) => HeldBy(s, t, n) && s.prev[n] == 0
       case PushCheck(n, x) => HeldBy(s, t, n) && s.prev[n] == 0 && SlotIs(s, t, 0, x)
       case PushCas(n, x) => HeldBy(s, t, n) && s.prev[n] == 0 && Guards(s, t, 0, x)
       case PushLink(n, x) =>
         var at := Position(s, n);
         at in s.pending && s.pending[at] == t
         && s.first < at < |s.order| && n == s.order[at] && x == s.order[at - 1] && Guards(s, t, 0, x)
       case PopCheck(h) => SlotIs(s, t, 0, h)
       case PopPrev(h) => WasHead(s, t, h)
       case PopUse1(h, p) => WasHead(s, t, h) && SawPrev(s, h, p)
       case PopCheck1(h, p) => WasHead(s, t, h) && SawPrev(s, h, p) && SlotIs(s, t, 1, p)
       case PopValue(h, p) => WasHead(s, t, h) && SawPrev(s, h, p) && Guards(s, t, 1, p)
       case PopCas(h, p, v) =>
         WasHead(s, t, h) && SawPrev(s, h, p) && Guards(s, t, 1, p) && (h == s.head ==> v == s.vals[s.first + 1])
       case PopClear0(h, _) => h in s.place && s.place[h] == Limbo(t)
       case PopClear1(h, _) => h in s.place && s.place[h] == Limbo(t)
       case PopRetire(h, _) => h in s.place && s.place[h] == Limbo(t)
       case _ => true
  }

  ghost predicate ThreadsOk(s: State) {
    Shared(s) && forall t :: 0 <= t < |s.pcs| ==> ThreadOk(s, t)
  }

  ghost predicate Inv(s: State) {
    HP.Inv(s.hp) && ThreadsOk(s)
  }

  // ------------------------------------- steps that touch only their own record

  /** The memory of the queue is unchanged. */
  ghost predicate SameQueue(s: State, s': State) {
    && s'.head == s.head && s'.tail == s.tail && s'.prev == s.prev && s'.value == s.value && s'.place == s.place
    && s'.order == s.order && s'.vals == s.vals && s'.first == s.first
    && s'.pending == s.pending && s'.popped == s.popped
  }

  /** Only thread `t` has moved. */
  ghost predicate OnlyMoved(s: State, s': State, t: Tid) {
    |s'.pcs| == |s.pcs| && forall u :: 0 <= u < |s.pcs| && u != t ==> s'.pcs[u] == s.pcs[u]
  }

  /** The record of `u` and what is confirmed in it are unchanged. */
  ghost predicate SameRecord(s: State, s': State, u: Tid) {
    && HP.Joined(s.hp, u) && HP.Joined(s'.hp, u)
    && s'.hp.slots[u] == s.hp.slots[u] && s'.hp.scans[u] == s.hp.scans[u]
    && forall k :: (u, k) in s.hp.confirmed ==> (u, k) in s'.hp.confirmed
  }

  lemma LocalShared(s: State, s': State, t: Tid)
    requires Shared(s) && SameQueue(s, s') && OnlyMoved(s, s', t) && t < |s.pcs| && !s.pcs[t].PushLink?
    requires HP.Shape(s'.hp) && s'.hp.width == 2 && |s'.hp.slots| == |s.hp.slots| && s'.hp.phase == s.hp.phase
    ensures Shared(s')
  {
    PlacedFrame(s, s');
    ChainFrame(s, s');
  }

  /** A change that moves no node into, out of or within the queue. */
  lemma PlacedFrame(s: State, s': State)
    requires Counts(s) && Placed(s) && Counts(s')
    requires s'.order == s.order && s'.first == s.first && s'.place.Keys == s.place.Keys
    requires forall n {:trigger s'.place[n]} :: n in s.place ==>
               s'.place[n] == s.place[n] || (!s.place[n].Queued? && !s'.place[n].Queued?)
    ensures Placed(s')
  {
    forall i | s'.first <= i < |s'.order| ensures PlacedAt(s', i) {
      assert PlacedAt(s, i);
      assert Indexed(s, s.order[i]);
    }
    forall n | n in s'.place ensures Indexed(s', n) {
      assert Indexed(s, n);
    }
  }

  /** A change that leaves the fields of queued nodes alone. */
  lemma ChainFrame(s: State, s': State)
    requires Counts(s) && Placed(s) && ChainOk(s) && Counts(s') && s'.first == s.first
    requires s'.order == s.order && s'.vals == s.vals && s'.pending == s.pending && s'.place.Keys == s.place.Keys
    requires forall n {:trigger s'.prev[n]} {:trigger s'.value[n]} :: n in s.place && s.place[n].Queued? ==>
               s'.prev[n] == s.prev[n] && s'.value[n] == s.value[n]
    ensures ChainOk(s')
  {
    forall i | s'.first <= i < |s'.order| ensures NodeOk(s', i) {
      assert NodeOk(s, i) && PlacedAt(s, i);
    }
  }

  lemma LocalOther(s: State, s': State, t: Tid, u: Tid)
    requires Counts(s) && Counts(s') && SameQueue(s, s') && OnlyMoved(s, s', t)
    requires u < |s.pcs| && u != t && SameRecord(s, s', u) && ThreadOk(s, u)
    ensures ThreadOk(s', u)
  {
  }

  lemma GotoThreads(s: State, t: Tid, pc: Pc)
    requires ThreadsOk(s) && t < |s.pcs| && !s.pcs[t].PushLink? && !s.pcs[t].PopScan?
    requires Counts(Goto(s, t, pc)) ==> ThreadOk(Goto(s, t, pc), t)
    ensures ThreadsOk(Goto(s, t, pc))
  {
    var s' := Goto(s, t, pc);
    LocalShared(s, s', t);
    forall u | 0 <= u < |s.pcs| && u != t ensures ThreadOk(s', u) {
      LocalOther(s, s', t, u);
    }
  }

  lemma SetHazardThreads(s: State, t: Tid, k: nat, x: Node, pc: Pc)
    requires ThreadsOk(s) && t < |s.pcs| && k < 2 && !s.pcs[t].PushLink?
    requires var s' := SetHazard(s, t, k, x, pc); Counts(s') && SlotIs(s', t, k, x) ==> ThreadOk(s', t)
    ensures ThreadsOk(SetHazard(s, t, k, x, pc))
  {
    var s' := SetHazard(s, t, k, x, pc);
    LocalShared(s, s', t);
    forall u | 0 <= u < |s.pcs| && u != t ensures ThreadOk(s', u) {
      LocalOther(s, s', t, u);
    }
  }

  lemma ConfirmThreads(s: State, t: Tid, k: nat, x: Node, pc: Pc)
    requires ThreadsOk(s) && t < |s.pcs| && k < 2 && !s.pcs[t].PushLink?
    requires SlotIs(s, t, k, x) && x in s.place && s.place[x].Queued?
    requires var s' := Confirm(s, t, k, pc); Counts(s') && Guards(s', t, k, x) ==> ThreadOk(s', t)
    ensures ThreadsOk(Confirm(s, t, k, pc))
  {
    var s' := Confirm(s, t, k, pc);
    assert s.hp.phase[x].Live?;
    LocalShared(s, s', t);
    forall u | 0 <= u < |s.pcs| && u != t ensures ThreadOk(s', u) {
      LocalOther(s, s', t, u);
    }
  }

  // ------------------------------------------- steps that change the queue

  lemma ClearShared(s: State, t: Tid, n: Node)
    requires Shared(s) && t < |s.pcs| && s.pcs[t] == PushClear(n) && HeldBy(s, t, n)
    ensures Shared(Clear(s, t, n))
  {
    PlacedFrame(s, Clear(s, t, n));
    ChainFrame(s, Clear(s, t, n));
  }

  lemma ClearOther(s: State, t: Tid, n: Node, u: Tid)
    requires Counts(s) && t < |s.pcs| && Counts(Clear(s, t, n)) && HeldBy(s, t, n)
    requires u < |s.pcs| && u != t && ThreadOk(s, u)
    ensures ThreadOk(Clear(s, t, n), u)
  {
  }

  lemma SwingTailPlaced(s: State, t: Tid, n: Node, x: Node)
    requires Counts(s) && Placed(s) && PhasesOk(s) && t < |s.pcs| && HeldBy(s, t, n)
    ensures var s' := SwingTail(s, t, n, x);
      Counts(s') && Placed(s') && PhasesOk(s')
  {
    var s' := SwingTail(s, t, n, x);
    assert s'.popped == s'.vals[1..s'.first + 1];
    forall i | s'.first <= i < |s'.order| ensures PlacedAt(s', i) {
      if i < |s.order| { assert PlacedAt(s, i); }
    }
    forall m | m in s'.place ensures Indexed(s', m) {
      assert Indexed(s, m);
    }
  }

  lemma SwingTailShared(s: State, t: Tid, n: Node, x: Node)
    requires Shared(s) && t < |s.pcs| && s.pcs[t] == PushCas(n, x) && HeldBy(s, t, n) && s.prev[n] == 0 && s.tail == x
    ensures Shared(SwingTail(s, t, n, x))
  {
    var s' := SwingTail(s, t, n, x);
    SwingTailPlaced(s, t, n, x);
    forall i | s'.first <= i < |s'.order| ensures NodeOk(s', i) {
      if i < |s.order| { assert NodeOk(s, i); }
    }
  }

  lemma SwingTailOther(s: State, t: Tid, n: Node, x: Node, u: Tid)
    requires Counts(s) && t < |s.pcs| && Counts(SwingTail(s, t, n, x)) && HeldBy(s, t, n)
    requires u < |s.pcs| && u != t && ThreadOk(s, u)
    ensures ThreadOk(SwingTail(s, t, n, x), u)
  {
  }

  lemma LinkPending(s: State, t: Tid, n: Node, x: Node)
    requires Counts(s) && Placed(s) && PendingOk(s) && t < |s.pcs| && s.pcs[t] == PushLink(n, x) && ThreadOk(s, t)
    requires Counts(Link(s, t, n, x))
    ensures PendingOk(Link(s, t, n, x))
  {
    var s' := Link(s, t, n, x);
    assert PlacedAt(s, Position(s, n));
    forall i | i in s'.pending ensures s'.pcs[s'.pending[i]] == PushLink(s.order[i], s.order[i - 1]) {
      assert s.pcs[s.pending[i]] == PushLink(s.order[i], s.order[i - 1]);
      assert PlacedAt(s, i);
    }
  }

  lemma LinkShared(s: State, t: Tid, n: Node, x: Node)
    requires Shared(s) && t < |s.pcs| && s.pcs[t] == PushLink(n, x) && ThreadOk(s, t)
    ensures Shared(Link(s, t, n, x))
  {
    LinkCounts(s, t, n, x);
    PlacedFrame(s, Link(s, t, n, x));
    LinkChain(s, t, n, x);
    LinkPending(s, t, n, x);
  }

  lemma LinkCounts(s: State, t: Tid, n: Node, x: Node)
    requires Counts(s) && Placed(s) && PhasesOk(s) && t < |s.pcs| && s.pcs[t] == PushLink(n, x) && ThreadOk(s, t)
    ensures Counts(Link(s, t, n, x)) && PhasesOk(Link(s, t, n, x))
  {
    assert PlacedAt(s, Position(s, n));
  }

  lemma LinkChain(s: State, t: Tid, n: Node, x: Node)
    requires Counts(s) && Placed(s) && ChainOk(s) && t < |s.pcs| && s.pcs[t] == PushLink(n, x) && ThreadOk(s, t)
    requires Counts(Link(s, t, n, x))
    ensures ChainOk(Link(s, t, n, x))
  {
    var s', at := Link(s, t, n, x), Position(s, n);
    assert PlacedAt(s, at - 1) && PlacedAt(s, at);
    forall i | s'.first <= i < |s'.order| ensures NodeOk(s', i) {
      assert NodeOk(s, i) && PlacedAt(s, i);
    }
  }

  lemma LinkOther(s: State, t: Tid, n: Node, x: Node, u: Tid)
    requires Counts(s) && Placed(s) && t < |s.pcs| && Counts(Link(s, t, n, x))
    requires s.pcs[t] == PushLink(n, x) && ThreadOk(s, t)
    requires u < |s.pcs| && u != t && ThreadOk(s, u)
    ensures ThreadOk(Link(s, t, n, x), u)
  {
    assert PlacedAt(s, Position(s, n) - 1);
  }

  lemma SwingHeadPlaced(s: State, t: Tid, h: Node, p: Node, v: Item)
    requires Counts(s) && Placed(s) && PhasesOk(s) && t < |s.pcs|
    requires h == s.head && s.first + 1 < |s.order| && p == s.order[s.first + 1] && v == s.vals[s.first + 1]
    requires h in s.prev && s.prev[h] != 0
    ensures var s' := SwingHead(s, t, h, p, v);
      Counts(s') && Placed(s') && PhasesOk(s')
  {
    var s' := SwingHead(s, t, h, p, v);
    assert s'.popped == s'.vals[1..s'.first + 1];
    assert PlacedAt(s, s.first);
    forall i | s'.first <= i < |s'.order| ensures PlacedAt(s', i) {
      assert PlacedAt(s, i);
    }
    forall m | m in s'.place ensures Indexed(s', m) {
      assert Indexed(s, m);
    }
  }

  lemma SwingHeadShared(s: State, t: Tid, h: Node, p: Node, v: Item)
    requires Shared(s) && t < |s.pcs| && s.pcs[t] == PopCas(h, p, v) && ThreadOk(s, t) && h == s.head
    ensures Shared(SwingHead(s, t, h, p, v))
  {
    var s' := SwingHead(s, t, h, p, v);
    assert NodeOk(s, s.first);
    assert PlacedAt(s, s.first + 1);
    SwingHeadPlaced(s, t, h, p, v);
    forall i | s'.first <= i < |s'.order| ensures NodeOk(s', i) {
      assert NodeOk(s, i);
    }
  }

  lemma SwingHeadOther(s: State, t: Tid, h: Node, p: Node, v: Item, u: Tid)
    requires Counts(s) && Placed(s) && t < |s.pcs| && Counts(SwingHead(s, t, h, p, v))
    requires h == s.head && s.first + 1 < |s.order| && p == s.order[s.first + 1] && s.first + 1 !in s.pending
    requires u < |s.pcs| && u != t && ThreadOk(s, u)
    ensures ThreadOk(SwingHead(s, t, h, p, v), u)
  {
    assert PlacedAt(s, s.first) && PlacedAt(s, s.first + 1);
  }

  // ----------------------------------------- steps that change nodes' phases

  /** `t` has put the node it unlinked on its retired list. */
  ghost predicate Retires(s: State, s': State, t: Tid, h: Node) {
    && s' == s.(hp := s'.hp, pcs := s'.pcs, place := s.place[h := Out]) && OnlyMoved(s, s', t)
    && h in s.place && s.place[h] == Limbo(t)
    && HP.Shape(s'.hp) && s'.hp.width == 2 && |s'.hp.slots| == |s.hp.slots|
    && s'.hp.phase == s.hp.phase[h := HP.Retired(t)]
  }

  lemma RetireShared(s: State, s': State, t: Tid, h: Node)
    requires Shared(s) && t < |s.pcs| && !s.pcs[t].PushLink? && Retires(s, s', t, h)
    ensures Shared(s')
  {
    PlacedFrame(s, s');
    ChainFrame(s, s');
  }

  lemma RetireOther(s: State, s': State, t: Tid, h: Node, u: Tid)
    requires Counts(s) && Counts(s') && Retires(s, s', t, h)
    requires u < |s.pcs| && u != t && SameRecord(s, s', u) && ThreadOk(s, u)
    ensures ThreadOk(s', u)
  {
  }

  lemma RetireIsAllowed(s: State, t: Tid, h: Node, v: Item)
    requires Shared(s) && t < |s.pcs| && s.pcs[t] == PopRetire(h, v) && ThreadOk(s, t)
    ensures HP.MayRetire(s.hp, t, h)
  {
  }

  lemma RetireOwn(s: State, t: Tid, h: Node, v: Item, scan: bool)
    requires Counts(s) && t < |s.pcs| && s.pcs[t] == PopRetire(h, v) && ThreadOk(s, t)
    requires HP.MayRetire(s.hp, t, h)
    ensures var s' := Retire(s, t, h, v, scan);
      && Retires(s, s', t, h) && (Counts(s') ==> ThreadOk(s', t))
  {
  }

  lemma RetireKeepsRecord(s: State, t: Tid, h: Node, v: Item, scan: bool, u: Tid)
    requires Counts(s) && t < |s.pcs| && u < |s.pcs| && u != t
    ensures SameRecord(s, Retire(s, t, h, v, scan), u)
  {
  }

  lemma RetireThreads(s: State, t: Tid, h: Node, v: Item, scan: bool)
    requires ThreadsOk(s) && t < |s.pcs| && s.pcs[t] == PopRetire(h, v)
    ensures ThreadsOk(Retire(s, t, h, v, scan))
  {
    var s' := Retire(s, t, h, v, scan);
    assert ThreadOk(s, t);
    RetireIsAllowed(s, t, h, v);
    RetireOwn(s, t, h, v, scan);
    RetireShared(s, s', t, h);
    forall u | 0 <= u < |s.pcs| && u != t ensures ThreadOk(s', u) {
      RetireKeepsRecord(s, t, h, v, scan, u);
      RetireOther(s, s', t, h, u);
    }
  }

  lemma ScanShared(s: State, s': State, t: Tid)
    requires Shared(s) && SameQueue(s, s') && OnlyMoved(s, s', t) && t < |s.pcs| && !s.pcs[t].PushLink?
    requires HP.ScanKeeps(s.hp, s'.hp, t) && HP.Shape(s'.hp)
    ensures Shared(s')
  {
    PlacedFrame(s, s');
    ChainFrame(s, s');
  }

  lemma ScanThreads(s: State, t: Tid, v: Item)
    requires ThreadsOk(s) && t < |s.pcs| && s.pcs[t] == PopScan(v)
    requires HP.ScanKeeps(s.hp, HP.ScanStep(s.hp, t), t) && HP.Shape(HP.ScanStep(s.hp, t))
    ensures ThreadsOk(Scan(s, t, v))
  {
    var s' := Scan(s, t, v);
    ScanShared(s, s', t);
    forall u | 0 <= u < |s.pcs| && u != t ensures ThreadOk(s', u) {
      LocalOther(s, s', t, u);
    }
  }

  lemma OfferShared(s: State, t: Tid, n: Node, v: Item)
    requires Shared(s) && t < |s.pcs| && Ready(s.pcs[t]) && Free(s, n)
    ensures Shared(Offer(s, t, n, v))
  {
    OfferPhases(s, t, n, v);
    ChainFrame(s, Offer(s, t, n, v));
  }

  lemma OfferPhases(s: State, t: Tid, n: Node, v: Item)
    requires Counts(s) && Placed(s) && PhasesOk(s) && t < |s.pcs| && Ready(s.pcs[t]) && Free(s, n)
    ensures var s' := Offer(s, t, n, v);
      Counts(s') && Placed(s') && PhasesOk(s')
  {
    PlacedFrame(s, Offer(s, t, n, v));
  }

  lemma OfferOther(s: State, t: Tid, n: Node, v: Item, u: Tid)
    requires Counts(s) && t < |s.pcs| && Ready(s.pcs[t]) && Free(s, n) && Counts(Offer(s, t, n, v))
    requires HP.ConfirmedOk(s.hp) && u < |s.pcs| && u != t && ThreadOk(s, u)
    ensures ThreadOk(Offer(s, t, n, v), u)
  {
  }

  lemma OfferInv(s: State, t: Tid, n: Node, v: Item)
    requires Inv(s) && t < |s.pcs| && Ready(s.pcs[t]) && Free(s, n)
    ensures Inv(Offer(s, t, n, v))
  {
    HP.ReuseInv(s.hp, n);
    OfferThreads(s, t, n, v);
  }

  lemma OfferThreads(s: State, t: Tid, n: Node, v: Item)
    requires ThreadsOk(s) && HP.ConfirmedOk(s.hp) && t < |s.pcs| && Ready(s.pcs[t]) && Free(s, n)
    ensures ThreadsOk(Offer(s, t, n, v))
  {
    OfferShared(s, t, n, v);
    assert ThreadOk(s, t);
    forall u | 0 <= u < |s.pcs| && u != t ensures ThreadOk(Offer(s, t, n, v), u) {
      OfferOther(s, t, n, v, u);
    }
  }

  lemma OverwriteShared(s: State, n: Node, prev: Node, v: Item)
    requires Shared(s) && Free(s, n)
    ensures Shared(Overwrite(s, n, prev, v))
  {
    PlacedFrame(s, Overwrite(s, n, prev, v));
    ChainFrame(s, Overwrite(s, n, prev, v));
  }

  lemma OverwriteOther(s: State, n: Node, prev: Node, v: Item, u: Tid)
    requires Counts(s) && Counts(Overwrite(s, n, prev, v)) && Free(s, n) && u < |s.pcs| && ThreadOk(s, u)
    ensures ThreadOk(Overwrite(s, n, prev, v), u)
  {
  }

  lemma OverwriteInv(s: State, n: Node, prev: Node, v: Item)
    requires Inv(s) && Free(s, n)
    ensures Inv(Overwrite(s, n, prev, v))
  {
    OverwriteShared(s, n, prev, v);
    forall u | 0 <= u < |s.pcs| ensures ThreadOk(Overwrite(s, n, prev, v), u) {
      OverwriteOther(s, n, prev, v, u);
    }
  }

  lemma JoinShared(s: State)
    requires Shared(s)
    ensures Shared(AddThread(s))
  {
    PlacedFrame(s, AddThread(s));
    ChainFrame(s, AddThread(s));
  }

  lemma JoinOther(s: State, u: Tid)
    requires Counts(s) && Counts(AddThread(s)) && u < |s.pcs| && ThreadOk(s, u)
    ensures ThreadOk(AddThread(s), u)
  {
  }

  lemma JoinThreads(s: State)
    requires ThreadsOk(s)
    ensures ThreadsOk(AddThread(s))
  {
    JoinShared(s);
    forall u | 0 <= u < |s.pcs| ensures ThreadOk(AddThread(s), u) {
      JoinOther(s, u);
    }
  }

  lemma JoinInv(s: State)
    requires Inv(s)
    ensures Inv(AddThread(s))
  {
    HP.JoinInv(s.hp);
    JoinThreads(s);
  }

  // ------------------------------------------------------------ every step

  lemma ClearThreads(s: State, t: Tid, n: Node)
    requires ThreadsOk(s) && t < |s.pcs| && s.pcs[t] == PushClear(n)
    ensures ThreadsOk(Clear(s, t, n))
  {
    assert ThreadOk(s, t);
    ClearShared(s, t, n);
    forall u | 0 <= u < |s.pcs| && u != t ensures ThreadOk(Clear(s, t, n), u) { ClearOther(s, t, n, u); }
  }

  lemma SwingTailThreads(s: State, t: Tid, n: Node, x: Node)
    requires ThreadsOk(s) && t < |s.pcs| && s.pcs[t] == PushCas(n, x) && s.tail == x
    ensures ThreadsOk(SwingTail(s, t, n, x))
  {
    assert ThreadOk(s, t);
    SwingTailShared(s, t, n, x);
    forall u | 0 <= u < |s.pcs| && u != t ensures ThreadOk(SwingTail(s, t, n, x), u) { SwingTailOther(s, t, n, x, u); }
  }

  lemma LinkThreads(s: State, t: Tid, n: Node, x: Node)
    requires ThreadsOk(s) && t < |s.pcs| && s.pcs[t] == PushLink(n, x)
    ensures ThreadsOk(Link(s, t, n, x))
  {
    assert ThreadOk(s, t);
    LinkShared(s, t, n, x);
    forall u | 0 <= u < |s.pcs| && u != t ensures ThreadOk(Link(s, t, n, x), u) { LinkOther(s, t, n, x, u); }
  }

  lemma SwingHeadThreads(s: State, t: Tid, h: Node, p: Node, v: Item)
    requires ThreadsOk(s) && t < |s.pcs| && s.pcs[t] == PopCas(h, p, v) && s.head == h
    ensures ThreadsOk(SwingHead(s, t, h, p, v))
  {
    assert ThreadOk(s, t);
    SwingHeadShared(s, t, h, p, v);
    forall u | 0 <= u < |s.pcs| && u != t ensures ThreadOk(SwingHead(s, t, h, p, v), u) {
      SwingHeadOther(s, t, h, p, v, u);
    }
  }

  lemma PushCheckThreads(s: State, t: Tid)
    requires ThreadsOk(s) && t < |s.pcs| && s.pcs[t].PushCheck?
    ensures ThreadsOk(PushStep(s, t))
  {
    var PushCheck(n, x) := s.pcs[t];
    assert ThreadOk(s, t);
    if x != s.tail {
      GotoThreads(s, t, PushTail(n));
    } else {
      assert PlacedAt(s, |s.order| - 1);
      ConfirmThreads(s, t, 0, x, PushCas(n, x));
    }
  }

  lemma PushThreads(s: State, t: Tid)
    requires ThreadsOk(s) && t < |s.pcs| && Pushing(s.pcs[t])
    ensures ThreadsOk(PushStep(s, t))
  {
    assert ThreadOk(s, t);
    match s.pcs[t]
    case PushClear(n) => ClearThreads(s, t, n);
    case PushTail(n) => GotoThreads(s, t, PushUse(n, s.tail));
    case PushUse(n, x) => SetHazardThreads(s, t, 0, x, PushCheck(n, x));
    case PushCheck(n, x) => PushCheckThreads(s, t);
    case PushCas(n, x) => if s.tail == x { SwingTailThreads(s, t, n, x); } else { GotoThreads(s, t, PushTail(n)); }
    case PushLink(n, x) => LinkThreads(s, t, n, x);
    case PushRelease => SetHazardThreads(s, t, 0, 0, DonePush);
  }

  lemma ReadPrevThreads(s: State, t: Tid)
    requires ThreadsOk(s) && t < |s.pcs| && s.pcs[t].PopPrev?
    ensures ThreadsOk(PopStep(s, t, false))
  {
    var h := s.pcs[t].h;
    assert ThreadOk(s, t) && NodeOk(s, s.first) && PlacedAt(s, s.first);
    if s.first + 1 < |s.order| { assert PlacedAt(s, s.first + 1); }
    GotoThreads(s, t, if PrevOf(s, h) == 0 then PopGiveUp else PopUse1(h, PrevOf(s, h)));
  }

  lemma ReadValueThreads(s: State, t: Tid)
    requires ThreadsOk(s) && t < |s.pcs| && s.pcs[t].PopValue?
    ensures ThreadsOk(PopStep(s, t, false))
  {
    var PopValue(h, p) := s.pcs[t];
    assert ThreadOk(s, t);
    if h == s.head { assert NodeOk(s, s.first + 1); }
    GotoThreads(s, t, PopCas(h, p, ValueOf(s, p)));
  }

  lemma CheckThreads(s: State, t: Tid)
    requires ThreadsOk(s) && t < |s.pcs| && s.pcs[t].PopCheck?
    ensures ThreadsOk(PopStep(s, t, false))
  {
    var h := s.pcs[t].h;
    assert ThreadOk(s, t);
    if h != s.head {
      GotoThreads(s, t, PopHead);
    } else {
      assert PlacedAt(s, s.first);
      ConfirmThreads(s, t, 0, h, PopPrev(h));
    }
  }

  lemma Check1Threads(s: State, t: Tid)
    requires ThreadsOk(s) && t < |s.pcs| && s.pcs[t].PopCheck1?
    ensures ThreadsOk(PopStep(s, t, false))
  {
    var PopCheck1(h, p) := s.pcs[t];
    assert ThreadOk(s, t);
    if h != s.head {
      GotoThreads(s, t, PopHead);
    } else {
      assert PlacedAt(s, s.first + 1);
      Check1Own(s, t, h, p);
      ConfirmThreads(s, t, 1, p, PopValue(h, p));
    }
  }

  lemma Check1Own(s: State, t: Tid, h: Node, p: Node)
    requires Counts(s) && t < |s.pcs| && s.pcs[t] == PopCheck1(h, p) && ThreadOk(s, t)
    ensures var s' := Confirm(s, t, 1, PopValue(h, p));
      Counts(s') && Guards(s', t, 1, p) ==> ThreadOk(s', t)
  {
  }

  lemma PopUseThreads(s: State, t: Tid)
    requires ThreadsOk(s) && t < |s.pcs| && (s.pcs[t].PopUse? || s.pcs[t].PopUse1?)
    ensures ThreadsOk(PopStep(s, t, false))
  {
    assert ThreadOk(s, t);
    match s.pcs[t]
    case PopUse(h) => SetHazardThreads(s, t, 0, h, PopCheck(h));
    case PopUse1(h, p) => SetHazardThreads(s, t, 1, p, PopCheck1(h, p));
  }

  lemma PopGiveUpThreads(s: State, t: Tid)
    requires ThreadsOk(s) && t < |s.pcs| && s.pcs[t].PopGiveUp?
    ensures ThreadsOk(PopStep(s, t, false))
  {
    assert ThreadOk(s, t);
    SetHazardThreads(s, t, 0, 0, DonePop(None));
  }

  lemma PopClear0Threads(s: State, t: Tid)
    requires ThreadsOk(s) && t < |s.pcs| && s.pcs[t].PopClear0?
    ensures ThreadsOk(PopStep(s, t, false))
  {
    assert ThreadOk(s, t);
    SetHazardThreads(s, t, 0, 0, PopClear1(s.pcs[t].h, s.pcs[t].v));
  }

  lemma PopClear1Threads(s: State, t: Tid)
    requires ThreadsOk(s) && t < |s.pcs| && s.pcs[t].PopClear1?
    ensures ThreadsOk(PopStep(s, t, false))
  {
    assert ThreadOk(s, t);
    SetHazardThreads(s, t, 1, 0, PopRetire(s.pcs[t].h, s.pcs[t].v));
  }

  lemma PopHeadThreads(s: State, t: Tid)
    requires ThreadsOk(s) && t < |s.pcs| && s.pcs[t].PopHead?
    ensures ThreadsOk(PopStep(s, t, false))
  {
    assert ThreadOk(s, t);
    GotoThreads(s, t, PopUse(s.head));
  }

  lemma PopCasThreads(s: State, t: Tid)
    requires ThreadsOk(s) && t < |s.pcs| && s.pcs[t].PopCas?
    ensures ThreadsOk(PopStep(s, t, false))
  {
    var PopCas(h, p, v) := s.pcs[t];
    assert ThreadOk(s, t);
    if s.head == h { SwingHeadThreads(s, t, h, p, v); } else { GotoThreads(s, t, PopHead); }
  }

  lemma PopThreads(s: State, t: Tid, scan: bool)
    requires ThreadsOk(s) && t < |s.pcs| && !Pushing(s.pcs[t])
    requires HP.ScanKeeps(s.hp, HP.ScanStep(s.hp, t), t) && HP.Shape(HP.ScanStep(s.hp, t))
    ensures ThreadsOk(PopStep(s, t, scan))
  {
    match s.pcs[t]
    case PopHead => PopHeadThreads(s, t);
    case PopUse(_) => PopUseThreads(s, t);
    case PopUse1(_, _) => PopUseThreads(s, t);
    case PopCheck(_) => CheckThreads(s, t);
    case PopPrev(_) => ReadPrevThreads(s, t);
    case PopCheck1(_, _) => Check1Threads(s, t);
    case PopValue(_, _) => ReadValueThreads(s, t);
    case PopCas(_, _, _) => PopCasThreads(s, t);
    case PopRetire(h, v) => RetireThreads(s, t, h, v, scan);
    case PopScan(v) => ScanThreads(s, t, v);
    case PopGiveUp => PopGiveUpThreads(s, t);
    case PopClear0(h, v) => PopClear0Threads(s, t);
    case PopClear1(h, v) => PopClear1Threads(s, t);
    case _ =>
  }

  /** Every step is a legal step of the reclamation protocol. */
  lemma PushProtocol(s: State, t: Tid)
    requires HP.Inv(s.hp) && t < |s.pcs|
    ensures HP.Inv(PushStep(s, t).hp)
  {
    match s.pcs[t]
    case PushUse(n, x) => HP.UseInv(s.hp, t, 0, x);
    case PushCheck(n, x) => HP.ConfirmInv(s.hp, t, 0);
    case PushRelease => HP.UseInv(s.hp, t, 0, 0);
    case _ =>
  }

  lemma PopProtocol(s: State, t: Tid, scan: bool)
    requires HP.Inv(s.hp) && t < |s.pcs|
    requires s.pcs[t].PopRetire? ==> HP.MayRetire(s.hp, t, s.pcs[t].h)
    ensures HP.Inv(PopStep(s, t, scan).hp)
  {
    var pc := s.pcs[t];
    if pc.PopRetire? {
      HP.RetireAndScanInv(s.hp, t, pc.h);
    } else if pc.PopScan? {
      HP.ScanInv(s.hp, t);
    } else if pc.PopCheck? || pc.PopCheck1? {
      HP.ConfirmInv(s.hp, t, if pc.PopCheck? then 0 else 1);
    } else if Guarding(pc) {
      PopUsesProtocol(s, t, scan);
    } else {
      PopKeepsProtocol(s, t, scan);
    }
  }

  lemma PopKeepsProtocol(s: State, t: Tid, scan: bool)
    requires t < |s.pcs| && !Guarding(s.pcs[t])
    requires var pc := s.pcs[t]; !pc.PopCheck? && !pc.PopCheck1? && !pc.PopRetire? && !pc.PopScan?
    ensures PopStep(s, t, scan).hp == s.hp
  {
  }

  predicate Guarding(pc: Pc) {
    pc.PopUse? || pc.PopUse1? || pc.PopGiveUp? || pc.PopClear0? || pc.PopClear1?
  }

  lemma PopUsesProtocol(s: State, t: Tid, scan: bool)
    requires HP.Inv(s.hp) && t < |s.pcs| && Guarding(s.pcs[t])
    ensures HP.Inv(PopStep(s, t, scan).hp)
  {
    match s.pcs[t]
    case PopUse(h) => HP.UseInv(s.hp, t, 0, h);
    case PopUse1(h, p) => HP.UseInv(s.hp, t, 1, p);
    case PopGiveUp => HP.UseInv(s.hp, t, 0, 0);
    case PopClear0(h, v) => HP.UseInv(s.hp, t, 0, 0);
    case PopClear1(h, v) => HP.UseInv(s.hp, t, 1, 0);
  }

  lemma PushInv(s: State, t: Tid)
    requires Inv(s) && t < |s.pcs| && Pushing(s.pcs[t])
    ensures Inv(PushStep(s, t))
  {
    PushThreads(s, t);
    PushProtocol(s, t);
  }

  lemma PopInv(s: State, t: Tid, scan: bool)
    requires Inv(s) && t < |s.pcs| && !Pushing(s.pcs[t])
    ensures Inv(PopStep(s, t, scan))
  {
    HP.ScanEffects(s.hp, t);
    PopThreads(s, t, scan);
    if s.pcs[t].PopRetire? {
      assert ThreadOk(s, t);
      RetireIsAllowed(s, t, s.pcs[t].h, s.pcs[t].v);
    }
    PopProtocol(s, t, scan);
  }

  lemma NextInv(s: State, a: Action)
    requires Inv(s)
    ensures Inv(Next(s, a))
  {
    match a
    case Join => JoinInv(s);
    case Push(t, n, v) => if t < |s.pcs| && Ready(s.pcs[t]) && Free(s, n) { OfferInv(s, t, n, v); }
    case Pop(t) => if t < |s.pcs| && Ready(s.pcs[t]) { assert ThreadOk(s, t); GotoThreads(s, t, PopHead); }
    case Go(t, scan) => if t < |s.pcs| { if Pushing(s.pcs[t]) { PushInv(s, t); } else { PopInv(s, t, scan); } }
    case Scribble(n, prev, v) => if Free(s, n) { OverwriteInv(s, n, prev, v); }
  }

  lemma {:induction false} RunInv(s: State, sched: seq<Action>)
    requires Inv(s)
    ensures Inv(Run(s, sched))
    decreases |sched|
  {
    if sched == [] {
    } else {
      NextInv(s, sched[0]);
      RunInv(Next(s, sched[0]), sched[1..]);
    }
  }

  lemma InitInv(s: State)
    requires Init(s)
    ensures Inv(s)
  {
    HP.InitInv(s.hp);
  }

  // ------------------------------------------------------------- main results

  /** The values behind the head, in the order of the tail CASes. */
  function Queue(s: State): seq<Item>
    requires s.first < |s.vals|
  {
    s.vals[s.first + 1..]
  }

  /** The memory accesses through a node a thread does not own: reading prev of
      the head, reading the value behind it, writing prev of the old tail. */
  predicate Dereferences(pc: Pc, x: Node) {
    (pc.PopPrev? && x == pc.h) || (pc.PopValue? && x == pc.p) || (pc.PushLink? && x == pc.x)
  }

  /** In every run, with any number of threads joining, pushing, popping and
      scanning and with reclaimed nodes overwritten and pushed again: the values
      taken are, in the order of the CASes on head, exactly the first values
      pushed in the order of the CASes on tail, and no thread is ever about to
      dereference a reclaimed node. */
  lemma RunIsSafeFifo(s0: State, sched: seq<Action>)
    requires Init(s0)
    ensures var s := Run(s0, sched);
      && s.first < |s.vals| && s.vals[1..] == s.popped + Queue(s)
      && forall t, x :: 0 <= t < |s.pcs| && Dereferences(s.pcs[t], x) ==>
           x in s.hp.phase && !s.hp.phase[x].Reclaimed?
  {
    InitInv(s0);
    RunInv(s0, sched);
    var s := Run(s0, sched);
    forall t, x | 0 <= t < |s.pcs| && Dereferences(s.pcs[t], x) ensures x in s.hp.phase && !s.hp.phase[x].Reclaimed? {
      DereferenceIsSafe(s, t, x);
    }
  }

  lemma DereferenceIsSafe(s: State, t: Tid, x: Node)
    requires Inv(s) && t < |s.pcs| && Dereferences(s.pcs[t], x)
    ensures x in s.hp.phase && !s.hp.phase[x].Reclaimed?
  {
    assert ThreadOk(s, t);
    assert HP.ConfirmedOk(s.hp);
  }

  /** The push takes effect at its CAS on tail, appending its node's value;
      every other step of a push leaves the queue alone. */
  lemma PushRefines(s: State, t: Tid)
    requires Inv(s) && t < |s.pcs| && Pushing(s.pcs[t])
    ensures var s' := PushStep(s, t);
      var pc := s.pcs[t];
      && Inv(s') && s'.popped == s.popped
      && (if pc.PushCas? && pc.x == s.tail
          then pc.n in s.value && Queue(s') == Queue(s) + [s.value[pc.n]] && s'.pcs[t] == PushLink(pc.n, pc.x)
          else Queue(s') == Queue(s))
  {
    PushInv(s, t);
    assert ThreadOk(s, t);
    if s.pcs[t].PushCas? && s.pcs[t].x == s.tail {
      DropAppend(s.vals, s.first + 1, s.value[s.pcs[t].n]);
    } else {
      PushKeepsQueue(s, t);
    }
  }

  lemma PushKeepsQueue(s: State, t: Tid)
    requires t < |s.pcs| && Pushing(s.pcs[t]) && !(s.pcs[t].PushCas? && s.pcs[t].x == s.tail)
    ensures var s' := PushStep(s, t); s'.first == s.first && s'.vals == s.vals && s'.popped == s.popped
  {
    if s.pcs[t].PushUse? || s.pcs[t].PushCheck? || s.pcs[t].PushRelease? { PushGuardKeepsQueue(s, t); }
  }

  lemma PushGuardKeepsQueue(s: State, t: Tid)
    requires t < |s.pcs| && (s.pcs[t].PushUse? || s.pcs[t].PushCheck? || s.pcs[t].PushRelease?)
    ensures var s' := PushStep(s, t); s'.first == s.first && s'.vals == s.vals && s'.popped == s.popped
  {
  }

  /** A pop takes effect at its CAS on head: when that succeeds the value read
      before, through nodes that others may have retired meanwhile, is the first
      one of the queue. */
  lemma PopCasRefines(s: State, t: Tid, scan: bool)
    requires Inv(s) && t < |s.pcs| && s.pcs[t].PopCas?
    ensures var s' := PopStep(s, t, scan);
      var PopCas(h, p, v) := s.pcs[t];
      s'.first < |s'.vals|
      && (if h == s.head
          then Queue(s) == [v] + Queue(s') && s'.popped == s.popped + [v] && s'.pcs[t] == PopClear0(h, v)
          else Queue(s') == Queue(s) && s'.popped == s.popped && s'.pcs[t] == PopHead)
  {
    assert ThreadOk(s, t);
    if s.pcs[t].h == s.head { DropFirst(s.vals, s.first + 1); }
  }

  /** Every other step of a pop leaves the queue alone. */
  lemma PopKeepsQueue(s: State, t: Tid, scan: bool)
    requires s.first < |s.vals| && t < |s.pcs| && !s.pcs[t].PopCas?
    ensures var s' := PopStep(s, t, scan);
      s'.first == s.first && s'.vals == s.vals && s'.popped == s.popped
  {
    match s.pcs[t]
    case PopRetire(h, v) => RetireKeepsQueue(s, t, h, v, scan);
    case PopScan(v) => ScanKeepsQueue(s, t, v);
    case _ =>
  }

  lemma RetireKeepsQueue(s: State, t: Tid, h: Node, v: Item, scan: bool)
    requires t < |s.pcs|
    ensures var s' := Retire(s, t, h, v, scan); s'.first == s.first && s'.vals == s.vals && s'.popped == s.popped
  {
  }

  lemma ScanKeepsQueue(s: State, t: Tid, v: Item)
    requires t < |s.pcs|
    ensures SameQueue(s, Scan(s, t, v))
  {
  }

  /** The value taken is the one returned, and the node that carried the head
      before is retired by the thread that unlinked it. */
  lemma PopReturnsWhatItTook(s: State, t: Tid, scan: bool)
    requires Inv(s) && t < |s.pcs| && s.pcs[t].PopRetire?
    ensures var PopRetire(h, v) := s.pcs[t];
      var s' := PopStep(s, t, scan);
      && h in s'.hp.phase && s'.hp.phase[h] == HP.Retired(t)
      && s'.pcs[t] == (if scan then PopScan(v) else DonePop(Some(v)))
  {
    assert ThreadOk(s, t);
    RetireIsAllowed(s, t, s.pcs[t].h, s.pcs[t].v);
  }

  /** trypop answers NULL exactly when, as it reads prev of a head that is still
      the head, nothing is queued or the first waiting push has not set it yet;
      a head that has been overtaken never looks empty. */
  lemma NullIsExact(s: State, t: Tid, scan: bool)
    requires Inv(s) && t < |s.pcs| && s.pcs[t].PopPrev?
    ensures PopStep(s, t, scan).pcs[t] == PopGiveUp <==>
              s.pcs[t].h == s.head && (Queue(s) == [] || s.first + 1 in s.pending)
  {
    var h := s.pcs[t].h;
    assert ThreadOk(s, t) && NodeOk(s, s.first) && PlacedAt(s, s.first);
    assert HP.ConfirmedOk(s.hp);
    assert !s.hp.phase[h].Reclaimed?;
    if h == s.head && s.first + 1 < |s.order| {
      assert PlacedAt(s, s.first + 1);
    }
  }

  // A thread running without interference.

  function Step(s: State, t: Tid, scan: bool): State
    requires t < |s.pcs|
  {
    if Pushing(s.pcs[t]) then PushStep(s, t) else PopStep(s, t, scan)
  }

  /** `t` takes `n` steps while nobody else moves; `scan` says whether the retired
      list has reached its threshold. */
  function Solo(s: State, t: Tid, scan: bool, n: nat): State
    decreases n
  {
    if n == 0 || t >= |s.pcs| then s else Solo(Step(s, t, scan), t, scan, n - 1)
  }

  /** The first item, if any, whose push has been linked. */
  function Visible(s: State): Option<Item>
    requires s.first < |s.vals|
  {
    if Queue(s) == [] || s.first + 1 in s.pending then None else Some(Queue(s)[0])
  }

  /** Hazard slot `k` of `t` is NULL again. */
  ghost predicate Released(s: State, t: Tid, k: nat) {
    HP.HasSlot(s.hp, t, k) && s.hp.slots[t][k] == 0
  }

  /** A pop by `t` on queue `q`, whose first item is visible or not, ended in
      `s'` with the hazard slots it used cleared. */
  ghost predicate PopOutcome(q: seq<Item>, visible: Option<Item>, t: Tid, s': State) {
    && s'.first < |s'.vals| && t < |s'.pcs| && s'.pcs[t] == DonePop(visible)
    && (visible.None? ==> Queue(s') == q && Released(s', t, 0))
    && (visible.Some? ==> q == [visible.value] + Queue(s') && Released(s', t, 0) && Released(s', t, 1))
  }

  predicate Local(pc: Pc) {
    !Pushing(pc) && !pc.PopCas? && !pc.PopRetire? && !pc.PopScan?
  }

  ghost predicate SameLinks(s: State, s': State) {
    |s'.pcs| == |s.pcs| && s'.head == s.head && s'.pending == s.pending
  }

  lemma GuardKeepsLinks(s: State, t: Tid, scan: bool)
    requires t < |s.pcs| && Guarding(s.pcs[t])
    ensures SameLinks(s, PopStep(s, t, scan))
  {
  }

  lemma ReadKeepsLinks(s: State, t: Tid, scan: bool)
    requires t < |s.pcs| && Local(s.pcs[t]) && !Guarding(s.pcs[t])
    ensures SameLinks(s, PopStep(s, t, scan))
  {
  }

  lemma PopKeepsLinks(s: State, t: Tid, scan: bool)
    requires t < |s.pcs| && Local(s.pcs[t])
    ensures SameLinks(s, PopStep(s, t, scan))
  {
    if Guarding(s.pcs[t]) { GuardKeepsLinks(s, t, scan); } else { ReadKeepsLinks(s, t, scan); }
  }

  /** Every access of a pop but its CAS and the retirement is local. */
  lemma PopMoves(s: State, t: Tid, scan: bool)
    requires Inv(s) && t < |s.pcs| && Local(s.pcs[t])
    ensures var s' := PopStep(s, t, scan);
      && Inv(s') && |s'.pcs| == |s.pcs| && Queue(s') == Queue(s) && Visible(s') == Visible(s) && s'.head == s.head
  {
    PopInv(s, t, scan);
    PopKeepsQueue(s, t, scan);
    PopKeepsLinks(s, t, scan);
  }

  /** Both hazard slots of `t` are NULL. */
  ghost predicate Clean(s: State, t: Tid) {
    Released(s, t, 0) && Released(s, t, 1)
  }

  /** A pop that nobody has interfered with, begun on queue `q` whose first item
      was visible or not, is on its way to the right answer. */
  ghost predicate OnTrack(s: State, t: Tid, q: seq<Item>, visible: Option<Item>) {
    && Inv(s) && t < |s.pcs|
    && match s.pcs[t]
       case PopHead => Untouched(s, s.head, q, visible)
       case PopUse(h) => Untouched(s, h, q, visible)
       case PopCheck(h) => Untouched(s, h, q, visible)
       case PopPrev(h) => Untouched(s, h, q, visible)
       case PopGiveUp => visible == None && Queue(s) == q
       case PopUse1(h, _) => Untouched(s, h, q, visible) && visible.Some?
       case PopCheck1(h, _) => Untouched(s, h, q, visible) && visible.Some?
       case PopValue(h, _) => Untouched(s, h, q, visible) && visible.Some?
       case PopCas(h, _, _) => Untouched(s, h, q, visible) && visible.Some?
       case PopClear0(_, v) => visible == Some(v) && q == [v] + Queue(s)
       case PopClear1(_, v) => visible == Some(v) && q == [v] + Queue(s) && Released(s, t, 0)
       case PopRetire(_, v) => visible == Some(v) && q == [v] + Queue(s) && Clean(s, t)
       case PopScan(v) => visible == Some(v) && q == [v] + Queue(s) && Clean(s, t)
       case DonePop(_) => PopOutcome(q, visible, t, s)
       case _ => false
  }

  /** `h` is the head and the queue is as it was. */
  ghost predicate Untouched(s: State, h: Node, q: seq<Item>, visible: Option<Item>)
    requires s.first < |s.vals|
  {
    h == s.head && q == Queue(s) && visible == Visible(s)
  }

  /** How many accesses a pop that neither retries nor scans has to go. */
  function Ahead(pc: Pc): nat {
    match pc
    case PopHead => 11
    case PopUse(_) => 10
    case PopCheck(_) => 9
    case PopPrev(_) => 8
    case PopUse1(_, _) => 7
    case PopCheck1(_, _) => 6
    case PopValue(_, _) => 5
    case PopCas(_, _, _) => 4
    case PopClear0(_, _) => 3
    case PopClear1(_, _) => 2
    case PopRetire(_, _) => 1
    case PopGiveUp => 1
    case _ => 0
  }

  /** The next access takes the pop a step further, the last but for a scan. */
  ghost predicate Advances(s: State, s': State, t: Tid, q: seq<Item>, visible: Option<Item>, scan: bool) {
    && OnTrack(s', t, q, visible) && t < |s.pcs| && Ahead(s'.pcs[t]) < Ahead(s.pcs[t])
    && (s'.pcs[t].PopScan? ==> scan)
  }

  lemma LookAdvances(s: State, t: Tid, scan: bool, q: seq<Item>, visible: Option<Item>)
    requires OnTrack(s, t, q, visible) && (s.pcs[t].PopHead? || s.pcs[t].PopUse? || s.pcs[t].PopCheck?)
    ensures Advances(s, PopStep(s, t, scan), t, q, visible, scan)
  {
    PopMoves(s, t, scan);
  }

  lemma PrevAdvances(s: State, t: Tid, scan: bool, q: seq<Item>, visible: Option<Item>)
    requires OnTrack(s, t, q, visible) && s.pcs[t].PopPrev?
    ensures Advances(s, PopStep(s, t, scan), t, q, visible, scan)
  {
    NullIsExact(s, t, scan);
    PopMoves(s, t, scan);
  }

  lemma GiveUpAdvances(s: State, t: Tid, scan: bool, q: seq<Item>, visible: Option<Item>)
    requires OnTrack(s, t, q, visible) && s.pcs[t].PopGiveUp?
    ensures Advances(s, PopStep(s, t, scan), t, q, visible, scan)
  {
    PopMoves(s, t, scan);
    GiveUpReleases(s, t, scan);
  }

  lemma GiveUpReleases(s: State, t: Tid, scan: bool)
    requires Counts(s) && t < |s.pcs| && s.pcs[t] == PopGiveUp
    ensures Released(PopStep(s, t, scan), t, 0)
  {
  }

  lemma LookAgainAdvances(s: State, t: Tid, scan: bool, q: seq<Item>, visible: Option<Item>)
    requires OnTrack(s, t, q, visible) && (s.pcs[t].PopUse1? || s.pcs[t].PopValue?)
    ensures Advances(s, PopStep(s, t, scan), t, q, visible, scan)
  {
    PopMoves(s, t, scan);
  }

  lemma CheckAgainAdvances(s: State, t: Tid, scan: bool, q: seq<Item>, visible: Option<Item>)
    requires OnTrack(s, t, q, visible) && s.pcs[t].PopCheck1?
    ensures Advances(s, PopStep(s, t, scan), t, q, visible, scan)
  {
    PopMoves(s, t, scan);
  }

  lemma TakeAdvances(s: State, t: Tid, scan: bool, q: seq<Item>, visible: Option<Item>)
    requires OnTrack(s, t, q, visible) && s.pcs[t].PopCas?
    ensures Advances(s, PopStep(s, t, scan), t, q, visible, scan)
  {
    PopCasRefines(s, t, scan);
    PopInv(s, t, scan);
  }

  lemma ClearAdvances(s: State, t: Tid, scan: bool, q: seq<Item>, visible: Option<Item>)
    requires OnTrack(s, t, q, visible) && s.pcs[t].PopClear0?
    ensures Advances(s, PopStep(s, t, scan), t, q, visible, scan)
  {
    PopMoves(s, t, scan);
    ClearReleases(s, t, scan);
  }

  lemma ClearAgainAdvances(s: State, t: Tid, scan: bool, q: seq<Item>, visible: Option<Item>)
    requires OnTrack(s, t, q, visible) && s.pcs[t].PopClear1?
    ensures Advances(s, PopStep(s, t, scan), t, q, visible, scan)
  {
    PopMoves(s, t, scan);
    ClearReleases(s, t, scan);
  }

  lemma ClearReleases(s: State, t: Tid, scan: bool)
    requires Counts(s) && t < |s.pcs| && (s.pcs[t].PopClear0? || s.pcs[t].PopClear1?)
    ensures s.pcs[t].PopClear0? ==> Released(PopStep(s, t, scan), t, 0)
    ensures s.pcs[t].PopClear1? && Released(s, t, 0) ==> Clean(PopStep(s, t, scan), t)
  {
  }

  lemma RetireAdvances(s: State, t: Tid, scan: bool, q: seq<Item>, visible: Option<Item>)
    requires OnTrack(s, t, q, visible) && s.pcs[t].PopRetire?
    ensures Advances(s, PopStep(s, t, scan), t, q, visible, scan)
  {
    PopRetires(s, t, scan);
  }

  lemma PopRetires(s: State, t: Tid, scan: bool)
    requires Inv(s) && t < |s.pcs| && s.pcs[t].PopRetire? && Clean(s, t)
    ensures var s', v := PopStep(s, t, scan), s.pcs[t].v;
      && Inv(s') && t < |s'.pcs| && Clean(s', t) && Queue(s') == Queue(s)
      && s'.pcs[t] == (if scan then PopScan(v) else DonePop(Some(v)))
  {
    PopInv(s, t, scan);
    PopReturnsWhatItTook(s, t, scan);
    PopKeepsQueue(s, t, scan);
    RetireKeepsSlots(s, t, scan);
  }

  lemma RetireKeepsSlots(s: State, t: Tid, scan: bool)
    requires t < |s.pcs| && s.pcs[t].PopRetire? && Clean(s, t)
    ensures Clean(PopStep(s, t, scan), t)
  {
  }

  /** Before its CAS. */
  predicate Before(pc: Pc) {
    pc.PopHead? || pc.PopUse? || pc.PopCheck? || pc.PopUse1? || pc.PopCheck1? || pc.PopValue?
  }

  lemma BeforeAdvances(s: State, t: Tid, scan: bool, q: seq<Item>, visible: Option<Item>)
    requires OnTrack(s, t, q, visible) && Before(s.pcs[t])
    ensures Advances(s, PopStep(s, t, scan), t, q, visible, scan)
  {
    if s.pcs[t].PopUse1? || s.pcs[t].PopValue? {
      LookAgainAdvances(s, t, scan, q, visible);
    } else if s.pcs[t].PopCheck1? {
      CheckAgainAdvances(s, t, scan, q, visible);
    } else {
      LookAdvances(s, t, scan, q, visible);
    }
  }

  lemma PopAdvances(s: State, t: Tid, scan: bool, q: seq<Item>, visible: Option<Item>)
    requires OnTrack(s, t, q, visible) && !s.pcs[t].DonePop? && !s.pcs[t].PopScan?
    ensures Advances(s, PopStep(s, t, scan), t, q, visible, scan)
  {
    if Before(s.pcs[t]) {
      BeforeAdvances(s, t, scan, q, visible);
    } else {
      match s.pcs[t]
      case PopPrev(_) => PrevAdvances(s, t, scan, q, visible);
      case PopGiveUp => GiveUpAdvances(s, t, scan, q, visible);
      case PopCas(_, _, _) => TakeAdvances(s, t, scan, q, visible);
      case PopClear0(_, _) => ClearAdvances(s, t, scan, q, visible);
      case PopClear1(_, _) => ClearAgainAdvances(s, t, scan, q, visible);
      case PopRetire(_, _) => RetireAdvances(s, t, scan, q, visible);
    }
  }

  // What a scan has still to do: rows, then slots of a row, then old nodes.

  function Stage(p: HP.Scan): nat {
    match p
    case NoScan => 0
    case Sweep(_, _) => 1
    case Collect(_, _, _) => 2
  }

  function Outer(p: HP.Scan): nat {
    match p
    case NoScan => 0
    case Sweep(_, todo) => |todo|
    case Collect(i, _, _) => if i < 0 then 0 else i + 1
  }

  function Inner(p: HP.Scan, width: nat): nat {
    if p.Collect? && p.k < width then width - p.k else 0
  }

  lemma ScanShrinks(p: HP.State, t: Tid)
    requires HP.Shape(p) && HP.Joined(p, t) && !p.scans[t].NoScan?
    ensures var p' := HP.ScanStep(p, t);
      && HP.Joined(p', t) && p'.width == p.width && p'.slots == p.slots
      && (|| Stage(p'.scans[t]) < Stage(p.scans[t])
          || (Stage(p'.scans[t]) == Stage(p.scans[t]) && Outer(p'.scans[t]) < Outer(p.scans[t]))
          || (Stage(p'.scans[t]) == Stage(p.scans[t]) && Outer(p'.scans[t]) == Outer(p.scans[t])
              && Inner(p'.scans[t], p'.width) < Inner(p.scans[t], p.width)))
  {
  }

  /** What is left of the scan inside a pop shrinks with every access of it. */
  ghost predicate Shrinks(s: State, s': State, t: Tid)
    requires HP.Joined(s.hp, t) && HP.Joined(s'.hp, t)
  {
    var p, p' := s.hp.scans[t], s'.hp.scans[t];
    || Stage(p') < Stage(p)
    || (Stage(p') == Stage(p) && Outer(p') < Outer(p))
    || (Stage(p') == Stage(p) && Outer(p') == Outer(p) && Inner(p', s'.hp.width) < Inner(p, s.hp.width))
  }

  /** One access of a scan: the value stays in hand until the last, which returns
      it. */
  lemma ScanAdvances(s: State, t: Tid, scan: bool, q: seq<Item>, visible: Option<Item>)
    requires OnTrack(s, t, q, visible) && s.pcs[t].PopScan?
    ensures var s' := PopStep(s, t, scan);
      && OnTrack(s', t, q, visible) && HP.Joined(s.hp, t) && HP.Joined(s'.hp, t) && Shrinks(s, s', t)
      && (s'.pcs[t].PopScan? || s'.pcs[t].DonePop?)
  {
    assert ThreadOk(s, t);
    PopInv(s, t, scan);
    PopKeepsQueue(s, t, scan);
    ScanShrinks(s.hp, t);
  }

  /** Of two states of a pop the second is nearer its end. */
  ghost predicate Nearer(s: State, s': State, t: Tid, scan: bool)
    requires t < |s.pcs| && t < |s'.pcs|
  {
    || (Ahead(s'.pcs[t]) < Ahead(s.pcs[t]) && (s'.pcs[t].PopScan? ==> scan))
    || (Ahead(s'.pcs[t]) == Ahead(s.pcs[t]) && s.pcs[t].PopScan? && ScanNearer(s, s', t))
  }

  ghost predicate ScanNearer(s: State, s': State, t: Tid) {
    || ScanStage(s', t) < ScanStage(s, t)
    || (ScanStage(s', t) == ScanStage(s, t) && ScanOuter(s', t) < ScanOuter(s, t))
    || (ScanStage(s', t) == ScanStage(s, t) && ScanOuter(s', t) == ScanOuter(s, t)
        && ScanInner(s', t) < ScanInner(s, t))
  }

  lemma TrackStep(s: State, t: Tid, scan: bool, q: seq<Item>, visible: Option<Item>)
    requires OnTrack(s, t, q, visible) && !s.pcs[t].DonePop?
    ensures OnTrack(Step(s, t, scan), t, q, visible) && Nearer(s, Step(s, t, scan), t, scan)
  {
    if s.pcs[t].PopScan? { ScanAdvances(s, t, scan, q, visible); } else { PopAdvances(s, t, scan, q, visible); }
  }

  lemma TrackDone(s: State, t: Tid, q: seq<Item>, visible: Option<Item>)
    requires OnTrack(s, t, q, visible) && s.pcs[t].DonePop?
    ensures EndsRight(s, t, false, 0, q, visible) && EndsRight(s, t, true, 0, q, visible)
  {
  }

  /** After `n` accesses of its own the pop of `t` has ended with the right answer. */
  ghost predicate EndsRight(s: State, t: Tid, scan: bool, n: nat, q: seq<Item>, visible: Option<Item>)
    decreases n
  {
    if n == 0 || t >= |s.pcs| then PopOutcome(q, visible, t, s)
    else EndsRight(Step(s, t, scan), t, scan, n - 1, q, visible)
  }

  lemma {:induction false} EndsAlone(s: State, t: Tid, scan: bool, n: nat, q: seq<Item>, visible: Option<Item>)
    ensures EndsRight(s, t, scan, n, q, visible) == PopOutcome(q, visible, t, Solo(s, t, scan, n))
    decreases n
  {
    if n == 0 || t >= |s.pcs| {
      assert Solo(s, t, scan, n) == s;
    } else {
      var s1 := Step(s, t, scan);
      EndsAlone(s1, t, scan, n - 1, q, visible);
      assert Solo(s, t, scan, n) == Solo(s1, t, scan, n - 1);
      assert EndsRight(s, t, scan, n, q, visible) == EndsRight(s1, t, scan, n - 1, q, visible);
    }
  }

  /** Left alone, a pop on its way ends with the right answer, after as many
      accesses as there are ahead and those of a scan. */
  lemma {:induction false} TrackEnds(s: State, t: Tid, scan: bool, q: seq<Item>, visible: Option<Item>) returns (n: nat)
    requires OnTrack(s, t, q, visible)
    ensures EndsRight(s, t, scan, n, q, visible) && (!scan && !s.pcs[t].PopScan? ==> n <= Ahead(s.pcs[t]))
    decreases Ahead(s.pcs[t]), ScanStage(s, t), ScanOuter(s, t), ScanInner(s, t)
  {
    if s.pcs[t].DonePop? {
      n := 0;
      TrackDone(s, t, q, visible);
    } else {
      TrackStep(s, t, scan, q, visible);
      var m := TrackEnds(Step(s, t, scan), t, scan, q, visible);
      n := m + 1;
    }
  }

  function ScanStage(s: State, t: Tid): nat {
    if HP.Joined(s.hp, t) then Stage(s.hp.scans[t]) else 0
  }

  function ScanOuter(s: State, t: Tid): nat {
    if HP.Joined(s.hp, t) then Outer(s.hp.scans[t]) else 0
  }

  function ScanInner(s: State, t: Tid): nat {
    if HP.Joined(s.hp, t) then Inner(s.hp.scans[t], s.hp.width) else 0
  }

  /** Alone, a pop needs no retry: whether it has to scan or not it returns the
      first item, or NULL when there is none or its push has not been linked. */
  lemma PopAlone(s: State, t: Tid, scan: bool) returns (n: nat)
    requires Inv(s) && t < |s.pcs| && Ready(s.pcs[t])
    ensures var s' := Solo(Next(s, Pop(t)), t, scan, n);
      Inv(s') && PopOutcome(Queue(s), Visible(s), t, s') && (!scan ==> n <= 11)
  {
    NextInv(s, Pop(t));
    n := TrackEnds(Next(s, Pop(t)), t, scan, Queue(s), Visible(s));
    EndsAlone(Next(s, Pop(t)), t, scan, n, Queue(s), Visible(s));
    SoloInv(Next(s, Pop(t)), t, scan, n);
  }

  lemma {:induction false} SoloInv(s: State, t: Tid, scan: bool, n: nat)
    requires Inv(s)
    ensures Inv(Solo(s, t, scan, n))
    decreases n
  {
    if n == 0 || t >= |s.pcs| {
    } else {
      if Pushing(s.pcs[t]) { PushInv(s, t); } else { PopInv(s, t, scan); }
      SoloInv(Step(s, t, scan), t, scan, n - 1);
    }
  }

  /** A push by `t` on queue `q` ended in `s'` with its hazard slot cleared. */
  ghost predicate PushOutcome(q: seq<Item>, v: Item, t: Tid, s': State) {
    Inv(s') && t < |s'.pcs| && s'.pcs[t] == DonePush && Queue(s') == q + [v] && Released(s', t, 0)
  }

  /** Alone, a push needs no retry: it appends its node's value. */
  lemma PushAlone(s: State, t: Tid, n: Node, v: Item, scan: bool)
    requires Inv(s) && t < |s.pcs| && Ready(s.pcs[t]) && Free(s, n)
    ensures PushOutcome(Queue(s), v, t, Solo(Next(s, Push(t, n, v)), t, scan, 7))
  {
    OfferInv(s, t, n, v);
    OfferGives(s, t, n, v);
    PushClears(Next(s, Push(t, n, v)), t, scan);
  }

  lemma OfferGives(s: State, t: Tid, n: Node, v: Item)
    requires s.first < |s.vals| && t < |s.pcs| && Ready(s.pcs[t]) && Free(s, n)
    ensures var s' := Next(s, Push(t, n, v));
      && s'.first < |s'.vals| && Queue(s') == Queue(s) && t < |s'.pcs| && s'.pcs[t] == PushClear(n)
      && ValueOf(s', n) == v
  {
  }

  lemma PushClears(s: State, t: Tid, scan: bool)
    requires Inv(s) && t < |s.pcs| && s.pcs[t].PushClear?
    ensures PushOutcome(Queue(s), ValueOf(s, s.pcs[t].n), t, Solo(s, t, scan, 7))
  {
    PushRefines(s, t);
    PushReadsTail(PushStep(s, t), t, scan);
  }

  lemma PushReadsTail(s: State, t: Tid, scan: bool)
    requires Inv(s) && t < |s.pcs| && s.pcs[t].PushTail?
    ensures PushOutcome(Queue(s), ValueOf(s, s.pcs[t].n), t, Solo(s, t, scan, 6))
  {
    PushRefines(s, t);
    PushGuardsTail(PushStep(s, t), t, scan);
  }

  lemma PushGuardsTail(s: State, t: Tid, scan: bool)
    requires Inv(s) && t < |s.pcs| && s.pcs[t].PushUse? && s.pcs[t].x == s.tail
    ensures PushOutcome(Queue(s), ValueOf(s, s.pcs[t].n), t, Solo(s, t, scan, 5))
  {
    PushRefines(s, t);
    PushChecksTail(PushStep(s, t), t, scan);
  }

  lemma PushChecksTail(s: State, t: Tid, scan: bool)
    requires Inv(s) && t < |s.pcs| && s.pcs[t].PushCheck? && s.pcs[t].x == s.tail
    ensures PushOutcome(Queue(s), ValueOf(s, s.pcs[t].n), t, Solo(s, t, scan, 4))
  {
    PushRefines(s, t);
    PushSwingsTail(PushStep(s, t), t, scan);
  }

  lemma PushSwingsTail(s: State, t: Tid, scan: bool)
    requires Inv(s) && t < |s.pcs| && s.pcs[t].PushCas? && s.pcs[t].x == s.tail
    ensures PushOutcome(Queue(s), ValueOf(s, s.pcs[t].n), t, Solo(s, t, scan, 3))
  {
    PushRefines(s, t);
    PushLinks(PushStep(s, t), t, scan, Queue(s), ValueOf(s, s.pcs[t].n));
  }

  lemma PushLinks(s: State, t: Tid, scan: bool, q: seq<Item>, v: Item)
    requires Inv(s) && t < |s.pcs| && s.pcs[t].PushLink? && Queue(s) == q + [v]
    ensures PushOutcome(q, v, t, Solo(s, t, scan, 2))
  {
    PushRefines(s, t);
    PushReleases(PushStep(s, t), t, scan, q, v);
  }

  lemma PushReleases(s: State, t: Tid, scan: bool, q: seq<Item>, v: Item)
    requires Inv(s) && t < |s.pcs| && s.pcs[t].PushRelease? && Queue(s) == q + [v]
    ensures PushOutcome(q, v, t, Solo(s, t, scan, 1))
  {
    PushRefines(s, t);
    ReleaseClears(s, t);
    assert Solo(s, t, scan, 1) == PushStep(s, t);
  }

  lemma ReleaseClears(s: State, t: Tid)
    requires Counts(s) && t < |s.pcs| && s.pcs[t].PushRelease?
    ensures Released(PushStep(s, t), t, 0)
  {
  }

  // ------------------------------------------------------------ in-place form

  predicate Taking(pc: Pc) {
    pc.PopValue? || pc.PopCas?
  }

  predicate Releasing(pc: Pc) {
    pc.PopClear0? || pc.PopClear1?
  }

  /** Callers push, and write, only nodes they own. */
  ghost predicate Allowed(s: State, a: Action) {
    match a
    case Push(t, n, v) => t < |s.pcs| && Ready(s.pcs[t]) ==> Free(s, n)
    case Scribble(n, prev, v) => Free(s, n)
    case _ => true
  }

  ghost predicate Obeys(s: State, sched: seq<Action>)
    decreases |sched|
  {
    sched == [] || (Allowed(s, sched[0]) && Obeys(Next(s, sched[0]), sched[1..]))
  }

  /** The thread has a hazard record with both its slots. */
  predicate HasRecord(s: State, t: Tid) {
    t < |s.pcs| && HP.HasSlot(s.hp, t, 0) && HP.HasSlot(s.hp, t, 1)
  }

  lemma RecordIsReady(s: State, t: Tid)
    requires Inv(s) && t < |s.pcs|
    ensures HasRecord(s, t)
    ensures s.pcs[t].PopRetire? ==> HP.MayRetire(s.hp, t, s.pcs[t].h)
  {
    if s.pcs[t].PopRetire? {
      assert ThreadOk(s, t);
      RetireIsAllowed(s, t, s.pcs[t].h, s.pcs[t].v);
    }
  }

  class Fifo {
    const hp: HP.Domain
    var head: Node
    var tail: Node
    var prev: map<Node, Node>
    var value: map<Node, Item>
    var pcs: seq<Pc>
    ghost var place: map<Node, Place>
    ghost var order: seq<Node>
    ghost var vals: seq<Item>
    ghost var first: nat
    ghost var pending: map<nat, Tid>
    ghost var popped: seq<Item>

    ghost function View(): State
      reads this, hp
    {
      State(hp.View(), head, tail, prev, value, pcs, place, order, vals, first, pending, popped)
    }

    /** mpmc_fifo_init: the caller's node becomes head and tail. */
    constructor (initial: Node, prev: map<Node, Node>, value: map<Node, Item>, hp: HP.Domain)
      requires HP.Init(hp.View()) && hp.width == 2 && initial in prev && prev.Keys == value.Keys == hp.phase.Keys
      requires forall n :: n in hp.phase ==> (hp.phase[n].Live? <==> n == initial)
      ensures Init(View()) && this.hp == hp && head == initial
    {
      this.hp, head, tail := hp, initial, initial;
      this.prev, this.value := prev[initial := 0], value[initial := 0];
      pcs := [];
      place := map n | n in prev :: if n == initial then Queued(0) else Out;
      order, vals, first, pending, popped := [initial], [0], 0, map[], [];
    }

    /** One memory access of thread `t`'s push. */
    method PushAccess(t: Tid)
      requires HasRecord(View(), t) && Pushing(pcs[t])
      modifies this, hp
      ensures View() == PushStep(old(View()), t)
    {
      match pcs[t]
      case PushClear(n) =>
        prev := prev[n := 0];
        pcs := pcs[t := PushTail(n)];
      case PushTail(n) => pcs := pcs[t := PushUse(n, tail)];
      case PushUse(n, x) => Publish(t, 0, x, PushCheck(n, x));
      case PushCheck(n, x) =>
        if x != tail {
          pcs := pcs[t := PushTail(n)];
        } else {
          hp.Check(t, 0);
          pcs := pcs[t := PushCas(n, x)];
        }
      case PushCas(n, x) =>
        if tail == x { MoveTail(t, n, x); } else { pcs := pcs[t := PushTail(n)]; }
      case PushLink(n, x) => SetPrev(t, n, x);
      case PushRelease => Publish(t, 0, 0, DonePush);
    }

    /** One memory access of thread `t`'s trypop, up to checking head again
        after reading its prev. */
    method LookAccess(t: Tid)
      requires HasRecord(View(), t) && !Pushing(pcs[t]) && !Taking(pcs[t]) && !Releasing(pcs[t])
      requires !pcs[t].PopRetire? && !pcs[t].PopScan?
      modifies this, hp
      ensures View() == PopStep(old(View()), t, false)
    {
      match pcs[t]
      case PopHead => pcs := pcs[t := PopUse(head)];
      case PopUse(h) => Publish(t, 0, h, PopCheck(h));
      case PopCheck(h) => CheckHead(t, 0, h, PopPrev(h));
      case PopPrev(h) =>
        var p := if h in prev then prev[h] else 0;
        pcs := pcs[t := if p == 0 then PopGiveUp else PopUse1(h, p)];
      case PopGiveUp => Publish(t, 0, 0, DonePop(None));
      case PopUse1(h, p) => Publish(t, 1, p, PopCheck1(h, p));
      case PopCheck1(h, p) => CheckHead(t, 1, h, PopValue(h, p));
      case _ =>
    }

    /** One memory access of thread `t`'s trypop: reading the value or the CAS on head. */
    method TakeAccess(t: Tid)
      requires HasRecord(View(), t) && Taking(pcs[t])
      modifies this, hp
      ensures View() == PopStep(old(View()), t, false)
    {
      match pcs[t]
      case PopValue(h, p) => pcs := pcs[t := PopCas(h, p, if p in value then value[p] else 0)];
      case PopCas(h, p, v) =>
        if head == h { MoveHead(t, h, p, v); } else { pcs := pcs[t := PopHead]; }
    }

    /** One memory access of thread `t`'s trypop after that CAS: done_using. */
    method ReleaseAccess(t: Tid)
      requires HasRecord(View(), t) && Releasing(pcs[t])
      modifies this, hp
      ensures View() == PopStep(old(View()), t, false)
      ensures var k := if old(pcs[t]).PopClear0? then 0 else 1;
        Released(View(), t, k) && (t, k) !in hp.confirmed
    {
      match pcs[t]
      case PopClear0(h, v) => Publish(t, 0, 0, PopClear1(h, v));
      case PopClear1(h, v) => Publish(t, 1, 0, PopRetire(h, v));
    }

    /** One access of the scan thread `t` is in; its pop returns when that ends. */
    method ScanAccess(t: Tid)
      requires HasRecord(View(), t) && pcs[t].PopScan?
      modifies this`pcs, hp
      ensures View() == PopStep(old(View()), t, false)
    {
      var v := pcs[t].v;
      hp.ScanAccess(t);
      pcs := pcs[t := if hp.scans[t].NoScan? then DonePop(Some(v)) else PopScan(v)];
    }

    method MoveTail(t: Tid, n: Node, x: Node)
      requires t < |pcs|
      modifies this
      ensures View() == SwingTail(old(View()), t, n, x)
    {
      tail := n;
      place, pending := place[n := Queued(|order|)], pending[|order| := t];
      order, vals := order + [n], vals + [if n in value then value[n] else 0];
      pcs := pcs[t := PushLink(n, x)];
    }

    method SetPrev(t: Tid, n: Node, x: Node)
      requires t < |pcs|
      modifies this
      ensures View() == Link(old(View()), t, n, x)
    {
      prev := prev[x := n];
      pending := pending - {Position(View(), n)};
      pcs := pcs[t := PushRelease];
    }

    method MoveHead(t: Tid, h: Node, p: Node, v: Item)
      requires t < |pcs|
      modifies this
      ensures View() == SwingHead(old(View()), t, h, p, v)
    {
      head := p;
      place, first, popped := place[h := Limbo(t)], first + 1, popped + [v];
      pcs := pcs[t := PopClear0(h, v)];
    }

    /** Puts the node thread `t` has unlinked on its retired list; `scan` says
        whether that list has reached the threshold. */
    method RetireHead(t: Tid, scan: bool)
      requires t < |pcs| && pcs[t].PopRetire? && HP.MayRetire(hp.View(), t, pcs[t].h)
      modifies this, hp
      ensures View() == PopStep(old(View()), t, scan)
    {
      var h, v := pcs[t].h, pcs[t].v;
      hp.Free(t, h);
      if scan { hp.BeginScan(t); }
      place := place[h := Out];
      pcs := pcs[t := if scan then PopScan(v) else DonePop(Some(v))];
    }

    method Publish(t: Tid, k: nat, x: Node, pc: Pc)
      requires t < |pcs| && HP.HasSlot(hp.View(), t, k)
      modifies this`pcs, hp
      ensures View() == SetHazard(old(View()), t, k, x, pc)
    {
      hp.Using(t, k, x);
      pcs := pcs[t := pc];
    }

    /** Reads head again after publishing slot `k`. */
    method CheckHead(t: Tid, k: nat, h: Node, pc: Pc)
      requires t < |pcs|
      modifies this`pcs, hp
      ensures View() == (if h != head then Goto(old(View()), t, PopHead) else Confirm(old(View()), t, k, pc))
    {
      if h != head {
        pcs := pcs[t := PopHead];
      } else {
        hp.Check(t, k);
        pcs := pcs[t := pc];
      }
    }

    /** Starts a push of the caller's node. */
    method Give(t: Tid, n: Node, v: Item)
      requires t < |pcs|
      modifies this, hp
      ensures View() == Offer(old(View()), t, n, v)
    {
      hp.Recycle(n);
      value, place := value[n := v], place[n := Held(t)];
      pcs := pcs[t := PushClear(n)];
    }

    /** One memory access of thread `t`, whatever it is doing. */
    method Advance(t: Tid, scan: bool)
      requires Inv(View()) && t < |pcs|
      modifies this, hp
      ensures View() == Next(old(View()), Go(t, scan))
    {
      RecordIsReady(View(), t);
      if Pushing(pcs[t]) {
        PushAccess(t);
      } else if Releasing(pcs[t]) {
        ReleaseAccess(t);
      } else if pcs[t].PopRetire? {
        RetireHead(t, scan);
      } else if pcs[t].PopScan? {
        ScanAccess(t);
      } else if Taking(pcs[t]) {
        TakeAccess(t);
      } else {
        LookAccess(t);
      }
    }

    method Perform(a: Action)
      requires Inv(View()) && Allowed(View(), a)
      modifies this, hp
      ensures View() == Next(old(View()), a)
    {
      match a
      case Join =>
        hp.Enroll();
        pcs := pcs + [Idle];
      case Push(t, n, v) => if t < |pcs| && Ready(pcs[t]) { Give(t, n, v); }
      case Pop(t) => if t < |pcs| && Ready(pcs[t]) { pcs := pcs[t := PopHead]; }
      case Go(t, scan) =>
        if t < |pcs| { Advance(t, scan); }
      case Scribble(n, p, v) => prev, value := prev[n := p], value[n := v];
    }

    /** Any interleaving of joins, pushes, pops and scans, performed in place. */
    method Interleave(sched: seq<Action>)
      requires Inv(View()) && Obeys(View(), sched)
      modifies this, hp
      ensures View() == Run(old(View()), sched) && Inv(View())
    {
      for i := 0 to |sched|
        invariant Inv(View()) && Obeys(View(), sched[i..])
        invariant Run(old(View()), sched) == Run(View(), sched[i..])
      {
        NextInv(View(), sched[i]);
        assert sched[i..][1..] == sched[i + 1..];
        Perform(sched[i]);
      }
    }
  }
}
