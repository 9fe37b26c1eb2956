/** The multi-producer single-consumer FIFO. A push exchanges the tail and links
    the old tail to its node in a second step, so the chain has gaps while
    pushes are in flight; popped nodes are reused at once. */
module MpscFifo {
  import opened Common

  /** A node's address; 0 is NULL. */
  type Node = nat

  datatype ProducerPc =
    | Idle
    | PushTerminate(n: Node)                               // new_node->next = NULL
    | PushExchange(n: Node)                                // prev_tail = exchange(tail, new_node)
    | PushLink(n: Node, prev: Node)                        // prev_tail->next = new_node
    | DonePush

  datatype ConsumerPc =
    | Resting
    | PopHead                                              // read f->head
    | PopNext(h: Node)                                     // read head->next
    | PopAdvance(h: Node, next: Node)                      // f->head = next
    | PopRead(h: Node, next: Node)                         // read next->data
    | PopWrite(h: Node, v: Item)                           // prev_head->data = data
    | PeekHead                                             // read f->head
    | PeekNext(h: Node)                                    // read head->next
    | PeekData(next: Node)                                 // read next->data
    | DonePop(res: Option<Node>)
    | DonePeek(item: Option<Item>)

  /** Who may write a node: it is in the queue, a producer is about to exchange
      it, the consumer has just popped it, or it belongs to some caller. */
  datatype Place = Queued(i: nat) | Held(t: Tid) | Taken | Loose

  datatype Action =
    | Push(t: Tid, n: Node) | Producer(t: Tid) | Pop | Peek | Consumer
    | Scribble(n: Node, next: Node, v: Item)

  /** `order` is every node in exchange order, `vals` their data, `first` the
      position of the head, `pending` who still has to link a position, and
      `popped` the data handed out: history, like `place`. */
  datatype State = State(
    head: Node, tail: Node, next: map<Node, Node>, data: map<Node, Item>,
    producers: map<Tid, ProducerPc>, consumer: ConsumerPc,
    place: map<Node, Place>, order: seq<Node>, vals: seq<Item>,
    first: nat, pending: map<nat, Tid>, popped: seq<Item>)

  predicate Init(s: State) {
    && s.head == s.tail && s.head in s.place && s.place[s.head] == Queued(0)
    && 0 !in s.place && s.next.Keys == s.data.Keys == s.place.Keys && s.next[s.head] == 0
    && (forall n :: n in s.place && n != s.head ==> s.place[n] == Loose)
    && (forall t :: t in s.producers ==> s.producers[t] == Idle)
    && s.consumer == Resting && s.order == [s.head] && s.vals == [s.data[s.head]]
    && s.first == 0 && s.pending == map[] && s.popped == []
  }

  predicate Free(s: State, n: Node) {
    n in s.place && s.place[n].Loose?
  }

  predicate ProducerReady(s: State, t: Tid) {
    t in s.producers && (s.producers[t].Idle? || s.producers[t].DonePush?)
  }

  predicate ConsumerReady(s: State) {
    s.consumer.Resting? || s.consumer.DonePop? || s.consumer.DonePeek?
  }

  function Offer(s: State, t: Tid, n: Node): State {
    s.(producers := s.producers[t := PushTerminate(n)], place := s.place[n := Held(t)])
  }

  function Terminate(s: State, t: Tid, n: Node): State {
    s.(next := s.next[n := 0], producers := s.producers[t := PushExchange(n)])
  }

  function Exchange(s: State, t: Tid, n: Node): State {
    var at := |s.order|;
    s.(tail := n, producers := s.producers[t := PushLink(n, s.tail)],
       place := s.place[n := Queued(at)], order := s.order + [n],
       vals := s.vals + [if n in s.data then s.data[n] else 0], pending := s.pending[at := t])
  }

  /** The position a node has in the exchange order. */
  function Position(s: State, n: Node): nat {
    if n in s.place && s.place[n].Queued? then s.place[n].i else 0
  }

  function Link(s: State, t: Tid, n: Node, prev: Node): State {
    s.(next := s.next[prev := n], producers := s.producers[t := DonePush], pending := s.pending - {Position(s, n)})
  }

  function ProducerStep(s: State, t: Tid): State
    requires t in s.producers
  {
    match s.producers[t]
    case PushTerminate(n) => Terminate(s, t, n)
    case PushExchange(n) => Exchange(s, t, n)
    case PushLink(n, prev) => Link(s, t, n, prev)
    case _ => s
  }

  function Advance(s: State, h: Node, next: Node): State {
    s.(head := next, consumer := PopRead(h, next), place := s.place[h := Taken], first := s.first + 1)
  }

  function Hand(s: State, h: Node, v: Item): State {
    s.(data := s.data[h := v], consumer := DonePop(Some(h)), place := s.place[h := Loose], popped := s.popped + [v])
  }

  function NextOf(s: State, h: Node): Node {
    if h in s.next then s.next[h] else 0
  }

  function DataOf(s: State, h: Node): Item {
    if h in s.data then s.data[h] else 0
  }

  function ConsumerStep(s: State): State {
    match s.consumer
    case PopHead => s.(consumer := PopNext(s.head))
    case PopNext(h) => s.(consumer := if NextOf(s, h) == 0 then DonePop(None) else PopAdvance(h, NextOf(s, h)))
    case PopAdvance(h, next) => Advance(s, h, next)
    case PopRead(h, next) => s.(consumer := PopWrite(h, DataOf(s, next)))
    case PopWrite(h, v) => Hand(s, h, v)
    case PeekHead => s.(consumer := PeekNext(s.head))
    case PeekNext(h) => s.(consumer := if NextOf(s, h) == 0 then DonePeek(None) else PeekData(NextOf(s, h)))
    case PeekData(next) => s.(consumer := DonePeek(Some(DataOf(s, next))))
    case _ => s
  }

  function Overwrite(s: State, n: Node, next: Node, v: Item): State {
    s.(next := s.next[n := next], data := s.data[n := v])
  }

  function Next(s: State, a: Action): State {
    match a
    case Push(t, n) => if ProducerReady(s, t) && Free(s, n) then Offer(s, t, n) else s
    case Producer(t) => if t in s.producers then ProducerStep(s, t) else s
    case Pop => if ConsumerReady(s) then s.(consumer := PopHead) else s
    case Peek => if ConsumerReady(s) then s.(consumer := PeekHead) else s
    case Consumer => ConsumerStep(s)
    case Scribble(n, next, v) => if Free(s, n) then Overwrite(s, n, next, v) else s
  }

  function Run(s: State, sched: seq<Action>): State
    decreases |sched|
  {
    if sched == [] then s else Run(Next(s, sched[0]), sched[1..])
  }

  // ---------------------------------------------------------------- invariant

  predicate Handing(pc: ConsumerPc) {
    pc.PopRead? || pc.PopWrite?
  }

  ghost predicate Counts(s: State) {
    && 0 !in s.place && s.next.Keys == s.data.Keys == s.place.Keys
    && s.first < |s.order| == |s.vals|
    && s.head == s.order[s.first] && s.tail == s.order[|s.order| - 1]
    && s.first == |s.popped| + (if Handing(s.consumer) then 1 else 0)
    && s.popped == s.vals[1..|s.popped| + 1]
  }

  ghost predicate PlacedAt(s: State, i: nat)
    requires i < |s.order|
  {
    s.order[i] in s.place && s.place[s.order[i]] == Queued(i)
  }

  ghost predicate Indexed(s: State, n: Node)
    requires n in s.place
  {
    s.place[n].Queued? ==> s.first <= s.place[n].i < |s.order| && s.order[s.place[n].i] == n
  }

  ghost predicate Placed(s: State) {
    && (forall i {:trigger PlacedAt(s, i)} :: s.first <= i < |s.order| ==> PlacedAt(s, i))
    && (forall n {:trigger Indexed(s, n)} :: n in s.place ==> Indexed(s, n))
  }

  /** A node carries its data, and the link to the next one unless that link is
      still pending. */
  ghost predicate NodeOk(s: State, i: nat)
    requires i < |s.order| == |s.vals|
  {
    && s.order[i] in s.next && s.order[i] in s.data
    && s.next[s.order[i]] == (if i + 1 < |s.order| && i + 1 !in s.pending then s.order[i + 1] else 0)
    && s.data[s.order[i]] == s.vals[i]
  }

  ghost predicate ChainOk(s: State)
    requires Counts(s)
  {
    forall i {:trigger NodeOk(s, i)} :: s.first <= i < |s.order| ==> NodeOk(s, i)
  }

  /** Every missing link has one producer about to make it. */
  ghost predicate PendingOk(s: State)
    requires Counts(s)
  {
    forall i :: i in s.pending ==>
      s.first < i < |s.order| && s.pending[i] in s.producers
      && s.producers[s.pending[i]] == PushLink(s.order[i], s.order[i - 1])
  }

  ghost predicate ConsumerOk(s: State)
    requires Counts(s)
  {
    match s.consumer
    case PopNext(h) => h == s.head
    case PopAdvance(h, next) =>
      h == s.head && s.first + 1 < |s.order| && s.first + 1 !in s.pending && next == s.order[s.first + 1]
    case PopRead(h, next) => h in s.place && s.place[h] == Taken && next == s.head
    case PopWrite(h, v) => h in s.place && s.place[h] == Taken && v == s.vals[s.first]
    case PeekNext(h) => h == s.head
    case PeekData(next) => s.first + 1 < |s.order| && next == s.order[s.first + 1]
    case DonePop(Some(n)) => s.popped != []
    case _ => true
  }

  ghost predicate Shared(s: State) {
    Counts(s) && Placed(s) && ChainOk(s) && PendingOk(s) && ConsumerOk(s)
  }

  ghost predicate ProducerOk(s: State, t: Tid)
    requires Counts(s) && t in s.producers
  {
    match s.producers[t]
    case PushTerminate(n) => n in s.place && s.place[n] == Held(t)
    case PushExchange(n) => n in s.place && s.place[n] == Held(t) && s.next[n] == 0
    case PushLink(n, prev) =>
      var at := Position(s, n);
      at in s.pending && s.pending[at] == t
      && s.first < at < |s.order| && n == s.order[at] && prev == s.order[at - 1]
    case _ => true
  }

  ghost predicate Inv(s: State) {
    Shared(s) && forall t :: t in s.producers ==> ProducerOk(s, t)
  }

  /** A change that moves no node into, out of or within the queue. */
  lemma PlacedFrame(s: State, s': State)
    requires Placed(s) && s'.order == s.order && s'.first == s.first && s'.place.Keys == s.place.Keys
    requires forall n {:trigger s'.place[n]} :: n in s.place ==>
               s'.place[n] == s.place[n] || (!s.place[n].Queued? && !s'.place[n].Queued?)
    ensures Placed(s')
  {
    forall i | s'.first <= i < |s'.order| ensures PlacedAt(s', i) {
      assert PlacedAt(s, i);
      assert Indexed(s, s.order[i]);
    }
    forall n | n in s'.place ensures Indexed(s', n) {
      assert Indexed(s, n);
    }
  }

  /** A change that leaves the fields of queued nodes alone. */
  lemma ChainFrame(s: State, s': State)
    requires Counts(s) && Placed(s) && ChainOk(s) && Counts(s') && s.first <= s'.first
    requires s'.order == s.order && s'.vals == s.vals && s'.pending == s.pending && s'.place.Keys == s.place.Keys
    requires forall n {:trigger s'.next[n]} {:trigger s'.data[n]} :: n in s.place && s.place[n].Queued? ==>
               s'.next[n] == s.next[n] && s'.data[n] == s.data[n]
    ensures ChainOk(s')
  {
    forall i | s'.first <= i < |s'.order| ensures NodeOk(s', i) {
      assert NodeOk(s, i) && PlacedAt(s, i);
    }
  }

  lemma OfferInv(s: State, t: Tid, n: Node)
    requires Inv(s) && ProducerReady(s, t) && Free(s, n)
    ensures Inv(Offer(s, t, n))
  {
    OfferShared(s, t, n);
    forall u | u in s.producers && u != t ensures ProducerOk(Offer(s, t, n), u) {
      assert ProducerOk(s, u);
    }
  }

  lemma OfferShared(s: State, t: Tid, n: Node)
    requires Shared(s) && ProducerReady(s, t) && Free(s, n)
    ensures Shared(Offer(s, t, n))
  {
    PlacedFrame(s, Offer(s, t, n));
    ChainFrame(s, Offer(s, t, n));
  }

  lemma TerminateShared(s: State, t: Tid, n: Node)
    requires Shared(s) && t in s.producers && s.producers[t] == PushTerminate(n) && ProducerOk(s, t)
    ensures Shared(Terminate(s, t, n))
  {
    PlacedFrame(s, Terminate(s, t, n));
    ChainFrame(s, Terminate(s, t, n));
  }

  lemma TerminateInv(s: State, t: Tid, n: Node)
    requires Inv(s) && t in s.producers && s.producers[t] == PushTerminate(n)
    ensures Inv(Terminate(s, t, n))
  {
    assert ProducerOk(s, t);
    TerminateShared(s, t, n);
    forall u | u in s.producers && u != t ensures ProducerOk(Terminate(s, t, n), u) {
      assert ProducerOk(s, u);
    }
  }

  lemma ExchangePlaced(s: State, t: Tid, n: Node)
    requires Counts(s) && Placed(s) && n in s.place && s.place[n] == Held(t)
    ensures Counts(Exchange(s, t, n)) && Placed(Exchange(s, t, n))
  {
    var s' := Exchange(s, t, n);
    assert s'.popped == s'.vals[1..|s.popped| + 1];
    forall i | s'.first <= i < |s'.order| ensures PlacedAt(s', i) {
      if i < |s.order| { assert PlacedAt(s, i); }
    }
    forall m | m in s'.place ensures Indexed(s', m) {
      assert Indexed(s, m);
    }
  }

  lemma ExchangeShared(s: State, t: Tid, n: Node)
    requires Shared(s) && t in s.producers && s.producers[t] == PushExchange(n) && ProducerOk(s, t)
    ensures Shared(Exchange(s, t, n))
  {
    ExchangePlaced(s, t, n);
    ExchangeChain(s, t, n);
  }

  lemma ExchangeChain(s: State, t: Tid, n: Node)
    requires Counts(s) && Placed(s) && ChainOk(s) && n in s.place && s.place[n] == Held(t) && s.next[n] == 0
    requires |s.order| !in s.pending
    requires Counts(Exchange(s, t, n)) && Placed(Exchange(s, t, n))
    ensures ChainOk(Exchange(s, t, n))
  {
    var s' := Exchange(s, t, n);
    forall i | s'.first <= i < |s'.order| ensures NodeOk(s', i) {
      if i < |s.order| { assert NodeOk(s, i); }
    }
  }

  lemma ExchangeInv(s: State, t: Tid, n: Node)
    requires Inv(s) && t in s.producers && s.producers[t] == PushExchange(n)
    ensures Inv(Exchange(s, t, n))
  {
    assert ProducerOk(s, t);
    ExchangeShared(s, t, n);
    forall u | u in s.producers && u != t ensures ProducerOk(Exchange(s, t, n), u) {
      assert ProducerOk(s, u);
    }
  }

  lemma LinkShared(s: State, t: Tid, n: Node, prev: Node)
    requires Shared(s) && t in s.producers && s.producers[t] == PushLink(n, prev) && ProducerOk(s, t)
    ensures Shared(Link(s, t, n, prev))
  {
    LinkChain(s, t, Position(s, n));
    LinkPending(s, t, n, prev);
  }

  lemma LinkPending(s: State, t: Tid, n: Node, prev: Node)
    requires Counts(s) && Placed(s) && PendingOk(s)
    requires t in s.producers && s.producers[t] == PushLink(n, prev) && ProducerOk(s, t)
    requires Counts(Link(s, t, n, prev))
    ensures PendingOk(Link(s, t, n, prev))
  {
    var s' := Link(s, t, n, prev);
    assert PlacedAt(s, Position(s, n));
    forall i | i in s'.pending ensures s'.producers[s'.pending[i]] == PushLink(s.order[i], s.order[i - 1]) {
      assert s.producers[s.pending[i]] == PushLink(s.order[i], s.order[i - 1]);
      assert PlacedAt(s, i);
    }
  }

  lemma LinkChain(s: State, t: Tid, at: nat)
    requires Counts(s) && Placed(s) && ChainOk(s) && s.first < at < |s.order| && at in s.pending
    ensures var s' := Link(s, t, s.order[at], s.order[at - 1]);
      Counts(s') && Placed(s') && ChainOk(s')
  {
    var s' := Link(s, t, s.order[at], s.order[at - 1]);
    assert PlacedAt(s, at - 1) && PlacedAt(s, at);
    PlacedFrame(s, s');
    forall i | s'.first <= i < |s'.order| ensures NodeOk(s', i) {
      assert NodeOk(s, i) && PlacedAt(s, i);
    }
  }

  lemma LinkInv(s: State, t: Tid, n: Node, prev: Node)
    requires Inv(s) && t in s.producers && s.producers[t] == PushLink(n, prev)
    ensures Inv(Link(s, t, n, prev))
  {
    assert ProducerOk(s, t);
    LinkShared(s, t, n, prev);
    var at, s' := Position(s, n), Link(s, t, n, prev);
    forall u | u in s.producers && u != t ensures ProducerOk(s', u) {
      assert ProducerOk(s, u);
      if s.producers[u].PushExchange? { assert PlacedAt(s, at - 1); }
    }
  }

  lemma ProducerInv(s: State, t: Tid)
    requires Inv(s) && t in s.producers
    ensures Inv(ProducerStep(s, t))
  {
    match s.producers[t]
    case PushTerminate(n) => TerminateInv(s, t, n);
    case PushExchange(n) => ExchangeInv(s, t, n);
    case PushLink(n, prev) => LinkInv(s, t, n, prev);
    case _ =>
  }

  lemma AdvanceShared(s: State, h: Node, next: Node)
    requires Shared(s) && s.consumer == PopAdvance(h, next)
    ensures Shared(Advance(s, h, next))
  {
    AdvancePlaced(s, next);
    ChainFrame(s, Advance(s, h, next));
  }

  lemma AdvancePlaced(s: State, next: Node)
    requires Counts(s) && Placed(s) && s.first + 1 < |s.order| && next == s.order[s.first + 1] && !Handing(s.consumer)
    ensures Counts(Advance(s, s.head, next)) && Placed(Advance(s, s.head, next))
  {
    var s' := Advance(s, s.head, next);
    assert PlacedAt(s, s.first);
    forall i | s'.first <= i < |s'.order| ensures PlacedAt(s', i) {
      assert PlacedAt(s, i);
    }
    forall m | m in s'.place ensures Indexed(s', m) {
      assert Indexed(s, m);
    }
  }

  lemma HandShared(s: State, h: Node, v: Item)
    requires Shared(s) && s.consumer == PopWrite(h, v)
    ensures Shared(Hand(s, h, v))
  {
    HandCounts(s, h, v);
    PlacedFrame(s, Hand(s, h, v));
    ChainFrame(s, Hand(s, h, v));
  }

  lemma HandCounts(s: State, h: Node, v: Item)
    requires Counts(s) && s.consumer == PopWrite(h, v) && h in s.place && v == s.vals[s.first]
    ensures Counts(Hand(s, h, v))
  {
    var s' := Hand(s, h, v);
    assert s'.popped == s'.vals[1..|s'.popped| + 1];
  }

  lemma LookShared(s: State, pc: ConsumerPc)
    requires Shared(s) && Handing(pc) == Handing(s.consumer)
    requires Counts(s.(consumer := pc)) ==> ConsumerOk(s.(consumer := pc))
    ensures Shared(s.(consumer := pc))
  {
    PlacedFrame(s, s.(consumer := pc));
    ChainFrame(s, s.(consumer := pc));
  }

  lemma ConsumerShared(s: State)
    requires Shared(s)
    ensures Shared(ConsumerStep(s))
  {
    assert NodeOk(s, s.first) && PlacedAt(s, s.first);
    if s.first + 1 < |s.order| { assert PlacedAt(s, s.first + 1); }
    match s.consumer
    case PopHead => LookShared(s, PopNext(s.head));
    case PopNext(h) => LookShared(s, if NextOf(s, h) == 0 then DonePop(None) else PopAdvance(h, NextOf(s, h)));
    case PopAdvance(h, next) => AdvanceShared(s, h, next);
    case PopRead(h, next) => LookShared(s, PopWrite(h, DataOf(s, next)));
    case PopWrite(h, v) => HandShared(s, h, v);
    case PeekHead => LookShared(s, PeekNext(s.head));
    case PeekNext(h) => LookShared(s, if NextOf(s, h) == 0 then DonePeek(None) else PeekData(NextOf(s, h)));
    case PeekData(next) => LookShared(s, DonePeek(Some(DataOf(s, next))));
    case _ =>
  }

  lemma ConsumerKeepsProducer(s: State, t: Tid)
    requires Counts(s) && Placed(s) && ConsumerOk(s) && Counts(ConsumerStep(s)) && t in s.producers && ProducerOk(s, t)
    ensures ProducerOk(ConsumerStep(s), t)
  {
    match s.consumer
    case PopAdvance(h, next) => AdvanceKeepsProducer(s, h, next, t);
    case PopWrite(h, v) => HandKeepsProducer(s, h, v, t);
    case _ =>
  }

  lemma AdvanceKeepsProducer(s: State, h: Node, next: Node, t: Tid)
    requires Counts(s) && Placed(s) && Counts(Advance(s, h, next)) && t in s.producers && ProducerOk(s, t)
    requires h == s.head && s.first + 1 !in s.pending
    ensures ProducerOk(Advance(s, h, next), t)
  {
    assert PlacedAt(s, s.first);
    if s.producers[t].PushLink? { assert PlacedAt(s, Position(s, s.producers[t].n)); }
  }

  lemma HandKeepsProducer(s: State, h: Node, v: Item, t: Tid)
    requires Counts(s) && Counts(Hand(s, h, v)) && t in s.producers && ProducerOk(s, t)
    requires h in s.place && s.place[h] == Taken
    ensures ProducerOk(Hand(s, h, v), t)
  {
  }

  lemma ConsumerInv(s: State)
    requires Inv(s)
    ensures Inv(ConsumerStep(s))
  {
    ConsumerShared(s);
    forall t | t in s.producers ensures ProducerOk(ConsumerStep(s), t) {
      ConsumerKeepsProducer(s, t);
    }
  }

  lemma CallInv(s: State, pc: ConsumerPc)
    requires Inv(s) && ConsumerReady(s) && (pc.PopHead? || pc.PeekHead?)
    ensures Inv(s.(consumer := pc))
  {
    LookShared(s, pc);
    forall t | t in s.producers ensures ProducerOk(s.(consumer := pc), t) {
      assert ProducerOk(s, t);
    }
  }

  lemma OverwriteInv(s: State, n: Node, next: Node, v: Item)
    requires Inv(s) && Free(s, n)
    ensures Inv(Overwrite(s, n, next, v))
  {
    var s' := Overwrite(s, n, next, v);
    OverwriteShared(s, n, next, v);
    forall t | t in s.producers ensures ProducerOk(s', t) {
      assert ProducerOk(s, t);
    }
  }

  lemma OverwriteShared(s: State, n: Node, next: Node, v: Item)
    requires Shared(s) && Free(s, n)
    ensures Shared(Overwrite(s, n, next, v))
  {
    PlacedFrame(s, Overwrite(s, n, next, v));
    ChainFrame(s, Overwrite(s, n, next, v));
  }

  lemma NextInv(s: State, a: Action)
    requires Inv(s)
    ensures Inv(Next(s, a))
  {
    match a
    case Push(t, n) => if ProducerReady(s, t) && Free(s, n) { OfferInv(s, t, n); }
    case Producer(t) => if t in s.producers { ProducerInv(s, t); }
    case Pop => if ConsumerReady(s) { CallInv(s, PopHead); }
    case Peek => if ConsumerReady(s) { CallInv(s, PeekHead); }
    case Consumer => ConsumerInv(s);
    case Scribble(n, next, v) => if Free(s, n) { OverwriteInv(s, n, next, v); }
  }

  lemma {:induction false} RunInv(s: State, sched: seq<Action>)
    requires Inv(s)
    ensures Inv(Run(s, sched))
    decreases |sched|
  {
    if sched == [] {
    } else {
      NextInv(s, sched[0]);
      RunInv(Next(s, sched[0]), sched[1..]);
    }
  }

  lemma InitInv(s: State)
    requires Init(s)
    ensures Inv(s)
  {
  }

  // ------------------------------------------------------------- main results

  /** The data behind the head, in exchange order, linked or not. */
  function Queue(s: State): seq<Item>
    requires s.first < |s.vals|
  {
    s.vals[s.first + 1..]
  }

  /** In every run, with any number of producers stopped between their exchange
      and their link and popped nodes reused at once, the data handed out is
      exactly the first part of the data pushed, in exchange order; the rest is
      queued, but for the one item the consumer may just be copying. */
  lemma RunIsFifo(s0: State, sched: seq<Action>)
    requires Init(s0)
    ensures var s := Run(s0, sched);
      && s.first < |s.vals| == |s.order|
      && s.vals[1..] == s.popped + (if Handing(s.consumer) then [s.vals[s.first]] else []) + Queue(s)
  {
    InitInv(s0);
    RunInv(s0, sched);
  }

  /** A push takes effect at its exchange, wherever the other pushes are. */
  lemma ProducerRefines(s: State, t: Tid)
    requires Inv(s) && t in s.producers
    ensures var s' := ProducerStep(s, t);
      && Inv(s') && s'.popped == s.popped && s'.consumer == s.consumer
      && (if s.producers[t].PushExchange?
          then s.producers[t].n in s.data && Queue(s') == Queue(s) + [s.data[s.producers[t].n]]
          else Queue(s') == Queue(s))
  {
    assert ProducerOk(s, t);
    ProducerInv(s, t);
    if s.producers[t].PushExchange? { DropAppend(s.vals, s.first + 1, s.data[s.producers[t].n]); }
  }

  /** The queue loses its first item at the step that moves head, and at no
      other step of the consumer. */
  lemma ConsumerRefines(s: State)
    requires Inv(s)
    ensures var s' := ConsumerStep(s);
      && Inv(s')
      && (if s.consumer.PopAdvance? then Queue(s) == [s'.vals[s'.first]] + Queue(s') && s'.consumer.PopRead?
          else Queue(s') == Queue(s))
  {
    ConsumerInv(s);
    if s.consumer.PopAdvance? { DropFirst(s.vals, s.first + 1); }
  }

  /** That item is the one handed out, in the node that was the head before. */
  lemma PopHandsOver(s: State)
    requires Inv(s) && s.consumer.PopWrite?
    ensures var PopWrite(h, v) := s.consumer;
      var s' := ConsumerStep(s);
      && v == s.vals[s.first] && s'.popped == s.popped + [v] && s'.consumer == DonePop(Some(h)) && s'.data[h] == v
  {
  }

  /** trypop fails exactly when nothing is queued or the first waiting push has
      not made its link yet; peek fails under the same condition. */
  lemma PopFailsForCause(s: State)
    requires Inv(s) && (s.consumer.PopNext? || s.consumer.PeekNext?)
    ensures (ConsumerStep(s).consumer == DonePop(None) || ConsumerStep(s).consumer == DonePeek(None))
            <==> Queue(s) == [] || s.first + 1 in s.pending
  {
    assert NodeOk(s, s.first) && PlacedAt(s, s.first);
    if s.first + 1 < |s.order| { assert PlacedAt(s, s.first + 1); }
  }

  /** peek answers with the first item of the queue. */
  lemma PeekSeesTheFirst(s: State)
    requires Inv(s) && s.consumer.PeekData?
    ensures Queue(s) != [] && ConsumerStep(s).consumer == DonePeek(Some(Queue(s)[0]))
  {
    assert NodeOk(s, s.first + 1);
  }

  /** Nobody is going to follow or write a link of `n`: it is not in the chain,
      and it is no producer's node or pending prev_tail. */
  ghost predicate Private(s: State, n: Node)
    requires s.first <= |s.order|
  {
    && n !in s.order[s.first..]
    && forall t :: t in s.producers ==>
         match s.producers[t]
         case PushTerminate(m) => m != n
         case PushExchange(m) => m != n
         case PushLink(m, prev) => m != n && prev != n
         case _ => true
  }

  lemma FreeNodeIsPrivate(s: State, n: Node)
    requires Inv(s) && Free(s, n)
    ensures Private(s, n)
  {
    forall t | t in s.producers && s.producers[t].PushLink?
      ensures s.producers[t].prev != n && s.producers[t].n != n
    {
      assert ProducerOk(s, t);
      var at := Position(s, s.producers[t].n);
      assert PlacedAt(s, at) && PlacedAt(s, at - 1);
    }
    forall t | t in s.producers && (s.producers[t].PushTerminate? || s.producers[t].PushExchange?)
      ensures s.producers[t].n != n
    {
      assert ProducerOk(s, t);
    }
    forall i | s.first <= i < |s.order| ensures s.order[i] != n {
      assert PlacedAt(s, i);
    }
  }

  /** Only its owner's push takes a node away from its owner. */
  lemma FreeUntilPushed(s: State, a: Action, n: Node)
    requires Inv(s) && Free(s, n) && !(a.Push? && a.n == n)
    ensures Free(Next(s, a), n)
  {
    FreeNodeIsPrivate(s, n);
    if a.Consumer? && s.consumer.PopAdvance? { assert PlacedAt(s, s.first); }
    if a.Producer? && a.t in s.producers { assert ProducerOk(s, a.t); }
  }

  lemma {:induction false} FreeThroughout(s: State, sched: seq<Action>, n: Node)
    requires Inv(s) && Free(s, n) && forall a :: a in sched ==> !(a.Push? && a.n == n)
    ensures Inv(Run(s, sched)) && Free(Run(s, sched), n)
    decreases |sched|
  {
    if sched == [] {
    } else {
      NextInv(s, sched[0]);
      FreeUntilPushed(s, sched[0], n);
      FreeThroughout(Next(s, sched[0]), sched[1..], n);
    }
  }

  /** The node a pop returns is nobody else's any more, and stays so in every run
      until its new owner pushes it again. */
  lemma HandedNodeIsPrivate(s: State, sched: seq<Action>)
    requires Inv(s) && s.consumer.PopWrite? && forall a :: a in sched ==> !(a.Push? && a.n == s.consumer.h)
    ensures var s' := Run(ConsumerStep(s), sched);
      Inv(s') && Free(s', s.consumer.h) && Private(s', s.consumer.h)
  {
    ConsumerInv(s);
    FreeThroughout(ConsumerStep(s), sched, s.consumer.h);
    FreeNodeIsPrivate(Run(ConsumerStep(s), sched), s.consumer.h);
  }

  // ------------------------------------------------------------ in-place form

  /** Callers push, and write, only nodes they own. */
  ghost predicate Allowed(s: State, a: Action) {
    match a
    case Push(t, n) => ProducerReady(s, t) ==> Free(s, n)
    case Scribble(n, next, v) => Free(s, n)
    case _ => true
  }

  ghost predicate Obeys(s: State, sched: seq<Action>)
    decreases |sched|
  {
    sched == [] || (Allowed(s, sched[0]) && Obeys(Next(s, sched[0]), sched[1..]))
  }

  class Fifo {
    var head: Node
    var tail: Node
    var next: map<Node, Node>
    var data: map<Node, Item>
    var producers: map<Tid, ProducerPc>
    var consumer: ConsumerPc
    ghost var place: map<Node, Place>
    ghost var order: seq<Node>
    ghost var vals: seq<Item>
    ghost var first: nat
    ghost var pending: map<nat, Tid>
    ghost var popped: seq<Item>

    ghost function View(): State
      reads this
    {
      State(head, tail, next, data, producers, consumer, place, order, vals, first, pending, popped)
    }

    /** `dummy` is the zeroed node init allocates; the rest is callers' memory. */
    constructor (dummy: Node, next: map<Node, Node>, data: map<Node, Item>, threads: set<Tid>)
      requires 0 !in next && next.Keys == data.Keys && dummy in next && next[dummy] == 0
      ensures Init(View()) && this.next == next && this.data == data && producers.Keys == threads
    {
      head, tail, this.next, this.data := dummy, dummy, next, data;
      producers := map t | t in threads :: Idle;
      consumer := Resting;
      place := map n | n in next :: if n == dummy then Queued(0) else Loose;
      order, vals, first, pending, popped := [dummy], [data[dummy]], 0, map[], [];
    }

    /** One memory access of producer `t`. */
    method ProducerAccess(t: Tid)
      requires t in producers
      modifies this
      ensures View() == ProducerStep(old(View()), t)
    {
      match producers[t]
      case PushTerminate(n) =>
        next := next[n := 0];
        producers := producers[t := PushExchange(n)];
      case PushExchange(n) => ExchangeTail(t, n);
      case PushLink(n, prev) => LinkPrev(t, n, prev);
      case _ =>
    }

    method ExchangeTail(t: Tid, n: Node)
      modifies this
      ensures View() == Exchange(old(View()), t, n)
    {
      producers := producers[t := PushLink(n, tail)];
      tail := n;
      place, pending := place[n := Queued(|order|)], pending[|order| := t];
      order, vals := order + [n], vals + [if n in data then data[n] else 0];
    }

    method LinkPrev(t: Tid, n: Node, prev: Node)
      modifies this
      ensures View() == Link(old(View()), t, n, prev)
    {
      pending := pending - {Position(View(), n)};
      next := next[prev := n];
      producers := producers[t := DonePush];
    }

    /** One memory access of the consumer. */
    method ConsumerAccess()
      modifies this
      ensures View() == ConsumerStep(old(View()))
    {
      match consumer
      case PopHead => consumer := PopNext(head);
      case PopNext(h) =>
        var n := if h in next then next[h] else 0;
        if n == 0 { consumer := DonePop(None); } else { consumer := PopAdvance(h, n); }
      case PopAdvance(h, n) => MoveHead(h, n);
      case PopRead(h, n) => consumer := PopWrite(h, if n in data then data[n] else 0);
      case PopWrite(h, v) => HandOver(h, v);
      case PeekHead => consumer := PeekNext(head);
      case PeekNext(h) =>
        var n := if h in next then next[h] else 0;
        if n == 0 { consumer := DonePeek(None); } else { consumer := PeekData(n); }
      case PeekData(n) => consumer := DonePeek(Some(if n in data then data[n] else 0));
      case _ =>
    }

    method MoveHead(h: Node, n: Node)
      modifies this
      ensures View() == Advance(old(View()), h, n)
    {
      head := n;
      place, first := place[h := Taken], first + 1;
      consumer := PopRead(h, n);
    }

    method HandOver(h: Node, v: Item)
      modifies this
      ensures View() == Hand(old(View()), h, v)
    {
      data := data[h := v];
      place, popped := place[h := Loose], popped + [v];
      consumer := DonePop(Some(h));
    }

    /** Starts a push of the caller's node. */
    method Give(t: Tid, n: Node)
      modifies this
      ensures View() == Offer(old(View()), t, n)
    {
      producers := producers[t := PushTerminate(n)];
      place := place[n := Held(t)];
    }

    /** What a caller does to the fields of a node it owns. */
    method Write(n: Node, nx: Node, v: Item)
      modifies this
      ensures View() == Overwrite(old(View()), n, nx, v)
    {
      next, data := next[n := nx], data[n := v];
    }

    method Perform(a: Action)
      requires Allowed(View(), a)
      modifies this
      ensures View() == Next(old(View()), a)
    {
      match a
      case Push(t, n) => if t in producers && (producers[t].Idle? || producers[t].DonePush?) { Give(t, n); }
      case Producer(t) => if t in producers { ProducerAccess(t); }
      case Pop => if consumer.Resting? || consumer.DonePop? || consumer.DonePeek? { consumer := PopHead; }
      case Peek => if consumer.Resting? || consumer.DonePop? || consumer.DonePeek? { consumer := PeekHead; }
      case Consumer => ConsumerAccess();
      case Scribble(n, nx, v) => Write(n, nx, v);
    }

    /** Any interleaving, performed in place. */
    method Interleave(sched: seq<Action>)
      requires Inv(View()) && Obeys(View(), sched)
      modifies this
      ensures View() == Run(old(View()), sched) && Inv(View())
    {
      for i := 0 to |sched|
        invariant Inv(View()) && Obeys(View(), sched[i..])
        invariant Run(old(View()), sched) == Run(View(), sched[i..])
      {
        NextInv(View(), sched[i]);
        assert sched[i..][1..] == sched[i + 1..];
        Perform(sched[i]);
      }
    }
  }
}
