/** The distinguished FIFO: one producer, any number of consumers that swap a
    counter-tagged head, and popped nodes reused at once. */
module DistFifo {
  import opened Common

  /** A node's address; 0 is NULL. */
  type Node = nat

  datatype ProducerPc =
    | Idle
    | PushTail(n: Node)                                    // read fifo->tail
    | PushTerminate(n: Node, tail: Node)                   // new_node->next = NULL
    | PushLink(n: Node, tail: Node)                        // tail->next = new_node
    | PushAdvance(n: Node)                                 // fifo->tail = new_node
    | DonePush

  datatype Result = Empty | Retry | Got(n: Node)

  datatype ConsumerPc =
    | Resting
    | PopCounter                                           // read counter
    | PopHead(c: nat)                                      // read head
    | PopNext(c: nat, h: Node)                             // read head->next
    | PopData(c: nat, h: Node, next: Node)                 // read next->data
    | PopCas(c: nat, h: Node, next: Node, v: Item)         // double-word CAS
    | PopWrite(h: Node, v: Item)                           // prev_head->data = data
    | DonePop(res: Result)

  /** Who may write a node: it is in the queue, the producer is about to link it,
      a consumer has just unlinked it, or it belongs to some caller. */
  datatype Place = Queued(i: nat) | Held | Taken(t: Tid) | Loose

  /** `Scribble` is any write of a caller to a node it owns; `junk` is what a
      read through a stale pointer may find. */
  datatype Action =
    | Push(n: Node) | Producer | Pop(t: Tid) | Consumer(t: Tid, junk: Item)
    | Scribble(n: Node, next: Node, v: Item)

  /** `order` is every node ever at the head or linked behind it, `vals` their
      data, `popped` the data taken: history, like `place`. */
  datatype State = State(
    counter: nat, head: Node, tail: Node, next: map<Node, Node>, data: map<Node, Item>,
    producer: ProducerPc, consumers: map<Tid, ConsumerPc>,
    place: map<Node, Place>, order: seq<Node>, vals: seq<Item>, popped: seq<Item>)

  predicate Init(s: State) {
    && s.counter == 0 && s.head == s.tail && s.head in s.place && s.place[s.head] == Queued(0)
    && 0 !in s.place && s.next.Keys == s.data.Keys == s.place.Keys && s.next[s.head] == 0
    && (forall n :: n in s.place && n != s.head ==> s.place[n] == Loose)
    && (forall t :: t in s.consumers ==> s.consumers[t] == Resting)
    && s.producer == Idle && s.order == [s.head] && s.vals == [s.data[s.head]] && s.popped == []
  }

  /** tail->next = new_node: the push takes effect. */
  function Link(s: State, n: Node, tail: Node): State {
    s.(next := s.next[tail := n], producer := PushAdvance(n), place := s.place[n := Queued(|s.order|)],
       order := s.order + [n], vals := s.vals + [if n in s.data then s.data[n] else 0])
  }

  function ProducerStep(s: State): State {
    match s.producer
    case PushTail(n) => s.(producer := PushTerminate(n, s.tail))
    case PushTerminate(n, tail) => s.(next := s.next[n := 0], producer := PushLink(n, tail))
    case PushLink(n, tail) => Link(s, n, tail)
    case PushAdvance(n) => s.(tail := n, producer := DonePush)
    case _ => s
  }

  function Goto(s: State, t: Tid, pc: ConsumerPc): State {
    s.(consumers := s.consumers[t := pc])
  }

  /** The double-word CAS succeeds: the head moves on and its old node is t's. */
  function Unlink(s: State, t: Tid, h: Node, next: Node, v: Item): State {
    Goto(s, t, PopWrite(h, v)).(
      counter := s.counter + 1, head := next, place := s.place[h := Taken(t)], popped := s.popped + [v])
  }

  function Hand(s: State, t: Tid, h: Node, v: Item): State {
    Goto(s, t, DonePop(Got(h))).(data := s.data[h := v], place := s.place[h := Loose])
  }

  function ConsumerStep(s: State, t: Tid, junk: Item): State
    requires t in s.consumers
  {
    match s.consumers[t]
    case PopCounter => Goto(s, t, PopHead(s.counter))
    case PopHead(c) => Goto(s, t, PopNext(c, s.head))
    case PopNext(c, h) =>
      if h !in s.next then s
      else if s.next[h] == 0 then Goto(s, t, DonePop(Empty))
      else Goto(s, t, PopData(c, h, s.next[h]))
    case PopData(c, h, next) => Goto(s, t, PopCas(c, h, next, if next in s.data then s.data[next] else junk))
    case PopCas(c, h, next, v) =>
      if s.counter == c && s.head == h then Unlink(s, t, h, next, v) else Goto(s, t, DonePop(Retry))
    case PopWrite(h, v) => Hand(s, t, h, v)
    case _ => s
  }

  predicate Free(s: State, n: Node) {
    n in s.place && s.place[n].Loose?
  }

  predicate ProducerReady(pc: ProducerPc) {
    pc.Idle? || pc.DonePush?
  }

  predicate ConsumerReady(pc: ConsumerPc) {
    pc.Resting? || pc.DonePop?
  }

  function Next(s: State, a: Action): State {
    match a
    case Push(n) =>
      if ProducerReady(s.producer) && Free(s, n)
      then s.(producer := PushTail(n), place := s.place[n := Held])
      else s
    case Producer => ProducerStep(s)
    case Pop(t) =>
      if t in s.consumers && ConsumerReady(s.consumers[t]) then Goto(s, t, PopCounter) else s
    case Consumer(t, junk) => if t in s.consumers then ConsumerStep(s, t, junk) else s
    case Scribble(n, next, v) =>
      if Free(s, n) then s.(next := s.next[n := next], data := s.data[n := v]) else s
  }

  function Run(s: State, sched: seq<Action>): State
    decreases |sched|
  {
    if sched == [] then s else Run(Next(s, sched[0]), sched[1..])
  }

  // ---------------------------------------------------------------- invariant

  ghost predicate Counts(s: State) {
    && 0 !in s.place && s.next.Keys == s.data.Keys == s.place.Keys
    && s.counter < |s.order| == |s.vals|
    && s.head == s.order[s.counter]
    && s.popped == s.vals[1..s.counter + 1]
  }

  ghost predicate PlacedAt(s: State, i: nat)
    requires i < |s.order|
  {
    s.order[i] in s.place && s.place[s.order[i]] == Queued(i)
  }

  ghost predicate Indexed(s: State, n: Node)
    requires n in s.place
  {
    s.place[n].Queued? ==> s.counter <= s.place[n].i < |s.order| && s.order[s.place[n].i] == n
  }

  ghost predicate Placed(s: State) {
    && (forall i {:trigger PlacedAt(s, i)} :: s.counter <= i < |s.order| ==> PlacedAt(s, i))
    && (forall n {:trigger Indexed(s, n)} :: n in s.place ==> Indexed(s, n))
  }

  /** What the i-th node holds: its data, and a link to the next one if any. */
  ghost predicate NodeOk(s: State, i: nat)
    requires i < |s.order| == |s.vals|
  {
    && s.order[i] in s.next && s.order[i] in s.data
    && s.next[s.order[i]] == (if i + 1 < |s.order| then s.order[i + 1] else 0)
    && (i > s.counter ==> s.data[s.order[i]] == s.vals[i])
  }

  ghost predicate ChainOk(s: State)
    requires Counts(s)
  {
    forall i {:trigger NodeOk(s, i)} :: s.counter <= i < |s.order| ==> NodeOk(s, i)
  }

  ghost predicate ProducerOk(s: State)
    requires Counts(s)
  {
    var last := s.order[|s.order| - 1];
    match s.producer
    case PushTail(n) => n in s.place && s.place[n] == Held && s.tail == last
    case PushTerminate(n, tail) => n in s.place && s.place[n] == Held && s.tail == tail == last
    case PushLink(n, tail) => n in s.place && s.place[n] == Held && s.tail == tail == last && s.next[n] == 0
    case PushAdvance(n) => n == last
    case _ => s.tail == last
  }

  ghost predicate Shared(s: State) {
    Counts(s) && Placed(s) && ChainOk(s) && ProducerOk(s)
  }

  ghost predicate ConsumerOk(s: State, t: Tid)
    requires Counts(s) && t in s.consumers
  {
    match s.consumers[t]
    case PopHead(c) => c <= s.counter
    case PopNext(c, h) => c <= s.counter && h in s.place && (c == s.counter ==> h == s.head)
    case PopData(c, h, next) =>
      c <= s.counter && h in s.place
      && (c == s.counter ==> h == s.head && c + 1 < |s.order| && next == s.order[c + 1])
    case PopCas(c, h, next, v) =>
      c <= s.counter && h in s.place
      && (c == s.counter ==> h == s.head && c + 1 < |s.order| && next == s.order[c + 1] && v == s.vals[c + 1])
    case PopWrite(h, v) => h in s.place && s.place[h] == Taken(t)
    case _ => true
  }

  ghost predicate Inv(s: State) {
    Shared(s) && forall t :: t in s.consumers ==> ConsumerOk(s, t)
  }

  /** A change that moves no node into, out of or within the queue. */
  lemma PlacedFrame(s: State, s': State)
    requires Placed(s) && s'.order == s.order && s'.counter == s.counter && s'.place.Keys == s.place.Keys
    requires forall n {:trigger s'.place[n]} :: n in s.place ==>
               s'.place[n] == s.place[n] || (!s.place[n].Queued? && !s'.place[n].Queued?)
    ensures Placed(s')
  {
    forall i | s'.counter <= i < |s'.order| ensures PlacedAt(s', i) {
      assert PlacedAt(s, i);
      assert Indexed(s, s.order[i]);
    }
    forall n | n in s'.place ensures Indexed(s', n) {
      assert Indexed(s, n);
    }
  }

  /** A change that leaves the fields of queued nodes alone. */
  lemma ChainFrame(s: State, s': State)
    requires Counts(s) && Placed(s) && ChainOk(s) && Counts(s') && s.counter <= s'.counter
    requires s'.order == s.order && s'.vals == s.vals && s'.place.Keys == s.place.Keys
    requires forall n {:trigger s'.next[n]} {:trigger s'.data[n]} :: n in s.place && s.place[n].Queued? ==>
               s'.next[n] == s.next[n] && s'.data[n] == s.data[n]
    ensures ChainOk(s')
  {
    forall i | s'.counter <= i < |s'.order| ensures NodeOk(s', i) {
      assert NodeOk(s, i) && PlacedAt(s, i);
    }
  }

  lemma LinkPlaced(s: State, n: Node, tail: Node)
    requires Counts(s) && Placed(s) && n in s.place && s.place[n] == Held && tail in s.place
    ensures Counts(Link(s, n, tail)) && Placed(Link(s, n, tail))
  {
    var s' := Link(s, n, tail);
    assert s'.popped == s'.vals[1..s.counter + 1];
    forall i | s'.counter <= i < |s'.order| ensures PlacedAt(s', i) {
      if i < |s.order| { assert PlacedAt(s, i); }
    }
    forall m | m in s'.place ensures Indexed(s', m) {
      assert Indexed(s, m);
    }
  }

  lemma LinkShared(s: State, n: Node, tail: Node)
    requires Shared(s) && s.producer == PushLink(n, tail)
    ensures Shared(Link(s, n, tail))
  {
    var s' := Link(s, n, tail);
    var last := |s.order| - 1;
    assert tail == s.order[last] && PlacedAt(s, last);
    LinkPlaced(s, n, tail);
    forall i | s'.counter <= i < |s'.order| ensures NodeOk(s', i) {
      if i < |s.order| {
        assert NodeOk(s, i);
        assert PlacedAt(s, i);
      }
    }
  }

  lemma ProducerShared(s: State)
    requires Shared(s)
    ensures Shared(ProducerStep(s))
  {
    match s.producer
    case PushLink(n, tail) => LinkShared(s, n, tail);
    case _ =>
      PlacedFrame(s, ProducerStep(s));
      ChainFrame(s, ProducerStep(s));
  }

  lemma ProducerKeepsConsumer(s: State, t: Tid)
    requires Shared(s) && Shared(ProducerStep(s)) && t in s.consumers && ConsumerOk(s, t)
    ensures ConsumerOk(ProducerStep(s), t)
  {
    if s.producer.PushLink? {
      LinkKeepsConsumer(s, s.producer.n, s.producer.tail, t);
    }
  }

  lemma LinkKeepsConsumer(s: State, n: Node, tail: Node, t: Tid)
    requires Counts(s) && Counts(Link(s, n, tail)) && t in s.consumers && ConsumerOk(s, t)
    requires n in s.place && s.place[n] == Held
    ensures ConsumerOk(Link(s, n, tail), t)
  {
  }

  lemma UnlinkShared(s: State, t: Tid, h: Node)
    requires Shared(s) && h == s.head && s.counter + 1 < |s.order|
    ensures Shared(Unlink(s, t, h, s.order[s.counter + 1], s.vals[s.counter + 1]))
  {
    var s' := Unlink(s, t, h, s.order[s.counter + 1], s.vals[s.counter + 1]);
    assert PlacedAt(s, s.counter);
    UnlinkPlaced(s, t, h);
    ChainFrame(s, s');
  }

  lemma UnlinkPlaced(s: State, t: Tid, h: Node)
    requires Counts(s) && Placed(s) && h == s.head && s.counter + 1 < |s.order|
    ensures var s' := Unlink(s, t, h, s.order[s.counter + 1], s.vals[s.counter + 1]);
      Counts(s') && Placed(s')
  {
    var s' := Unlink(s, t, h, s.order[s.counter + 1], s.vals[s.counter + 1]);
    assert s'.popped == s'.vals[1..s'.counter + 1];
    assert PlacedAt(s, s.counter);
    forall i | s'.counter <= i < |s'.order| ensures PlacedAt(s', i) {
      assert PlacedAt(s, i);
    }
    forall m | m in s'.place ensures Indexed(s', m) {
      assert Indexed(s, m);
    }
  }

  lemma UnlinkOther(s: State, t: Tid, h: Node, next: Node, v: Item, u: Tid)
    requires Counts(s) && Placed(s) && Counts(Unlink(s, t, h, next, v)) && h == s.head
    requires u in s.consumers && u != t && ConsumerOk(s, u)
    ensures ConsumerOk(Unlink(s, t, h, next, v), u)
  {
    assert PlacedAt(s, s.counter);
  }

  lemma HandShared(s: State, t: Tid, h: Node, v: Item)
    requires Shared(s) && h in s.place && s.place[h] == Taken(t)
    ensures Shared(Hand(s, t, h, v))
  {
    PlacedFrame(s, Hand(s, t, h, v));
    ChainFrame(s, Hand(s, t, h, v));
  }

  lemma HandOther(s: State, t: Tid, h: Node, v: Item, u: Tid)
    requires Counts(s) && Counts(Hand(s, t, h, v)) && h in s.place && s.place[h] == Taken(t)
    requires u in s.consumers && u != t && ConsumerOk(s, u)
    ensures ConsumerOk(Hand(s, t, h, v), u)
  {
  }

  lemma GotoInv(s: State, t: Tid, pc: ConsumerPc)
    requires Inv(s) && t in s.consumers && !s.consumers[t].PopWrite?
    requires Counts(Goto(s, t, pc)) ==> ConsumerOk(Goto(s, t, pc), t)
    ensures Inv(Goto(s, t, pc))
  {
    PlacedFrame(s, Goto(s, t, pc));
    ChainFrame(s, Goto(s, t, pc));
    forall u | u in s.consumers && u != t ensures ConsumerOk(Goto(s, t, pc), u) {
      assert ConsumerOk(s, u);
    }
  }

  lemma ReadNextInv(s: State, t: Tid)
    requires Inv(s) && t in s.consumers && s.consumers[t].PopNext?
    ensures Inv(ConsumerStep(s, t, 0))
  {
    var PopNext(c, h) := s.consumers[t];
    assert ConsumerOk(s, t) && NodeOk(s, s.counter);
    GotoInv(s, t, if s.next[h] == 0 then DonePop(Empty) else PopData(c, h, s.next[h]));
  }

  lemma ReadDataInv(s: State, t: Tid, junk: Item)
    requires Inv(s) && t in s.consumers && s.consumers[t].PopData?
    ensures Inv(ConsumerStep(s, t, junk))
  {
    var PopData(c, h, next) := s.consumers[t];
    assert ConsumerOk(s, t);
    if c == s.counter { assert NodeOk(s, c + 1); }
    GotoInv(s, t, PopCas(c, h, next, if next in s.data then s.data[next] else junk));
  }

  lemma UnlinkInv(s: State, t: Tid)
    requires Inv(s) && t in s.consumers && s.consumers[t].PopCas? && s.consumers[t].c == s.counter
    ensures Inv(ConsumerStep(s, t, 0))
  {
    var PopCas(c, h, next, v) := s.consumers[t];
    assert ConsumerOk(s, t);
    UnlinkShared(s, t, h);
    forall u | u in s.consumers && u != t ensures ConsumerOk(Unlink(s, t, h, next, v), u) {
      UnlinkOther(s, t, h, next, v, u);
    }
  }

  lemma HandInv(s: State, t: Tid)
    requires Inv(s) && t in s.consumers && s.consumers[t].PopWrite?
    ensures Inv(ConsumerStep(s, t, 0))
  {
    var PopWrite(h, v) := s.consumers[t];
    assert ConsumerOk(s, t);
    HandShared(s, t, h, v);
    forall u | u in s.consumers && u != t ensures ConsumerOk(Hand(s, t, h, v), u) {
      HandOther(s, t, h, v, u);
    }
  }

  lemma ConsumerInv(s: State, t: Tid, junk: Item)
    requires Inv(s) && t in s.consumers
    ensures Inv(ConsumerStep(s, t, junk))
  {
    assert ConsumerOk(s, t) && PlacedAt(s, s.counter);
    match s.consumers[t]
    case PopCounter => GotoInv(s, t, PopHead(s.counter));
    case PopHead(c) => GotoInv(s, t, PopNext(c, s.head));
    case PopNext(c, h) => ReadNextInv(s, t);
    case PopData(c, h, next) => ReadDataInv(s, t, junk);
    case PopCas(c, h, next, v) =>
      if s.counter == c { UnlinkInv(s, t); } else { GotoInv(s, t, DonePop(Retry)); }
    case PopWrite(h, v) => HandInv(s, t);
    case _ =>
  }

  lemma ProducerInv(s: State)
    requires Inv(s)
    ensures Inv(ProducerStep(s))
  {
    ProducerShared(s);
    forall t | t in s.consumers ensures ConsumerOk(ProducerStep(s), t) {
      ProducerKeepsConsumer(s, t);
    }
  }

  lemma OfferInv(s: State, n: Node)
    requires Inv(s) && Free(s, n)
    ensures Inv(Next(s, Push(n)))
  {
    OfferShared(s, n);
    forall t | t in s.consumers ensures ConsumerOk(Next(s, Push(n)), t) {
      OfferKeepsConsumer(s, n, t);
    }
  }

  lemma OfferShared(s: State, n: Node)
    requires Shared(s) && Free(s, n)
    ensures Shared(Next(s, Push(n)))
  {
    OfferPlaced(s, n);
    ChainFrame(s, Next(s, Push(n)));
  }

  lemma OfferPlaced(s: State, n: Node)
    requires Counts(s) && Placed(s) && Free(s, n)
    ensures Counts(Next(s, Push(n))) && Placed(Next(s, Push(n)))
  {
    PlacedFrame(s, Next(s, Push(n)));
  }

  lemma OfferKeepsConsumer(s: State, n: Node, t: Tid)
    requires Counts(s) && Counts(Next(s, Push(n))) && Free(s, n) && t in s.consumers && ConsumerOk(s, t)
    ensures ConsumerOk(Next(s, Push(n)), t)
  {
  }

  lemma ScribbleShared(s: State, n: Node, next: Node, v: Item)
    requires Shared(s) && Free(s, n)
    ensures Shared(Next(s, Scribble(n, next, v)))
  {
    PlacedFrame(s, Next(s, Scribble(n, next, v)));
    ChainFrame(s, Next(s, Scribble(n, next, v)));
  }

  lemma ScribbleInv(s: State, n: Node, next: Node, v: Item)
    requires Inv(s) && Free(s, n)
    ensures Inv(Next(s, Scribble(n, next, v)))
  {
    ScribbleShared(s, n, next, v);
    forall t | t in s.consumers ensures ConsumerOk(Next(s, Scribble(n, next, v)), t) {
      assert ConsumerOk(s, t);
    }
  }

  lemma NextInv(s: State, a: Action)
    requires Inv(s)
    ensures Inv(Next(s, a))
  {
    match a
    case Producer => ProducerInv(s);
    case Pop(t) =>
      if t in s.consumers && (s.consumers[t].Resting? || s.consumers[t].DonePop?) { GotoInv(s, t, PopCounter); }
    case Consumer(t, junk) => if t in s.consumers { ConsumerInv(s, t, junk); }
    case Push(n) => if Free(s, n) { OfferInv(s, n); }
    case Scribble(n, next, v) => if Free(s, n) { ScribbleInv(s, n, next, v); }
  }

  lemma {:induction false} RunInv(s: State, sched: seq<Action>)
    requires Inv(s)
    ensures Inv(Run(s, sched))
    decreases |sched|
  {
    if sched == [] {
    } else {
      NextInv(s, sched[0]);
      RunInv(Next(s, sched[0]), sched[1..]);
    }
  }

  lemma InitInv(s: State)
    requires Init(s)
    ensures Inv(s)
  {
  }

  // ------------------------------------------------------------- main results

  /** The data linked behind the head and not yet taken. */
  function Queue(s: State): seq<Item>
    requires s.counter < |s.vals|
  {
    s.vals[s.counter + 1..]
  }

  /** In every run, with popped nodes reused and overwritten at any time, the
      data taken by all consumers is, in the order of their CASes, exactly the
      first part of the data pushed, and the rest is queued. */
  lemma RunIsFifo(s0: State, sched: seq<Action>)
    requires Init(s0)
    ensures var s := Run(s0, sched);
      && s.counter < |s.vals| && |s.popped| == s.counter
      && s.vals[1..] == s.popped + Queue(s)
  {
    InitInv(s0);
    RunInv(s0, sched);
  }

  /** The push takes effect at the link, which appends the node's data; no other
      step of the producer changes the queue. */
  lemma ProducerRefines(s: State)
    requires Inv(s)
    ensures var s' := ProducerStep(s);
      && Inv(s') && s'.popped == s.popped
      && (if s.producer.PushLink? then s.producer.n in s.data && Queue(s') == Queue(s) + [s.data[s.producer.n]]
          else Queue(s') == Queue(s))
  {
    ProducerInv(s);
    if s.producer.PushLink? { DropAppend(s.vals, s.counter + 1, s.data[s.producer.n]); }
  }

  /** A CAS succeeds exactly when the head has not changed since the thread read
      the counter, whatever has become of the nodes it looked at meanwhile; it
      then takes the first item of the queue. A Retry means that another pop has
      completed in between. */
  lemma PopCasRefines(s: State, t: Tid)
    requires Inv(s) && t in s.consumers && s.consumers[t].PopCas?
    ensures var PopCas(c, h, next, v) := s.consumers[t];
      var s' := ConsumerStep(s, t, 0);
      && Inv(s')
      && (if s.counter == c
          then Queue(s) == [v] + Queue(s') && s'.popped == s.popped + [v] && s'.consumers[t] == PopWrite(h, v)
          else s.counter > c && Queue(s') == Queue(s) && s'.consumers[t] == DonePop(Retry))
  {
    assert ConsumerOk(s, t);
    ConsumerInv(s, t, 0);
    if s.counter == s.consumers[t].c { DropFirst(s.vals, s.counter + 1); }
  }

  /** What a successful pop hands back is a node of its own that carries the
      data it took; the queue is as before. */
  lemma PopHandsOver(s: State, t: Tid)
    requires Inv(s) && t in s.consumers && s.consumers[t].PopWrite?
    ensures var PopWrite(h, v) := s.consumers[t];
      var s' := ConsumerStep(s, t, 0);
      && Inv(s') && Queue(s') == Queue(s) && s'.popped == s.popped
      && s'.consumers[t] == DonePop(Got(h)) && Free(s', h) && s'.data[h] == v
  {
    assert ConsumerOk(s, t);
    ConsumerInv(s, t, 0);
  }

  /** Empty is exact as long as the node looked at is the head, in particular as
      long as no pop has completed since the counter was read. So a wrong Empty
      always comes from a node that is the head no more. */
  lemma EmptyIsExact(s: State, t: Tid)
    requires Inv(s) && t in s.consumers && s.consumers[t].PopNext?
    ensures var PopNext(c, h) := s.consumers[t];
      var empty := ConsumerStep(s, t, 0).consumers[t] == DonePop(Empty);
      && (c == s.counter ==> h == s.head)
      && (h == s.head ==> (empty <==> Queue(s) == []))
      && (empty && Queue(s) != [] ==> h != s.head && c < s.counter)
  {
    assert ConsumerOk(s, t) && NodeOk(s, s.counter);
    if s.counter + 1 < |s.order| { assert PlacedAt(s, s.counter + 1); }
  }

  /** Otherwise it may be wrong: once the node a consumer looks at has gone back
      to a caller, that caller's next write decides the answer, whatever the
      queue holds. */
  lemma StaleEmptyIsArbitrary(s: State, t: Tid, v: Item)
    requires Inv(s) && t in s.consumers && s.consumers[t].PopNext? && Free(s, s.consumers[t].h)
    ensures s.consumers[t].c < s.counter
    ensures var s1 := Next(s, Scribble(s.consumers[t].h, 0, v));
      Queue(s1) == Queue(s) && ConsumerStep(s1, t, 0).consumers[t] == DonePop(Empty)
  {
    assert ConsumerOk(s, t);
    assert PlacedAt(s, s.counter);
  }

  // One consumer running without interference.

  function Solo(s: State, t: Tid, n: nat): (r: State)
    requires t in s.consumers
    ensures t in r.consumers
    decreases n
  {
    if n == 0 then s else Solo(ConsumerStep(s, t, 0), t, n - 1)
  }

  /** A pop by `t` on queue `q` with head node `h` ended in `s'`: it took the
      first item, or answered Empty on an empty queue. */
  ghost predicate PopOutcome(q: seq<Item>, h: Node, t: Tid, s': State) {
    && Inv(s') && t in s'.consumers
    && (if q == [] then s'.consumers[t] == DonePop(Empty) && Queue(s') == []
        else s'.consumers[t] == DonePop(Got(h)) && Free(s', h) && s'.data[h] == q[0] && Queue(s') == q[1..])
  }

  lemma PopAlone(s: State, t: Tid)
    requires Inv(s) && t in s.consumers && ConsumerReady(s.consumers[t])
    ensures PopOutcome(Queue(s), s.head, t, Solo(Next(s, Pop(t)), t, 6))
  {
    NextInv(s, Pop(t));
    PopReadsCounter(Next(s, Pop(t)), t, 6);
  }

  lemma PopReadsCounter(s: State, t: Tid, n: nat)
    requires Inv(s) && t in s.consumers && s.consumers[t] == PopCounter && n >= 6
    ensures PopOutcome(Queue(s), s.head, t, Solo(s, t, n))
  {
    ConsumerInv(s, t, 0);
    PopReadsHead(ConsumerStep(s, t, 0), t, n - 1);
  }

  lemma PopReadsHead(s: State, t: Tid, n: nat)
    requires Inv(s) && t in s.consumers && s.consumers[t] == PopHead(s.counter) && n >= 5
    ensures PopOutcome(Queue(s), s.head, t, Solo(s, t, n))
  {
    ConsumerInv(s, t, 0);
    PopReadsNext(ConsumerStep(s, t, 0), t, n - 1);
  }

  lemma PopReadsNext(s: State, t: Tid, n: nat)
    requires Inv(s) && t in s.consumers && s.consumers[t] == PopNext(s.counter, s.head) && n >= 4
    ensures PopOutcome(Queue(s), s.head, t, Solo(s, t, n))
  {
    EmptyIsExact(s, t);
    ConsumerInv(s, t, 0);
    if Queue(s) == [] {
      SoloDone(ConsumerStep(s, t, 0), t, n - 1);
    } else {
      assert ConsumerOk(s, t);
      PopReadsData(ConsumerStep(s, t, 0), t, n - 1);
    }
  }

  lemma PopReadsData(s: State, t: Tid, n: nat)
    requires Inv(s) && t in s.consumers && s.consumers[t].PopData? && s.consumers[t].c == s.counter && n >= 3
    ensures PopOutcome(Queue(s), s.head, t, Solo(s, t, n)) && Queue(s) != []
  {
    ConsumerInv(s, t, 0);
    assert ConsumerOk(s, t);
    PopSwaps(ConsumerStep(s, t, 0), t, n - 1);
  }

  lemma PopSwaps(s: State, t: Tid, n: nat)
    requires Inv(s) && t in s.consumers && s.consumers[t].PopCas? && s.consumers[t].c == s.counter && n >= 2
    ensures PopOutcome(Queue(s), s.head, t, Solo(s, t, n))
  {
    assert ConsumerOk(s, t);
    PopCasRefines(s, t);
    var s1 := ConsumerStep(s, t, 0);
    PopHandsOver(s1, t);
    var s2 := ConsumerStep(s1, t, 0);
    SoloDone(s2, t, n - 2);
    assert Solo(s, t, n) == Solo(s1, t, n - 1) == Solo(s2, t, n - 2);
  }

  lemma {:induction false} SoloDone(s: State, t: Tid, n: nat)
    requires t in s.consumers && s.consumers[t].DonePop?
    ensures Solo(s, t, n) == s
    decreases n
  {
    if n == 0 {
    } else {
      SoloDone(s, t, n - 1);
    }
  }

  lemma {:induction false} SoloOthersRest(s: State, t: Tid, n: nat, u: Tid)
    requires t in s.consumers && u in s.consumers && u != t
    ensures u in Solo(s, t, n).consumers && Solo(s, t, n).consumers[u] == s.consumers[u]
    decreases n
  {
    if n == 0 {
    } else {
      SoloOthersRest(ConsumerStep(s, t, 0), t, n - 1, u);
    }
  }

  lemma RunStep(s: State, a: Action, rest: seq<Action>)
    ensures Run(s, [a] + rest) == Run(Next(s, a), rest)
  {
    assert ([a] + rest)[1..] == rest;
  }

  lemma {:induction false} RunSplit(s: State, a: seq<Action>, b: seq<Action>)
    ensures Run(s, a + b) == Run(Run(s, a), b)
    decreases |a|
  {
    if a == [] {
      assert a + b == b;
    } else {
      assert (a + b)[1..] == a[1..] + b;
      RunSplit(Next(s, a[0]), a[1..], b);
    }
  }

  function Repeat(a: Action, n: nat): seq<Action> {
    if n == 0 then [] else [a] + Repeat(a, n - 1)
  }

  lemma {:induction false} SoloIsRun(s: State, t: Tid, n: nat)
    requires t in s.consumers
    ensures Solo(s, t, n) == Run(s, Repeat(Consumer(t, 0), n))
    decreases n
  {
    if n == 0 {
    } else {
      RunStep(s, Consumer(t, 0), Repeat(Consumer(t, 0), n - 1));
      SoloIsRun(ConsumerStep(s, t, 0), t, n - 1);
    }
  }

  /** `t` looks at the head; `u` pops it; its new owner overwrites it; `t` reads
      its link. */
  function Spurious(t: Tid, u: Tid, head: Node): seq<Action> {
    Repeat(Consumer(t, 0), 2) + (Repeat(Consumer(u, 0), 6) + ([Scribble(head, 0, 0)] + ([Consumer(t, 0)] + [])))
  }

  lemma PopLooksAtHead(s: State, t: Tid)
    requires Inv(s) && t in s.consumers && s.consumers[t] == PopCounter
    ensures var s1 := Solo(s, t, 2);
      Inv(s1) && Queue(s1) == Queue(s) && s1.head == s.head && s1.consumers[t] == PopNext(s.counter, s.head)
  {
    var r := ConsumerStep(s, t, 0);
    ConsumerInv(s, t, 0);
    ConsumerInv(r, t, 0);
    assert Solo(s, t, 2) == Solo(r, t, 1) == ConsumerStep(r, t, 0);
  }

  /** So Empty is no promise: whenever two items are queued and two consumers
      start a pop, `t` can be made to answer Empty by a single pop of `u` and one
      write to the node `u` was handed, although all but the first item are
      queued all along. */
  lemma SpuriousEmpty(s: State, t: Tid, u: Tid)
    requires Inv(s) && t in s.consumers && u in s.consumers && t != u
    requires s.consumers[t] == PopCounter && s.consumers[u] == PopCounter && |Queue(s)| >= 2
    ensures var s' := Run(s, Spurious(t, u, s.head));
      && Inv(s') && Queue(s') == Queue(s)[1..]
      && t in s'.consumers && s'.consumers[t] == DonePop(Empty)
  {
    PopLooksAtHead(s, t);
    SoloOthersRest(s, t, 2, u);
    SoloIsRun(s, t, 2);
    RunSplit(s, Repeat(Consumer(t, 0), 2),
             Repeat(Consumer(u, 0), 6) + ([Scribble(s.head, 0, 0)] + ([Consumer(t, 0)] + [])));
    SpuriousAfterLook(Solo(s, t, 2), t, u);
  }

  lemma SpuriousAfterLook(s: State, t: Tid, u: Tid)
    requires Inv(s) && t in s.consumers && u in s.consumers && t != u && |Queue(s)| >= 2
    requires s.consumers[t].PopNext? && s.consumers[t].h == s.head && s.consumers[u] == PopCounter
    ensures var s' := Run(s, Repeat(Consumer(u, 0), 6) + ([Scribble(s.head, 0, 0)] + ([Consumer(t, 0)] + [])));
      && Inv(s') && Queue(s') == Queue(s)[1..]
      && t in s'.consumers && s'.consumers[t] == DonePop(Empty)
  {
    PopReadsCounter(s, u, 6);
    SoloOthersRest(s, u, 6, t);
    SoloIsRun(s, u, 6);
    RunSplit(s, Repeat(Consumer(u, 0), 6), [Scribble(s.head, 0, 0)] + ([Consumer(t, 0)] + []));
    SpuriousAfterPop(Solo(s, u, 6), t);
  }

  lemma SpuriousAfterPop(s: State, t: Tid)
    requires Inv(s) && t in s.consumers && s.consumers[t].PopNext? && Free(s, s.consumers[t].h)
    ensures var s' := Run(s, [Scribble(s.consumers[t].h, 0, 0)] + ([Consumer(t, 0)] + []));
      && Inv(s') && Queue(s') == Queue(s)
      && t in s'.consumers && s'.consumers[t] == DonePop(Empty)
  {
    var a := Scribble(s.consumers[t].h, 0, 0);
    StaleEmptyIsArbitrary(s, t, 0);
    NextInv(s, a);
    var s1 := Next(s, a);
    NextInv(s1, Consumer(t, 0));
    RunStep(s, a, [Consumer(t, 0)] + []);
    RunStep(s1, Consumer(t, 0), []);
  }

  // The producer running without interference, and such a run from the start.

  function PushRun(n: Node): seq<Action> {
    [Push(n)] + Repeat(Producer, 4)
  }

  /** From `s` to `s'` the producer has pushed `n`, and nothing else. */
  ghost predicate PushOutcome(s: State, s': State, n: Node)
    requires s.counter < |s.vals|
  {
    && Inv(s') && s'.producer == DonePush && s'.consumers == s.consumers && s'.head == s.head
    && n in s.data && Queue(s') == Queue(s) + [s.data[n]]
    && forall m :: m != n && Free(s, m) ==> Free(s', m)
  }

  lemma PushAlone(s: State, n: Node)
    requires Inv(s) && ProducerReady(s.producer) && Free(s, n)
    ensures PushOutcome(s, Run(s, PushRun(n)), n)
  {
    OfferInv(s, n);
    RunStep(s, Push(n), Repeat(Producer, 4));
    PushReadsTail(Next(s, Push(n)), n);
  }

  lemma PushReadsTail(s: State, n: Node)
    requires Inv(s) && s.producer == PushTail(n)
    ensures PushOutcome(s, Run(s, Repeat(Producer, 4)), n)
  {
    ProducerRefines(s);
    RunStep(s, Producer, Repeat(Producer, 3));
    PushTerminates(ProducerStep(s), n);
  }

  lemma PushTerminates(s: State, n: Node)
    requires Inv(s) && s.producer.PushTerminate? && s.producer.n == n
    ensures PushOutcome(s, Run(s, Repeat(Producer, 3)), n)
  {
    ProducerRefines(s);
    RunStep(s, Producer, Repeat(Producer, 2));
    PushLinks(ProducerStep(s), n);
  }

  lemma PushLinks(s: State, n: Node)
    requires Inv(s) && s.producer.PushLink? && s.producer.n == n
    ensures PushOutcome(s, Run(s, Repeat(Producer, 2)), n)
  {
    ProducerRefines(s);
    var s1 := ProducerStep(s);
    ProducerRefines(s1);
    RunStep(s, Producer, Repeat(Producer, 1));
    RunStep(s1, Producer, []);
  }

  /** From the initial state: push two nodes, start two pops, interleave them as
      above, and one of them answers Empty although the second item is queued. */
  lemma SpuriousEmptyFromStart(s: State, m: Node, n: Node, t: Tid, u: Tid)
    requires Init(s) && Free(s, m) && Free(s, n) && m != n
    requires t in s.consumers && u in s.consumers && t != u
    ensures var s' := Run(s, (PushRun(m) + PushRun(n)) + ([Pop(t)] + ([Pop(u)] + Spurious(t, u, s.head))));
      && Inv(s') && n in s.data && Queue(s') == [s.data[n]]
      && t in s'.consumers && s'.consumers[t] == DonePop(Empty)
  {
    InitInv(s);
    TwoPushes(s, m, n);
    var s1 := Run(s, PushRun(m) + PushRun(n));
    RunSplit(s, PushRun(m) + PushRun(n), [Pop(t)] + ([Pop(u)] + Spurious(t, u, s.head)));
    SpuriousWhenResting(s1, t, u);
  }

  lemma SpuriousWhenResting(s: State, t: Tid, u: Tid)
    requires Inv(s) && t in s.consumers && u in s.consumers && t != u && |Queue(s)| >= 2
    requires s.consumers[t].Resting? && s.consumers[u].Resting?
    ensures var s' := Run(s, [Pop(t)] + ([Pop(u)] + Spurious(t, u, s.head)));
      && Inv(s') && Queue(s') == Queue(s)[1..]
      && t in s'.consumers && s'.consumers[t] == DonePop(Empty)
  {
    StartPop(s, t);
    RunStep(s, Pop(t), [Pop(u)] + Spurious(t, u, s.head));
    var s1 := Next(s, Pop(t));
    StartPop(s1, u);
    RunStep(s1, Pop(u), Spurious(t, u, s.head));
    SpuriousEmpty(Next(s1, Pop(u)), t, u);
  }

  lemma StartPop(s: State, t: Tid)
    requires Inv(s) && t in s.consumers && s.consumers[t].Resting?
    ensures var s' := Next(s, Pop(t));
      Inv(s') && s'.consumers == s.consumers[t := PopCounter] && Queue(s') == Queue(s) && s'.head == s.head
  {
    NextInv(s, Pop(t));
  }

  lemma TwoPushes(s: State, m: Node, n: Node)
    requires Inv(s) && ProducerReady(s.producer) && Free(s, m) && Free(s, n) && m != n
    ensures var s' := Run(s, PushRun(m) + PushRun(n));
      && Inv(s') && s'.consumers == s.consumers && s'.head == s.head
      && m in s.data && n in s.data && Queue(s') == Queue(s) + [s.data[m], s.data[n]]
  {
    PushAlone(s, m);
    var s1 := Run(s, PushRun(m));
    PushAlone(s1, n);
    RunSplit(s, PushRun(m), PushRun(n));
    PushKeepsData(s, m, 4);
  }

  lemma {:induction false} PushKeepsData(s: State, n: Node, k: nat)
    ensures Run(s, [Push(n)] + Repeat(Producer, k)).data == s.data
  {
    RunStep(s, Push(n), Repeat(Producer, k));
    ProducerKeepsData(Next(s, Push(n)), k);
  }

  lemma {:induction false} ProducerKeepsData(s: State, k: nat)
    ensures Run(s, Repeat(Producer, k)).data == s.data
    decreases k
  {
    if k == 0 {
    } else {
      RunStep(s, Producer, Repeat(Producer, k - 1));
      ProducerKeepsData(ProducerStep(s), k - 1);
    }
  }

  // ------------------------------------------------------------ in-place form

  /** Callers push, and write, only nodes they own. */
  ghost predicate Allowed(s: State, a: Action) {
    match a
    case Push(n) => ProducerReady(s.producer) ==> Free(s, n)
    case Scribble(n, next, v) => Free(s, n)
    case _ => true
  }

  ghost predicate Obeys(s: State, sched: seq<Action>)
    decreases |sched|
  {
    sched == [] || (Allowed(s, sched[0]) && Obeys(Next(s, sched[0]), sched[1..]))
  }

  class Fifo {
    var counter: nat
    var head: Node
    var tail: Node
    var next: map<Node, Node>
    var data: map<Node, Item>
    var producer: ProducerPc
    var consumers: map<Tid, ConsumerPc>
    ghost var place: map<Node, Place>
    ghost var order: seq<Node>
    ghost var vals: seq<Item>
    ghost var popped: seq<Item>

    ghost function View(): State
      reads this
    {
      State(counter, head, tail, next, data, producer, consumers, place, order, vals, popped)
    }

    /** `dummy` is the zeroed node init allocates; the rest is callers' memory. */
    constructor (dummy: Node, next: map<Node, Node>, data: map<Node, Item>, threads: set<Tid>)
      requires 0 !in next && next.Keys == data.Keys && dummy in next && next[dummy] == 0
      ensures Init(View()) && this.next == next && this.data == data && consumers.Keys == threads
    {
      counter, head, tail, this.next, this.data := 0, dummy, dummy, next, data;
      producer := Idle;
      consumers := map t | t in threads :: Resting;
      place := map n | n in next :: if n == dummy then Queued(0) else Loose;
      order, vals, popped := [dummy], [data[dummy]], [];
    }

    /** One memory access of the producer. */
    method ProducerAccess()
      modifies this
      ensures View() == ProducerStep(old(View()))
    {
      match producer
      case PushTail(n) => producer := PushTerminate(n, tail);
      case PushTerminate(n, tl) =>
        next := next[n := 0];
        producer := PushLink(n, tl);
      case PushLink(n, tl) =>
        next := next[tl := n];
        place, order, vals := place[n := Queued(|order|)], order + [n], vals + [if n in data then data[n] else 0];
        producer := PushAdvance(n);
      case PushAdvance(n) =>
        tail := n;
        producer := DonePush;
      case _ =>
    }

    /** One memory access of consumer `t`. */
    method ConsumerAccess(t: Tid, junk: Item)
      requires t in consumers
      modifies this
      ensures View() == ConsumerStep(old(View()), t, junk)
    {
      match consumers[t]
      case PopCounter => consumers := consumers[t := PopHead(counter)];
      case PopHead(c) => consumers := consumers[t := PopNext(c, head)];
      case PopNext(c, h) =>
        if h in next {
          if next[h] == 0 {
            consumers := consumers[t := DonePop(Empty)];
          } else {
            consumers := consumers[t := PopData(c, h, next[h])];
          }
        }
      case PopData(c, h, nx) => consumers := consumers[t := PopCas(c, h, nx, if nx in data then data[nx] else junk)];
      case PopCas(c, h, nx, v) =>
        if counter == c && head == h {
          counter, head := counter + 1, nx;
          place, popped := place[h := Taken(t)], popped + [v];
          consumers := consumers[t := PopWrite(h, v)];
        } else {
          consumers := consumers[t := DonePop(Retry)];
        }
      case PopWrite(h, v) =>
        data := data[h := v];
        place := place[h := Loose];
        consumers := consumers[t := DonePop(Got(h))];
      case _ =>
    }

    method Perform(a: Action)
      requires Allowed(View(), a)
      modifies this
      ensures View() == Next(old(View()), a)
    {
      match a
      case Push(n) =>
        if ProducerReady(producer) {
          place := place[n := Held];
          producer := PushTail(n);
        }
      case Producer => ProducerAccess();
      case Pop(t) => if t in consumers && ConsumerReady(consumers[t]) { consumers := consumers[t := PopCounter]; }
      case Consumer(t, junk) => if t in consumers { ConsumerAccess(t, junk); }
      case Scribble(n, nx, v) => next, data := next[n := nx], data[n := v];
    }

    /** Any interleaving, performed in place. */
    method Interleave(sched: seq<Action>)
      requires Inv(View()) && Obeys(View(), sched)
      modifies this
      ensures View() == Run(old(View()), sched) && Inv(View())
    {
      for i := 0 to |sched|
        invariant Inv(View()) && Obeys(View(), sched[i..])
        invariant Run(old(View()), sched) == Run(View(), sched[i..])
      {
        NextInv(View(), sched[i]);
        assert sched[i..][1..] == sched[i + 1..];
        Perform(sched[i]);
      }
    }
  }
}
