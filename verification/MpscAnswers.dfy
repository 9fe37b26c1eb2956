/** What the multi-producer single-consumer FIFO answers its producers and its
    consumer, against what their steps did: in every run the consumer is handed
    exactly the data the moves of head took off the queue, peek answers with the
    first item, and both fail only for a cause at that moment. */
module MpscAnswers {
  import opened Common
  import opened Ledger
  import opened MpscFifo

  /** The consumer, and callers writing their nodes, are None. */
  type User = Option<Tid>

  function By(a: Action): User {
    match a
    case Push(t, _) => Some(t)
    case Producer(t) => Some(t)
    case _ => None
  }

  predicate StartsPush(s: State, a: Action) {
    a.Push? && ProducerReady(s, a.t) && Free(s, a.n)
  }

  /** From `s` to `s'` a producer's push, or the consumer's operation, has
      returned. */
  predicate PushEnds(s: State, s': State, t: Tid) {
    t in s.producers && t in s'.producers && !ProducerReady(s, t) && ProducerReady(s', t)
  }

  predicate ConsumerEnds(s: State, s': State) {
    !ConsumerReady(s) && ConsumerReady(s')
  }

  /** The data in the node the consumer has just been handed. */
  function Told(s: State, s': State): Option<Item> {
    if ConsumerEnds(s, s') && s'.consumer.DonePop? && s'.consumer.res.Some? && s'.consumer.res.value in s'.data
    then Some(s'.data[s'.consumer.res.value])
    else None
  }

  /** The item a move of head has just taken off the queue. */
  function Taken(s: State, s': State): Option<Item> {
    if s'.first == s.first + 1 && s'.first < |s'.vals| then Some(s'.vals[s'.first]) else None
  }

  function PushTold(s: State, s': State, who: User, asked: map<Tid, Item>): Option<Item> {
    if who.Some? && PushEnds(s, s', who.value) && who.value in asked then Some(asked[who.value]) else None
  }

  /** `asked` is the data in the node of each thread's last push, as its call
      began. */
  datatype Watch = Watch(asked: map<Tid, Item>, puts: Book<User, Item>, takes: Book<User, Item>)

  const BLANK: Watch := Watch(map[], Book([], []), Book([], []))

  function Asked(asked: map<Tid, Item>, s: State, a: Action): map<Tid, Item> {
    if StartsPush(s, a) && a.n in s.data then asked[a.t := s.data[a.n]] else asked
  }

  function Observe(w: Watch, s: State, a: Action): Watch {
    var s' := Next(s, a);
    Watch(Asked(w.asked, s, a),
          Enter(w.puts, By(a), Grown(s.vals, s'.vals), PushTold(s, s', By(a), w.asked)),
          Enter(w.takes, None, Taken(s, s'), Told(s, s')))
  }

  function Watched(w: Watch, s: State, sched: seq<Action>): Watch
    decreases |sched|
  {
    if sched == [] then w else Watched(Observe(w, s, sched[0]), Next(s, sched[0]), sched[1..])
  }

  /** What a push has put in and not yet returned from, and what the consumer has
      taken and not yet handed over. */
  function PutBy(s: State, who: User): Option<Item> {
    if who.Some? && who.value in s.producers && s.producers[who.value].PushLink?
       && s.producers[who.value].n in s.data
    then Some(s.data[s.producers[who.value].n])
    else None
  }

  function TakenBy(s: State): Option<Item> {
    if Handing(s.consumer) && s.first < |s.vals| then Some(s.vals[s.first]) else None
  }

  predicate Pushing(pc: ProducerPc) {
    pc.PushTerminate? || pc.PushExchange? || pc.PushLink?
  }

  /** The node being pushed still holds the data it was given with. */
  ghost predicate Carries(asked: map<Tid, Item>, s: State, who: User) {
    who.Some? && who.value in s.producers && Pushing(s.producers[who.value]) ==>
      && who.value in asked && s.producers[who.value].n in s.data
      && s.data[s.producers[who.value].n] == asked[who.value]
  }

  ghost predicate Honest(w: Watch, s: State, who: User) {
    && Square(w.puts, who, PutBy(s, who)) && Square(w.takes, None, TakenBy(s)) && Carries(w.asked, s, who)
  }

  lemma ProducerFlows(s: State, asked: map<Tid, Item>, t: Tid)
    requires Inv(s) && t in s.producers && Carries(asked, s, Some(t))
    ensures var s' := ProducerStep(s, t);
      && Flows(PutBy(s, Some(t)), Grown(s.vals, s'.vals), PushTold(s, s', Some(t), asked), PutBy(s', Some(t)))
      && Carries(asked, s', Some(t))
  {
    assert ProducerOk(s, t);
  }

  lemma ProducerLeavesConsumer(s: State, t: Tid)
    requires Counts(s) && t in s.producers
    ensures var s' := ProducerStep(s, t);
      && s'.consumer == s.consumer && s'.first == s.first && TakenBy(s') == TakenBy(s) && s'.data == s.data
  {
  }

  predicate Moving(pc: ConsumerPc) {
    pc.PopAdvance? || pc.PopWrite?
  }

  /** An access of trypop or peek that only reads. */
  ghost predicate Looks(s: State, s': State) {
    && s' == s.(consumer := s'.consumer) && Handing(s'.consumer) == Handing(s.consumer)
    && !(s'.consumer.DonePop? && s'.consumer.res.Some?)
  }

  lemma PopLooks(s: State)
    requires s.consumer.PopHead? || s.consumer.PopNext? || s.consumer.PopRead?
    ensures Looks(s, ConsumerStep(s))
  {
  }

  lemma PeekLooks(s: State)
    requires s.consumer.PeekHead? || s.consumer.PeekNext? || s.consumer.PeekData?
    ensures Looks(s, ConsumerStep(s))
  {
  }

  lemma LookFlows(s: State)
    requires Counts(s) && !Moving(s.consumer)
    ensures var s' := ConsumerStep(s);
      && s'.first == s.first && s'.data == s.data && Told(s, s') == None && TakenBy(s') == TakenBy(s)
      && s'.vals == s.vals && s'.producers == s.producers
  {
    if s.consumer.PopHead? || s.consumer.PopNext? || s.consumer.PopRead? {
      PopLooks(s);
    } else if s.consumer.PeekHead? || s.consumer.PeekNext? || s.consumer.PeekData? {
      PeekLooks(s);
    }
  }

  lemma MoveFlows(s: State)
    requires Counts(s) && Placed(s) && ConsumerOk(s) && Moving(s.consumer)
    ensures var s' := ConsumerStep(s);
      && Flows(TakenBy(s), Taken(s, s'), Told(s, s'), TakenBy(s'))
      && s'.vals == s.vals && s'.producers == s.producers
  {
  }

  /** The consumer writes to no node that is being pushed. */
  lemma ConsumerLeavesPush(s: State, asked: map<Tid, Item>, who: User)
    requires Inv(s) && Carries(asked, s, who)
    ensures Carries(asked, ConsumerStep(s), who) && PutBy(ConsumerStep(s), who) == PutBy(s, who)
  {
    if who.Some? && who.value in s.producers { assert ProducerOk(s, who.value); }
  }

  /** A call, or a write of a caller's, moves nothing and answers nothing. */
  ghost predicate Quiet(s: State, s': State, asked: map<Tid, Item>, asked': map<Tid, Item>, a: Action, who: User) {
    && s'.vals == s.vals && s'.first == s.first && TakenBy(s') == TakenBy(s) && Told(s, s') == None
    && PutBy(s', who) == PutBy(s, who) && Carries(asked', s', who) && PushTold(s, s', By(a), asked) == None
  }

  lemma PushCallFlows(s: State, asked: map<Tid, Item>, t: Tid, n: Node, who: User)
    requires Counts(s) && Carries(asked, s, who) && ProducerReady(s, t) && Free(s, n)
    ensures Quiet(s, Offer(s, t, n), asked, asked[t := s.data[n]], Push(t, n), who)
  {
  }

  lemma WriteFlows(s: State, asked: map<Tid, Item>, n: Node, next: Node, v: Item, who: User)
    requires Inv(s) && Carries(asked, s, who) && Free(s, n)
    ensures Quiet(s, Overwrite(s, n, next, v), asked, asked, Scribble(n, next, v), who)
  {
    FreeNodeIsPrivate(s, n);
  }

  lemma PopCallFlows(s: State, asked: map<Tid, Item>, a: Action, who: User)
    requires Carries(asked, s, who) && (a.Pop? || a.Peek?)
    ensures Quiet(s, Next(s, a), asked, asked, a, who)
  {
  }

  /** One action, in the consumer's book and in the book of producer `who`. */
  ghost predicate Flowing(s: State, s': State, asked: map<Tid, Item>, asked': map<Tid, Item>, a: Action, who: User) {
    && Flows(TakenBy(s), Taken(s, s'), Told(s, s'), TakenBy(s'))
    && Carries(asked', s', who)
    && (if By(a) == who
        then Flows(PutBy(s, who), Grown(s.vals, s'.vals), PushTold(s, s', who, asked), PutBy(s', who))
        else PutBy(s', who) == PutBy(s, who))
  }

  lemma ProducerFlowing(s: State, asked: map<Tid, Item>, t: Tid, who: User)
    requires Inv(s) && Carries(asked, s, who) && t in s.producers
    ensures Flowing(s, ProducerStep(s, t), asked, asked, Producer(t), who)
  {
    ProducerLeavesConsumer(s, t);
    if who == Some(t) { ProducerFlows(s, asked, t); } else { ProducerLeavesOthers(s, asked, t, who); }
  }

  lemma ProducerLeavesOthers(s: State, asked: map<Tid, Item>, t: Tid, who: User)
    requires t in s.producers && who != Some(t) && Carries(asked, s, who)
    ensures Carries(asked, ProducerStep(s, t), who) && PutBy(ProducerStep(s, t), who) == PutBy(s, who)
  {
  }

  lemma ConsumerFlowing(s: State, asked: map<Tid, Item>, who: User)
    requires Inv(s) && Carries(asked, s, who)
    ensures Flowing(s, ConsumerStep(s), asked, asked, Consumer, who)
  {
    if Moving(s.consumer) { MoveFlows(s); } else { LookFlows(s); }
    ConsumerLeavesPush(s, asked, who);
  }

  lemma CallIsQuiet(s: State, asked: map<Tid, Item>, a: Action, who: User)
    requires Inv(s) && Carries(asked, s, who) && !a.Producer? && !a.Consumer?
    ensures Quiet(s, Next(s, a), asked, Asked(asked, s, a), a, who)
  {
    match a
    case Push(t, n) => if ProducerReady(s, t) && Free(s, n) { PushCallFlows(s, asked, t, n, who); }
    case Scribble(n, next, v) => if Free(s, n) { WriteFlows(s, asked, n, next, v, who); }
    case _ => PopCallFlows(s, asked, a, who);
  }

  lemma QuietFlows(s: State, s': State, asked: map<Tid, Item>, asked': map<Tid, Item>, a: Action, who: User)
    requires Quiet(s, s', asked, asked', a, who)
    ensures Flowing(s, s', asked, asked', a, who)
  {
  }

  lemma NextFlows(s: State, asked: map<Tid, Item>, a: Action, who: User)
    requires Inv(s) && Carries(asked, s, who)
    ensures Flowing(s, Next(s, a), asked, Asked(asked, s, a), a, who)
  {
    match a
    case Producer(t) => if t in s.producers { ProducerFlowing(s, asked, t, who); }
    case Consumer => ConsumerFlowing(s, asked, who);
    case _ =>
      CallIsQuiet(s, asked, a, who);
      QuietFlows(s, Next(s, a), asked, Asked(asked, s, a), a, who);
  }

  lemma NextHonest(w: Watch, s: State, a: Action, who: User)
    requires Inv(s) && Honest(w, s, who)
    ensures Honest(Observe(w, s, a), Next(s, a), who)
  {
    var s' := Next(s, a);
    NextFlows(s, w.asked, a, who);
    EnterSquare(w.takes, None, Taken(s, s'), Told(s, s'), TakenBy(s), TakenBy(s'));
    if By(a) == who {
      EnterSquare(w.puts, who, Grown(s.vals, s'.vals), PushTold(s, s', who, w.asked), PutBy(s, who), PutBy(s', who));
    } else {
      EnterOther(w.puts, By(a), Grown(s.vals, s'.vals), PushTold(s, s', By(a), w.asked), who, PutBy(s, who));
    }
  }

  lemma {:induction false} RunHonest(w: Watch, s: State, sched: seq<Action>, who: User)
    requires Inv(s) && Honest(w, s, who)
    ensures Honest(Watched(w, s, sched), Run(s, sched), who)
    decreases |sched|
  {
    if sched == [] {
    } else {
      NextHonest(w, s, sched[0], who);
      NextInv(s, sched[0]);
      RunHonest(Observe(w, s, sched[0]), Next(s, sched[0]), sched[1..], who);
    }
  }

  /** The books hold the whole of both histories; `first` is the data of the node
      the queue began with. */
  ghost predicate Complete(w: Watch, s: State, first: Item) {
    && s.vals == [first] + Values(w.puts.done)
    && s.first < |s.vals| && Values(w.takes.done) == s.vals[1..s.first + 1]
  }

  /** The history of pushes grows by one entry at a time, and head moves by one
      node at a time. */
  ghost predicate Grows(s: State, s': State) {
    && s'.vals == s.vals + Items(Grown(s.vals, s'.vals))
    && s.first <= s'.first <= s.first + 1
  }

  lemma ProducerGrows(s: State, t: Tid)
    requires t in s.producers
    ensures Grows(s, ProducerStep(s, t))
  {
  }

  lemma ConsumerGrows(s: State)
    requires Counts(s)
    ensures Grows(s, ConsumerStep(s))
  {
    if Moving(s.consumer) {
    } else {
      LookFlows(s);
    }
  }

  lemma NextGrows(s: State, a: Action)
    requires Counts(s)
    ensures Grows(s, Next(s, a))
  {
    match a
    case Producer(t) => if t in s.producers { ProducerGrows(s, t); }
    case Consumer => ConsumerGrows(s);
    case _ =>
  }

  lemma PrefixGrows(vals: seq<Item>, vals': seq<Item>, first: nat, first': nat)
    requires first < |vals| && vals <= vals' && first <= first' <= first + 1 && first' < |vals'|
    ensures vals'[1..first' + 1] == vals[1..first + 1] + (if first' == first + 1 then [vals'[first']] else [])
  {
    if first' == first + 1 { SliceLast(vals', 1, first'); }
    assert vals'[1..first + 1] == vals[1..first + 1];
  }

  lemma BooksGrow(w: Watch, s: State, s': State, a: Action, first: Item)
    requires Complete(w, s, first) && Grows(s, s') && s'.first < |s'.vals|
    ensures s'.vals == [first] + Values(Add(w.puts.done, By(a), Grown(s.vals, s'.vals)))
    ensures Values(Add(w.takes.done, None, Taken(s, s'))) == s'.vals[1..s'.first + 1]
  {
    PrefixGrows(s.vals, s'.vals, s.first, s'.first);
    AddValues(w.puts.done, By(a), Grown(s.vals, s'.vals));
    AddValues(w.takes.done, None, Taken(s, s'));
    assert [first] + (Values(w.puts.done) + Items(Grown(s.vals, s'.vals))) == s'.vals;
  }

  lemma NextComplete(w: Watch, s: State, a: Action, first: Item)
    requires Counts(s) && Counts(Next(s, a)) && Complete(w, s, first)
    ensures Complete(Observe(w, s, a), Next(s, a), first)
  {
    NextGrows(s, a);
    BooksGrow(w, s, Next(s, a), a, first);
  }

  lemma {:induction false} RunComplete(w: Watch, s: State, sched: seq<Action>, first: Item)
    requires Inv(s) && Complete(w, s, first)
    ensures Complete(Watched(w, s, sched), Run(s, sched), first)
    decreases |sched|
  {
    if sched == [] {
    } else {
      NextInv(s, sched[0]);
      NextComplete(w, s, sched[0], first);
      RunComplete(Observe(w, s, sched[0]), Next(s, sched[0]), sched[1..], first);
    }
  }

  /** In every run the consumer has been handed, in nodes of its own, exactly the
      data the moves of head took off the queue, in order, but for one it is about
      to copy; and each producer's returned pushes are exactly the data its own
      exchanges put in, but for one it has still to link. */
  lemma RunAnswers(s0: State, sched: seq<Action>)
    requires Init(s0)
    ensures var s, w := Run(s0, sched), Watched(BLANK, s0, sched);
      && s.first < |s.vals| && Values(w.takes.done) == s.vals[1..s.first + 1]
      && Of(w.takes.done, None) == Of(w.takes.told, None) + Items(TakenBy(s))
      && Values(w.puts.done) == s.vals[1..]
      && (forall t :: Of(w.puts.done, Some(t)) == Of(w.puts.told, Some(t)) + Items(PutBy(s, Some(t))))
  {
    InitInv(s0);
    RunComplete(BLANK, s0, sched, s0.vals[0]);
    RunHonest(BLANK, s0, sched, None);
    forall t ensures Square(Watched(BLANK, s0, sched).puts, Some(t), PutBy(Run(s0, sched), Some(t))) {
      RunHonest(BLANK, s0, sched, Some(t));
    }
  }

  /** What trypop and peek answer with when they fail is true as they read the
      link: nothing is queued, or the next push has not made its link. What peek
      answers otherwise is the first item. */
  ghost predicate Justified(s: State, s': State)
    requires s.first < |s.vals|
  {
    ConsumerEnds(s, s') ==>
      match s'.consumer
      case DonePop(None) => Queue(s) == [] || s.first + 1 in s.pending
      case DonePeek(None) => Queue(s) == [] || s.first + 1 in s.pending
      case DonePeek(Some(x)) => Queue(s) != [] && x == Queue(s)[0]
      case _ => true
  }

  lemma StepIsJustified(s: State)
    requires Inv(s)
    ensures Justified(s, ConsumerStep(s))
  {
    if s.consumer.PopNext? || s.consumer.PeekNext? {
      PopFailsForCause(s);
    } else if s.consumer.PeekData? {
      PeekSeesTheFirst(s);
    } else if Moving(s.consumer) {
    } else {
      LookFlows(s);
    }
  }

  /** In every run trypop and peek fail, at the step at which they return, only on
      an empty queue or one whose next push has not made its link; and peek
      answers with the item that is then the first. */
  lemma RunAnswersForCause(s0: State, sched: seq<Action>, a: Action)
    requires Init(s0)
    ensures var s := Run(s0, sched);
      s.first < |s.vals| && Justified(s, Next(s, a))
  {
    InitInv(s0);
    RunInv(s0, sched);
    var s := Run(s0, sched);
    if a.Consumer? {
      StepIsJustified(s);
    } else {
      OnlyConsumerAnswers(s, a);
    }
  }

  lemma OnlyConsumerAnswers(s: State, a: Action)
    requires !a.Consumer?
    ensures !ConsumerEnds(s, Next(s, a))
  {
    if a.Producer? && a.t in s.producers { ProducerKeepsConsumer(s, a.t); }
  }

  lemma ProducerKeepsConsumer(s: State, t: Tid)
    requires t in s.producers
    ensures ProducerStep(s, t).consumer == s.consumer
  {
  }

  // Operations running without interference.

  function ConsumerSolo(s: State, n: nat): State
    decreases n
  {
    if n == 0 then s else ConsumerSolo(ConsumerStep(s), n - 1)
  }

  function ProducerSolo(s: State, t: Tid, n: nat): (r: State)
    requires t in s.producers
    ensures t in r.producers
    decreases n
  {
    if n == 0 then s else ProducerSolo(ProducerStep(s, t), t, n - 1)
  }

  /** There is an item the consumer can reach. */
  predicate Reachable(s: State) {
    s.first + 1 < |s.vals| && s.first + 1 !in s.pending
  }

  /** From `s` to `s'` a trypop has handed over the first item in the node that was
      the head, or failed because the consumer can reach none. */
  ghost predicate PopOutcome(s: State, s': State) {
    && Inv(s) && Inv(s')
    && (if Reachable(s)
        then && s'.consumer == DonePop(Some(s.head)) && Free(s', s.head) && s'.data[s.head] == Queue(s)[0]
             && Queue(s') == Queue(s)[1..]
        else s'.consumer == DonePop(None) && Queue(s') == Queue(s))
  }

  lemma PopAlone(s: State)
    requires Inv(s) && ConsumerReady(s)
    ensures PopOutcome(s, ConsumerSolo(Next(s, Pop), 5))
  {
    CallInv(s, PopHead);
    PopReadsHead(Next(s, Pop));
  }

  lemma PopReadsHead(s: State)
    requires Inv(s) && s.consumer.PopHead?
    ensures PopOutcome(s, ConsumerSolo(s, 5))
  {
    ConsumerRefines(s);
    PopReadsNext(ConsumerStep(s));
  }

  lemma PopReadsNext(s: State)
    requires Inv(s) && s.consumer == PopNext(s.head)
    ensures PopOutcome(s, ConsumerSolo(s, 4))
  {
    ConsumerRefines(s);
    PopFailsForCause(s);
    var s1 := ConsumerStep(s);
    if Reachable(s) {
      PopMoves(s1);
    } else {
      assert ConsumerSolo(s1, 3) == ConsumerSolo(s1, 2) == ConsumerSolo(s1, 1) == s1;
    }
  }

  lemma PopMoves(s: State)
    requires Inv(s) && s.consumer.PopAdvance?
    ensures PopOutcome(s, ConsumerSolo(s, 3)) && Reachable(s)
  {
    ConsumerRefines(s);
    PopCopies(ConsumerStep(s));
  }

  lemma PopCopies(s: State)
    requires Inv(s) && s.consumer.PopRead?
    ensures var s' := ConsumerSolo(s, 2);
      && Inv(s') && s'.consumer == DonePop(Some(s.consumer.h)) && Free(s', s.consumer.h)
      && s'.data[s.consumer.h] == s.vals[s.first] && Queue(s') == Queue(s)
  {
    ConsumerRefines(s);
    var s1 := ConsumerStep(s);
    ConsumerRefines(s1);
    PopHandsOver(s1);
    assert ConsumerSolo(s, 2) == ConsumerSolo(s1, 1) == ConsumerStep(s1);
  }

  /** Alone, peek answers with the first item if the consumer can reach it, and
      changes nothing. */
  lemma PeekAlone(s: State)
    requires Inv(s) && ConsumerReady(s)
    ensures var s' := ConsumerSolo(Next(s, Peek), 3);
      && Inv(s') && Queue(s') == Queue(s)
      && s'.consumer == DonePeek(if Reachable(s) then Some(Queue(s)[0]) else None)
  {
    CallInv(s, PeekHead);
    PeekReadsHead(Next(s, Peek));
  }

  lemma PeekReadsHead(s: State)
    requires Inv(s) && s.consumer.PeekHead?
    ensures var s' := ConsumerSolo(s, 3);
      && Inv(s') && Queue(s') == Queue(s)
      && s'.consumer == DonePeek(if Reachable(s) then Some(Queue(s)[0]) else None)
  {
    ConsumerRefines(s);
    PeekReadsNext(ConsumerStep(s));
  }

  lemma PeekReadsNext(s: State)
    requires Inv(s) && s.consumer == PeekNext(s.head)
    ensures var s' := ConsumerSolo(s, 2);
      && Inv(s') && Queue(s') == Queue(s)
      && s'.consumer == DonePeek(if Reachable(s) then Some(Queue(s)[0]) else None)
  {
    ConsumerRefines(s);
    PopFailsForCause(s);
    var s1 := ConsumerStep(s);
    if Reachable(s) {
      PeekSeesTheFirst(s1);
      ConsumerRefines(s1);
    }
    assert ConsumerSolo(s, 2) == ConsumerSolo(s1, 1) == ConsumerStep(s1);
  }

  /** Alone, a push appends its node's data and links it. */
  lemma PushAlone(s: State, t: Tid, n: Node)
    requires Inv(s) && ProducerReady(s, t) && Free(s, n)
    ensures var s' := ProducerSolo(Next(s, Push(t, n)), t, 3);
      && Inv(s') && s'.producers[t] == DonePush && s'.pending == s.pending
      && n in s.data && Queue(s') == Queue(s) + [s.data[n]]
  {
    OfferInv(s, t, n);
    var s1 := Next(s, Push(t, n));
    ProducerRefines(s1, t);
    PushExchanges(ProducerStep(s1, t), t);
  }

  lemma PushExchanges(s: State, t: Tid)
    requires Inv(s) && t in s.producers && s.producers[t].PushExchange?
    ensures var s', n := ProducerSolo(s, t, 2), s.producers[t].n;
      && Inv(s') && s'.producers[t] == DonePush && s'.pending == s.pending
      && n in s.data && Queue(s') == Queue(s) + [s.data[n]]
  {
    ProducerRefines(s, t);
    ExchangePends(s, t);
    var s1 := ProducerStep(s, t);
    ProducerRefines(s1, t);
    assert ProducerSolo(s, t, 2) == ProducerSolo(s1, t, 1) == ProducerStep(s1, t);
  }

  /** The link an exchange leaves pending is the one the next access makes. */
  lemma ExchangePends(s: State, t: Tid)
    requires Counts(s) && PendingOk(s) && t in s.producers && s.producers[t].PushExchange?
    ensures var s1 := ProducerStep(s, t);
      s1.producers[t].PushLink? && s1.pending - {Position(s1, s1.producers[t].n)} == s.pending
  {
    assert |s.order| !in s.pending;
  }

  // Returning.

  /** How many accesses of its own an operation can have to go. */
  function ProducerAhead(pc: ProducerPc): nat {
    match pc
    case PushTerminate(_) => 3
    case PushExchange(_) => 2
    case PushLink(_, _) => 1
    case _ => 0
  }

  function ConsumerAhead(pc: ConsumerPc): nat {
    match pc
    case PopHead => 5
    case PopNext(_) => 4
    case PopAdvance(_, _) => 3
    case PopRead(_, _) => 2
    case PopWrite(_, _) => 1
    case PeekHead => 3
    case PeekNext(_) => 2
    case PeekData(_) => 1
    case _ => 0
  }

  /** The consumer is None here, a producer Some of its name. */
  function Ahead(s: State, who: User): nat {
    match who
    case None => ConsumerAhead(s.consumer)
    case Some(t) => if t in s.producers then ProducerAhead(s.producers[t]) else 0
  }

  predicate Access(a: Action, who: User) {
    match a
    case Consumer => who == None
    case Producer(t) => who == Some(t)
    case _ => false
  }

  predicate Calls(a: Action, who: User) {
    match a
    case Push(t, _) => who == Some(t)
    case Pop => who == None
    case Peek => who == None
    case _ => false
  }

  predicate Popping(pc: ConsumerPc) {
    pc.PopHead? || pc.PopNext? || pc.PopAdvance? || pc.PopRead? || pc.PopWrite?
  }

  lemma PopNearsEnd(s: State)
    requires Popping(s.consumer)
    ensures ConsumerAhead(ConsumerStep(s).consumer) <= ConsumerAhead(s.consumer) - 1
  {
  }

  lemma PeekNearsEnd(s: State)
    requires !Popping(s.consumer)
    ensures ConsumerAhead(ConsumerStep(s).consumer) <=
            if ConsumerAhead(s.consumer) == 0 then 0 else ConsumerAhead(s.consumer) - 1
  {
  }

  lemma ProducerNearsEnd(s: State, t: Tid)
    requires t in s.producers
    ensures var n := ProducerAhead(s.producers[t]);
      ProducerAhead(ProducerStep(s, t).producers[t]) <= if n == 0 then 0 else n - 1
  {
  }

  lemma ProducerMovesItself(s: State, u: Tid, t: Tid)
    requires u in s.producers && t in s.producers && u != t
    ensures t in ProducerStep(s, u).producers && ProducerStep(s, u).producers[t] == s.producers[t]
  {
  }

  lemma NoNewProducers(s: State, a: Action)
    ensures Next(s, a).producers.Keys == s.producers.Keys
  {
    if a.Consumer? { ConsumerKeepsProducers(s); }
  }

  lemma ConsumerKeepsProducers(s: State)
    ensures ConsumerStep(s).producers == s.producers
  {
  }

  lemma OthersChangeNothing(s: State, a: Action, who: User)
    requires !Access(a, who) && !Calls(a, who)
    ensures Ahead(Next(s, a), who) == Ahead(s, who)
  {
    NoNewProducers(s, a);
    if a.Consumer? { ConsumerKeepsProducers(s); }
    if a.Producer? && a.t in s.producers {
      ProducerKeepsConsumer(s, a.t);
      if who.Some? && who.value in s.producers { ProducerMovesItself(s, a.t, who.value); }
    }
  }

  lemma StepNearsEnd(s: State, a: Action, who: User)
    requires !Calls(a, who)
    ensures Ahead(Next(s, a), who) <=
            if Access(a, who) && Ahead(s, who) > 0 then Ahead(s, who) - 1 else Ahead(s, who)
  {
    if !Access(a, who) {
      OthersChangeNothing(s, a, who);
    } else if who == None {
      if Popping(s.consumer) { PopNearsEnd(s); } else { PeekNearsEnd(s); }
    } else if who.value in s.producers {
      ProducerNearsEnd(s, who.value);
    }
  }

  /** The accesses of `who` in a schedule. */
  function Own(sched: seq<Action>, who: User): nat {
    if sched == [] then 0 else (if Access(sched[0], who) then 1 else 0) + Own(sched[1..], who)
  }

  /** No operation waits: whatever the others do or leave undone, a push has
      returned after at most three accesses of its own, a trypop after five and a
      peek after three. */
  lemma {:induction false} RunReturns(s: State, sched: seq<Action>, who: User)
    requires Own(sched, who) >= Ahead(s, who)
    requires forall a :: a in sched ==> !Calls(a, who)
    ensures Ahead(s, who) <= if who.Some? then 3 else 5
    ensures who == None ==> ConsumerReady(Run(s, sched))
    ensures who.Some? && who.value in Run(s, sched).producers ==> ProducerReady(Run(s, sched), who.value)
    decreases |sched|
  {
    if sched == [] {
    } else {
      StepNearsEnd(s, sched[0], who);
      RunReturns(Next(s, sched[0]), sched[1..], who);
    }
  }
}
