/** What the distinguished FIFO answers its producer and consumers, against what
    their steps did: in every run each consumer is handed exactly the data its own
    CASes took, and fails only for a cause it met during the call. */
module DistAnswers {
  import opened Common
  import opened DistFifo
  import opened Ledger

  /** The producer, and callers writing their nodes, are None. */
  type User = Option<Tid>

  function By(a: Action): User {
    match a
    case Pop(t) => Some(t)
    case Consumer(t, _) => Some(t)
    case _ => None
  }

  predicate Starts(s: State, a: Action, t: Tid) {
    a == Pop(t) && t in s.consumers && ConsumerReady(s.consumers[t])
  }

  predicate StartsPush(s: State, a: Action) {
    a.Push? && ProducerReady(s.producer) && Free(s, a.n)
  }

  /** From `s` to `s'` the producer's operation, or a consumer's, has returned. */
  predicate ProducerEnds(s: State, s': State) {
    !ProducerReady(s.producer) && ProducerReady(s'.producer)
  }

  predicate Ends(s: State, s': State, t: Tid) {
    t in s.consumers && t in s'.consumers && !ConsumerReady(s.consumers[t]) && ConsumerReady(s'.consumers[t])
  }

  /** The data in the node a consumer has just been handed. */
  function Told(s: State, s': State, who: User): Option<Item> {
    if who.Some? && Ends(s, s', who.value) && s'.consumers[who.value].DonePop? && s'.consumers[who.value].res.Got?
       && s'.consumers[who.value].res.n in s'.data
    then Some(s'.data[s'.consumers[who.value].res.n])
    else None
  }

  function PushTold(s: State, s': State, v: Item): Option<Item> {
    if ProducerEnds(s, s') then Some(v) else None
  }

  /** `asked` is the data in the node of the last push, as its call began. */
  datatype Watch = Watch(asked: Item, puts: Book<User, Item>, takes: Book<User, Item>)

  const BLANK: Watch := Watch(0, Book([], []), Book([], []))

  function Asked(asked: Item, s: State, a: Action): Item {
    if StartsPush(s, a) && a.n in s.data then s.data[a.n] else asked
  }

  function Observe(w: Watch, s: State, a: Action): Watch {
    var s' := Next(s, a);
    Watch(Asked(w.asked, s, a),
          Enter(w.puts, None, Grown(s.vals, s'.vals), PushTold(s, s', w.asked)),
          Enter(w.takes, By(a), Grown(s.popped, s'.popped), Told(s, s', By(a))))
  }

  function Watched(w: Watch, s: State, sched: seq<Action>): Watch
    decreases |sched|
  {
    if sched == [] then w else Watched(Observe(w, s, sched[0]), Next(s, sched[0]), sched[1..])
  }

  /** What has been linked and its push not yet returned, and what a consumer has
      taken and not yet handed over. */
  function PutBy(s: State): Option<Item> {
    if s.producer.PushAdvance? && s.vals != [] then Some(s.vals[|s.vals| - 1]) else None
  }

  function TakenBy(s: State, who: User): Option<Item> {
    if who.Some? && who.value in s.consumers && s.consumers[who.value].PopWrite?
    then Some(s.consumers[who.value].v) else None
  }

  predicate Offering(pc: ProducerPc) {
    pc.PushTail? || pc.PushTerminate? || pc.PushLink?
  }

  /** The node being pushed still holds the data it was given with. */
  ghost predicate Carries(asked: Item, s: State) {
    && (Offering(s.producer) ==> s.producer.n in s.data && s.data[s.producer.n] == asked)
    && (s.producer.PushAdvance? ==> PutBy(s) == Some(asked))
  }

  ghost predicate Honest(w: Watch, s: State, who: User) {
    && Square(w.puts, None, PutBy(s)) && Square(w.takes, who, TakenBy(s, who)) && Carries(w.asked, s)
  }

  lemma ProducerFlows(s: State, asked: Item)
    requires Inv(s) && Carries(asked, s)
    ensures var s' := ProducerStep(s);
      && Flows(PutBy(s), Grown(s.vals, s'.vals), PushTold(s, s', asked), PutBy(s'))
      && s'.popped == s.popped && Carries(asked, s') && s'.consumers == s.consumers
  {
  }

  lemma ConsumerFlows(s: State, asked: Item, t: Tid, junk: Item)
    requires Inv(s) && t in s.consumers && Carries(asked, s)
    ensures var s' := ConsumerStep(s, t, junk);
      && Flows(TakenBy(s, Some(t)), Grown(s.popped, s'.popped), Told(s, s', Some(t)), TakenBy(s', Some(t)))
      && s'.vals == s.vals && s'.producer == s.producer && Carries(asked, s')
  {
    assert ConsumerOk(s, t);
  }

  lemma CallFlows(s: State, asked: Item, a: Action)
    requires Inv(s) && Carries(asked, s) && (a.Push? || a.Pop? || a.Scribble?)
    ensures var s' := Next(s, a);
      && s'.popped == s.popped && s'.vals == s.vals && PutBy(s') == PutBy(s) && !ProducerEnds(s, s')
      && Carries(Asked(asked, s, a), s') && Told(s, s', By(a)) == None && TakenBy(s', By(a)) == TakenBy(s, By(a))
  {
  }

  /** One action, in the books of whoever acts. */
  lemma ActFlows(s: State, asked: Item, a: Action)
    requires Inv(s) && Carries(asked, s)
    ensures var s' := Next(s, a);
      && Flows(PutBy(s), Grown(s.vals, s'.vals), PushTold(s, s', asked), PutBy(s'))
      && Flows(TakenBy(s, By(a)), Grown(s.popped, s'.popped), Told(s, s', By(a)), TakenBy(s', By(a)))
      && Carries(Asked(asked, s, a), s')
  {
    match a
    case Producer => ProducerFlows(s, asked);
    case Consumer(t, junk) => if t in s.consumers { ConsumerFlows(s, asked, t, junk); }
    case _ => CallFlows(s, asked, a);
  }

  predicate Looking(pc: ConsumerPc) {
    pc.PopCounter? || pc.PopHead? || pc.PopNext? || pc.PopData?
  }

  lemma LookMovesItself(s: State, u: Tid, junk: Item)
    requires u in s.consumers && Looking(s.consumers[u])
    ensures exists pc :: ConsumerStep(s, u, junk) == Goto(s, u, pc) || ConsumerStep(s, u, junk) == s
  {
    var pc := ConsumerStep(s, u, junk).consumers[u];
    assert ConsumerStep(s, u, junk) == Goto(s, u, pc) || ConsumerStep(s, u, junk) == s;
  }

  lemma TakeLeavesOthers(s: State, u: Tid, junk: Item, t: Tid)
    requires u in s.consumers && t in s.consumers && u != t && !Looking(s.consumers[u])
    ensures t in ConsumerStep(s, u, junk).consumers && ConsumerStep(s, u, junk).consumers[t] == s.consumers[t]
  {
  }

  lemma OthersStay(s: State, a: Action, t: Tid)
    requires t in s.consumers && By(a) != Some(t)
    ensures t in Next(s, a).consumers && Next(s, a).consumers[t] == s.consumers[t]
  {
    match a
    case Consumer(u, junk) =>
      if u in s.consumers {
        if Looking(s.consumers[u]) { LookMovesItself(s, u, junk); } else { TakeLeavesOthers(s, u, junk, t); }
      }
    case Pop(u) =>
    case _ => ProducerLeavesOthers(s);
  }

  lemma ProducerLeavesOthers(s: State)
    ensures ProducerStep(s).consumers == s.consumers && ProducerStep(s).popped == s.popped
  {
  }

  /** A consumer's hand is touched only by its own actions. */
  lemma OthersTakeNothing(s: State, a: Action, who: User)
    requires By(a) != who
    ensures TakenBy(Next(s, a), who) == TakenBy(s, who)
  {
    if who.Some? && who.value in s.consumers { OthersStay(s, a, who.value); }
  }

  lemma NextHonest(w: Watch, s: State, a: Action, who: User)
    requires Inv(s) && Honest(w, s, who)
    ensures Honest(Observe(w, s, a), Next(s, a), who)
  {
    var s' := Next(s, a);
    ActFlows(s, w.asked, a);
    EnterSquare(w.puts, None, Grown(s.vals, s'.vals), PushTold(s, s', w.asked), PutBy(s), PutBy(s'));
    if By(a) == who {
      EnterSquare(w.takes, who, Grown(s.popped, s'.popped), Told(s, s', who), TakenBy(s, who), TakenBy(s', who));
    } else {
      OthersTakeNothing(s, a, who);
      EnterOther(w.takes, By(a), Grown(s.popped, s'.popped), Told(s, s', By(a)), who, TakenBy(s, who));
    }
  }

  lemma {:induction false} RunHonest(w: Watch, s: State, sched: seq<Action>, who: User)
    requires Inv(s) && Honest(w, s, who)
    ensures Honest(Watched(w, s, sched), Run(s, sched), who)
    decreases |sched|
  {
    if sched == [] {
    } else {
      NextHonest(w, s, sched[0], who);
      NextInv(s, sched[0]);
      RunHonest(Observe(w, s, sched[0]), Next(s, sched[0]), sched[1..], who);
    }
  }

  /** The books hold the whole of both histories; `first` is the data of the node
      the queue began with. */
  ghost predicate Complete(w: Watch, s: State, first: Item) {
    s.vals == [first] + Values(w.puts.done) && Values(w.takes.done) == s.popped
  }

  /** No history but by one entry at a time. */
  ghost predicate Grows(s: State, s': State) {
    && s'.vals == s.vals + Items(Grown(s.vals, s'.vals))
    && s'.popped == s.popped + Items(Grown(s.popped, s'.popped))
  }

  lemma ProducerGrows(s: State)
    ensures Grows(s, ProducerStep(s))
  {
  }

  lemma ConsumerGrows(s: State, t: Tid, junk: Item)
    requires t in s.consumers
    ensures Grows(s, ConsumerStep(s, t, junk))
  {
  }

  lemma NextGrows(s: State, a: Action)
    ensures Grows(s, Next(s, a))
  {
    match a
    case Producer => ProducerGrows(s);
    case Consumer(t, junk) => if t in s.consumers { ConsumerGrows(s, t, junk); }
    case _ =>
  }

  lemma {:induction false} RunComplete(w: Watch, s: State, sched: seq<Action>, first: Item)
    requires Complete(w, s, first)
    ensures Complete(Watched(w, s, sched), Run(s, sched), first)
    decreases |sched|
  {
    if sched == [] {
    } else {
      var s' := Next(s, sched[0]);
      NextGrows(s, sched[0]);
      AddValues(w.puts.done, None, Grown(s.vals, s'.vals));
      AddValues(w.takes.done, By(sched[0]), Grown(s.popped, s'.popped));
      RunComplete(Observe(w, s, sched[0]), s', sched[1..], first);
    }
  }

  /** In every run each consumer has been handed, in nodes of its own, exactly the
      data its own CASes took, in order, but for one it has taken and not yet
      written to its node; and the data of the pushes that have returned is
      exactly what was linked, but for a push about to return. */
  lemma RunAnswers(s0: State, sched: seq<Action>)
    requires Init(s0)
    ensures var s, w := Run(s0, sched), Watched(BLANK, s0, sched);
      && Values(w.takes.done) == s.popped && s.vals != [] && Values(w.puts.done) == s.vals[1..]
      && (forall t :: Of(w.takes.done, Some(t)) == Of(w.takes.told, Some(t)) + Items(TakenBy(s, Some(t))))
      && Of(w.puts.done, None) == Of(w.puts.told, None) + Items(PutBy(s))
  {
    InitInv(s0);
    RunComplete(BLANK, s0, sched, s0.vals[0]);
    RunHonest(BLANK, s0, sched, None);
    forall t ensures Square(Watched(BLANK, s0, sched).takes, Some(t), TakenBy(Run(s0, sched), Some(t))) {
      RunHonest(BLANK, s0, sched, Some(t));
    }
  }

  // Failing.

  predicate IsEmpty(s: State) {
    |s.vals| <= s.counter + 1
  }

  /** `xs` are the consumers that have been in their call while the queue was
      empty. */
  function Excuse(xs: set<Tid>, s: State, a: Action): set<Tid> {
    set t | t in s.consumers && !Starts(s, a, t) && (t in xs || IsEmpty(s))
  }

  /** `ys` are the consumers since whose call somebody else's CAS has succeeded. */
  function Overtake(ys: set<Tid>, s: State, a: Action): set<Tid> {
    set t | t in s.consumers && !Starts(s, a, t) &&
            (t in ys || (By(a) != Some(t) && Next(s, a).counter != s.counter))
  }

  function Excused(xs: set<Tid>, s: State, sched: seq<Action>): set<Tid>
    decreases |sched|
  {
    if sched == [] then xs else Excused(Excuse(xs, s, sched[0]), Next(s, sched[0]), sched[1..])
  }

  function Overtaken(ys: set<Tid>, s: State, sched: seq<Action>): set<Tid>
    decreases |sched|
  {
    if sched == [] then ys else Overtaken(Overtake(ys, s, sched[0]), Next(s, sched[0]), sched[1..])
  }

  /** As long as nobody gets in first the counter is as the thread read it. */
  ghost predicate OnCourse(overtaken: bool, s: State, t: Tid)
    requires t in s.consumers
  {
    overtaken ||
    match s.consumers[t]
    case PopHead(c) => c == s.counter
    case PopNext(c, _) => c == s.counter
    case PopData(c, _, _) => c == s.counter
    case PopCas(c, _, _, _) => c == s.counter
    case _ => true
  }

  predicate Justified(excused: bool, overtaken: bool, s: State, s': State, t: Tid) {
    Ends(s, s', t) && s'.consumers[t].DonePop? ==>
      match s'.consumers[t].res
      case Empty => excused || overtaken
      case Retry => overtaken
      case Got(_) => true
  }

  lemma StepOnCourse(excused: bool, overtaken: bool, s: State, t: Tid, junk: Item)
    requires Inv(s) && t in s.consumers && OnCourse(overtaken, s, t) && (IsEmpty(s) ==> excused)
    ensures var s' := ConsumerStep(s, t, junk);
      OnCourse(overtaken, s', t) && Justified(excused, overtaken, s, s', t)
  {
    if s.consumers[t].PopNext? { EmptyIsExact(s, t); }
    assert ConsumerOk(s, t);
  }

  lemma NextOnCourse(xs: set<Tid>, ys: set<Tid>, s: State, a: Action, t: Tid)
    requires Inv(s) && t in s.consumers && OnCourse(t in ys, s, t)
    ensures var s', x, y := Next(s, a), t in Excuse(xs, s, a), t in Overtake(ys, s, a);
      t in s'.consumers && OnCourse(y, s', t) && Justified(x, y, s, s', t)
  {
    if By(a) != Some(t) {
      OthersStay(s, a, t);
    } else if a.Consumer? {
      StepOnCourse(t in Excuse(xs, s, a), t in Overtake(ys, s, a), s, t, a.junk);
    }
  }

  lemma {:induction false} RunOnCourse(xs: set<Tid>, ys: set<Tid>, s: State, sched: seq<Action>, t: Tid)
    requires Inv(s) && t in s.consumers && OnCourse(t in ys, s, t)
    ensures var s' := Run(s, sched);
      Inv(s') && t in s'.consumers && OnCourse(t in Overtaken(ys, s, sched), s', t)
    decreases |sched|
  {
    if sched == [] {
    } else {
      NextInv(s, sched[0]);
      NextOnCourse(xs, ys, s, sched[0], t);
      RunOnCourse(Excuse(xs, s, sched[0]), Overtake(ys, s, sched[0]), Next(s, sched[0]), sched[1..], t);
    }
  }

  /** In every run a pop answers Retry only if another pop's CAS succeeded during
      the call, and Empty only if that happened or the queue was empty at some
      moment of the call. */
  lemma RunFailsForCause(s0: State, sched: seq<Action>, a: Action, t: Tid)
    requires Init(s0) && t in s0.consumers
    ensures var s := Run(s0, sched);
      Justified(t in Excuse(Excused({}, s0, sched), s, a), t in Overtake(Overtaken({}, s0, sched), s, a),
                s, Next(s, a), t)
  {
    InitInv(s0);
    RunOnCourse({}, {}, s0, sched, t);
    NextOnCourse(Excused({}, s0, sched), Overtaken({}, s0, sched), Run(s0, sched), a, t);
  }

  // Returning.

  /** How many accesses of its own an operation can have to go. */
  function ProducerAhead(pc: ProducerPc): nat {
    match pc
    case PushTail(_) => 4
    case PushTerminate(_, _) => 3
    case PushLink(_, _) => 2
    case PushAdvance(_) => 1
    case _ => 0
  }

  function ConsumerAhead(pc: ConsumerPc): nat {
    match pc
    case PopCounter => 6
    case PopHead(_) => 5
    case PopNext(_, _) => 4
    case PopData(_, _, _) => 3
    case PopCas(_, _, _, _) => 2
    case PopWrite(_, _) => 1
    case _ => 0
  }

  /** The producer is None here, a consumer Some of its name. */
  function Ahead(s: State, who: User): nat {
    match who
    case None => ProducerAhead(s.producer)
    case Some(t) => if t in s.consumers then ConsumerAhead(s.consumers[t]) else 0
  }

  predicate Access(a: Action, who: User) {
    match a
    case Producer => who == None
    case Consumer(t, _) => who == Some(t)
    case _ => false
  }

  predicate Calls(a: Action, who: User) {
    match a
    case Push(_) => who == None
    case Pop(t) => who == Some(t)
    case _ => false
  }

  lemma ProducerNearsEnd(s: State)
    ensures ProducerAhead(ProducerStep(s).producer) <=
            if ProducerAhead(s.producer) == 0 then 0 else ProducerAhead(s.producer) - 1
  {
  }

  lemma ConsumerNearsEnd(s: State, t: Tid, junk: Item)
    requires t in s.consumers && (s.consumers[t].PopNext? ==> s.consumers[t].h in s.next)
    ensures var n := ConsumerAhead(s.consumers[t]);
      ConsumerAhead(ConsumerStep(s, t, junk).consumers[t]) <= if n == 0 then 0 else n - 1
  {
  }

  lemma OthersChangeNothing(s: State, a: Action, who: User)
    requires !Access(a, who) && !Calls(a, who)
    ensures Ahead(Next(s, a), who) == Ahead(s, who)
  {
    if who.Some? && who.value in s.consumers {
      OthersStay(s, a, who.value);
    } else if a.Consumer? && a.t in s.consumers {
      ConsumerLeavesProducer(s, a.t, a.junk);
    } else if a.Producer? {
      ProducerLeavesOthers(s);
    }
  }

  lemma ConsumerLeavesProducer(s: State, t: Tid, junk: Item)
    requires t in s.consumers
    ensures LeavesProducer(s, ConsumerStep(s, t, junk))
  {
    if Looking(s.consumers[t]) { LookMovesItself(s, t, junk); } else { TakeLeavesProducer(s, t, junk); }
  }

  ghost predicate LeavesProducer(s: State, s': State) {
    s'.producer == s.producer && s'.consumers.Keys == s.consumers.Keys
  }

  lemma TakeLeavesProducer(s: State, t: Tid, junk: Item)
    requires t in s.consumers && !Looking(s.consumers[t])
    ensures LeavesProducer(s, ConsumerStep(s, t, junk))
  {
  }

  lemma StepNearsEnd(s: State, a: Action, who: User)
    requires Inv(s) && !Calls(a, who)
    ensures Ahead(Next(s, a), who) <=
            if Access(a, who) && Ahead(s, who) > 0 then Ahead(s, who) - 1 else Ahead(s, who)
  {
    if !Access(a, who) {
      OthersChangeNothing(s, a, who);
    } else if who == None {
      ProducerNearsEnd(s);
    } else if who.value in s.consumers {
      assert ConsumerOk(s, who.value);
      ConsumerNearsEnd(s, who.value, a.junk);
    }
  }

  /** The accesses of `who` in a schedule. */
  function Own(sched: seq<Action>, who: User): nat {
    if sched == [] then 0 else (if Access(sched[0], who) then 1 else 0) + Own(sched[1..], who)
  }

  /** No operation waits: whatever the others do or leave undone, a push has
      returned after at most four accesses of its own and a pop after six. */
  lemma {:induction false} RunReturns(s: State, sched: seq<Action>, who: User)
    requires Inv(s) && Own(sched, who) >= Ahead(s, who)
    requires forall a :: a in sched ==> !Calls(a, who)
    ensures Ahead(s, who) <= if who.Some? then 6 else 4
    ensures who == None ==> ProducerReady(Run(s, sched).producer)
    ensures who.Some? && who.value in Run(s, sched).consumers ==> ConsumerReady(Run(s, sched).consumers[who.value])
    decreases |sched|
  {
    if sched == [] {
    } else {
      StepNearsEnd(s, sched[0], who);
      NextInv(s, sched[0]);
      RunReturns(Next(s, sched[0]), sched[1..], who);
    }
  }
}
