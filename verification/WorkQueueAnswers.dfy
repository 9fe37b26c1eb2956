/** What the work queue answers its callers, against what its steps did: in every
    run each node the FIFO hands out is the answer of exactly one get_work, in
    order; START_WORKING is answered exactly to those elected; and EMPTY only when
    everything counted has been delivered. */
module WorkQueueAnswers {
  import opened Common
  import opened Ledger
  import opened WorkQueue
  import Mpsc = MpscFifo

  type Node = Mpsc.Node

  /** A caller's write to its own node is nobody's operation. */
  type User = Option<Tid>

  function By(a: Action): User {
    match a
    case Push(t, _) => Some(t)
    case GetWork(t) => Some(t)
    case Go(t) => Some(t)
    case Scribble(_, _, _) => None
  }

  predicate StartsPush(s: State, a: Action) {
    a.Push? && a.t in s.pcs && Ready(s.pcs[a.t]) && Mpsc.ProducerReady(s.fifo, a.t) && Mpsc.Free(s.fifo, a.n)
  }

  /** From `s` to `s'` thread `t`'s operation has returned. */
  predicate Ends(s: State, s': State, t: Tid) {
    t in s.pcs && t in s'.pcs && !Ready(s.pcs[t]) && Ready(s'.pcs[t])
  }

  /** The node a get_work has just returned. */
  function GetTold(s: State, s': State, who: User): Option<Node> {
    if who.Some? && Ends(s, s', who.value) && s'.pcs[who.value].DoneGet? then s'.pcs[who.value].res else None
  }

  /** Whether a push has just answered START_WORKING. */
  function RoleTold(s: State, s': State, who: User): Option<bool> {
    if who.Some? && Ends(s, s', who.value) && s'.pcs[who.value] == DonePush(true) then Some(true) else None
  }

  /** The node of a push that has just returned, whatever its role. */
  function PushTold(s: State, s': State, who: User, asked: map<Tid, Node>): Option<Node> {
    if who.Some? && Ends(s, s', who.value) && s'.pcs[who.value].DonePush? && who.value in asked
    then Some(asked[who.value]) else None
  }

  /** The node the FIFO has just handed out. */
  function Handed(f: Mpsc.State, f': Mpsc.State): Option<Node> {
    if !Mpsc.ConsumerReady(f) && f'.consumer.DonePop? then f'.consumer.res else None
  }

  /** Whether `who` has just become a worker. */
  function Elected(s: State, s': State, who: User): Option<bool> {
    if who.Some? && who.value !in s.working && who.value in s'.working then Some(true) else None
  }

  /** `items` is the data of the nodes handed out, as they were handed out. */
  datatype Watch = Watch(
    asked: map<Tid, Node>, items: seq<Item>,
    gets: Book<User, Node>, roles: Book<User, bool>, puts: Book<User, Node>)

  const BLANK: Watch := Watch(map[], [], Book([], []), Book([], []), Book([], []))

  function Asked(asked: map<Tid, Node>, s: State, a: Action): map<Tid, Node> {
    if StartsPush(s, a) then asked[a.t := a.n] else asked
  }

  function Observe(w: Watch, s: State, a: Action): Watch {
    var s', who := Next(s, a), By(a);
    var handed := Handed(s.fifo, s'.fifo);
    Watch(Asked(w.asked, s, a),
          if handed.Some? then w.items + [Mpsc.DataOf(s'.fifo, handed.value)] else w.items,
          Enter(w.gets, who, handed, GetTold(s, s', who)),
          Enter(w.roles, who, Elected(s, s', who), RoleTold(s, s', who)),
          Enter(w.puts, who, Grown(s.fifo.order, s'.fifo.order), PushTold(s, s', who, w.asked)))
  }

  function Watched(w: Watch, s: State, sched: seq<Action>): Watch
    decreases |sched|
  {
    if sched == [] then w else Watched(Observe(w, s, sched[0]), Next(s, sched[0]), sched[1..])
  }

  // What a thread has in hand: a node it took, an election it is still to be told
  // of, a node it has exchanged and is still to link.

  function GetHand(s: State, who: User): Option<Node> {
    if who.Some? && who.value in s.pcs && (s.pcs[who.value].GetReadAdd? || s.pcs[who.value].GetWriteAdd?)
    then Some(s.pcs[who.value].n) else None
  }

  function RoleHand(s: State, who: User): Option<bool> {
    if who.Some? && who.value in s.pcs && s.pcs[who.value] == InPush(true) then Some(true) else None
  }

  function PutHand(s: State, who: User): Option<Node> {
    if who.Some? && who.value in s.pcs && s.pcs[who.value].InPush?
       && who.value in s.fifo.producers && s.fifo.producers[who.value].PushLink?
    then Some(s.fifo.producers[who.value].n) else None
  }

  /** The node a thread is pushing is the one it was asked to push. */
  ghost predicate Carries(asked: map<Tid, Node>, s: State, who: User) {
    who.Some? && who.value in s.pcs && (s.pcs[who.value].PushAdd? || s.pcs[who.value].InPush?) ==>
      && who.value in asked && who.value in s.fifo.producers
      && match s.fifo.producers[who.value]
         case PushTerminate(n) => n == asked[who.value]
         case PushExchange(n) => n == asked[who.value]
         case PushLink(n, _) => n == asked[who.value]
         case _ => true
  }

  /** One action, in the books of `who`. */
  ghost predicate Keeps(s: State, s': State, a: Action, who: User, asked: map<Tid, Node>, asked': map<Tid, Node>) {
    && Carries(asked', s', who)
    && (if By(a) == who
        then && Flows(GetHand(s, who), Handed(s.fifo, s'.fifo), GetTold(s, s', who), GetHand(s', who))
             && Flows(RoleHand(s, who), Elected(s, s', who), RoleTold(s, s', who), RoleHand(s', who))
             && Flows(PutHand(s, who), Grown(s.fifo.order, s'.fifo.order), PushTold(s, s', who, asked),
                      PutHand(s', who))
        else && GetHand(s', who) == GetHand(s, who) && RoleHand(s', who) == RoleHand(s, who)
             && PutHand(s', who) == PutHand(s, who))
  }

  lemma AddKeeps(s: State, t: Tid, asked: map<Tid, Node>)
    requires Inv(s) && t in s.pcs && s.pcs[t].PushAdd? && Carries(asked, s, Some(t))
    ensures Keeps(s, Announce(s, t), Go(t), Some(t), asked, asked)
  {
    assert PcOk(s, t);
  }

  lemma PushKeeps(s: State, t: Tid, role: bool, asked: map<Tid, Node>)
    requires t in s.pcs && PcOk(s, t) && s.pcs[t] == InPush(role) && Carries(asked, s, Some(t))
    ensures Keeps(s, PushInside(s, t, role), Go(t), Some(t), asked, asked)
  {
  }

  lemma PopKeeps(s: State, t: Tid, asked: map<Tid, Node>)
    requires Inv(s) && t in s.pcs && s.pcs[t].InPop?
    ensures Keeps(s, PopInside(s, t), Go(t), Some(t), asked, asked)
  {
    assert PcOk(s, t);
  }

  /** The accesses of get_work to the two counters. */
  predicate Counting(pc: Pc) {
    Getting(pc) && !pc.InPop? && !pc.GetSub? && !pc.GetReadIn?
  }

  lemma CountKeeps(s: State, t: Tid, asked: map<Tid, Node>)
    requires t in s.pcs && Counting(s.pcs[t])
    ensures Keeps(s, GoStep(s, t), Go(t), Some(t), asked, asked)
  {
  }

  /** Entering trypop hands out nothing. */
  lemma EnterKeeps(s: State, t: Tid, a: Action, asked: map<Tid, Node>)
    requires t in s.pcs && By(a) == Some(t)
    requires Ready(s.pcs[t]) || s.pcs[t].GetReadIn?
    requires Carries(asked, s, Some(t))
    ensures Keeps(s, EnterPop(s, t), a, Some(t), asked, asked)
  {
  }

  lemma SettleKeeps(s: State, t: Tid, taken: int, asked: map<Tid, Node>)
    requires t in s.pcs && s.pcs[t] == GetSub(taken)
    ensures Keeps(s, Settle(s, t, taken), Go(t), Some(t), asked, asked)
  {
  }

  lemma GoKeeps(s: State, t: Tid, asked: map<Tid, Node>)
    requires Inv(s) && t in s.pcs && Carries(asked, s, Some(t))
    ensures Keeps(s, GoStep(s, t), Go(t), Some(t), asked, asked)
  {
    assert PcOk(s, t);
    match s.pcs[t]
    case PushAdd => AddKeeps(s, t, asked);
    case InPush(role) => PushKeeps(s, t, role, asked);
    case InPop => PopKeeps(s, t, asked);
    case GetReadIn(out) =>
      if out != s.inCount { EnterKeeps(s, t, Go(t), asked); } else { LookKeeps(s, t, GetReadOld, asked); }
    case GetSub(taken) => SettleKeeps(s, t, taken, asked);
    case _ => if Counting(s.pcs[t]) { CountKeeps(s, t, asked); }
  }

  lemma LookKeeps(s: State, t: Tid, pc: Pc, asked: map<Tid, Node>)
    requires t in s.pcs && s.pcs[t].GetReadIn? && pc.GetReadOld?
    ensures Keeps(s, Goto(s, t, pc), Go(t), Some(t), asked, asked)
  {
  }

  lemma StartPushKeeps(s: State, t: Tid, n: Node, asked: map<Tid, Node>)
    requires t in s.pcs && Ready(s.pcs[t])
    ensures Keeps(s, StartPush(s, t, n), Push(t, n), Some(t), asked, asked[t := n])
  {
  }

  lemma OwnKeeps(s: State, a: Action, t: Tid, asked: map<Tid, Node>)
    requires Inv(s) && By(a) == Some(t) && t in s.pcs && Carries(asked, s, Some(t))
    ensures Keeps(s, Next(s, a), a, Some(t), asked, Asked(asked, s, a))
  {
    match a
    case Push(_, n) => if StartsPush(s, a) { StartPushKeeps(s, t, n, asked); }
    case GetWork(_) => if Ready(s.pcs[t]) && t in s.working { EnterKeeps(s, t, a, asked); }
    case Go(_) => GoKeeps(s, t, asked);
  }

  // Nobody else's books change.

  /** The registers of `t`, here and in the FIFO, are left alone. */
  ghost predicate LeavesOthers(s: State, s': State, t: Tid) {
    && (t in s.pcs <==> t in s'.pcs) && (t in s.pcs ==> s'.pcs[t] == s.pcs[t])
    && (t in s.fifo.producers <==> t in s'.fifo.producers)
    && (t in s.fifo.producers ==> s'.fifo.producers[t] == s.fifo.producers[t])
  }

  lemma PushLeaves(s: State, u: Tid, role: bool, t: Tid)
    requires u in s.fifo.producers && u in s.pcs && u != t
    ensures LeavesOthers(s, PushInside(s, u, role), t)
  {
  }

  lemma ConsumerLeavesProducers(f: Mpsc.State)
    ensures Mpsc.ConsumerStep(f).producers == f.producers
  {
  }

  lemma PopLeaves(s: State, u: Tid, t: Tid)
    requires u in s.pcs && u != t
    ensures LeavesOthers(s, PopInside(s, u), t)
  {
    ConsumerLeavesProducers(s.fifo);
  }

  lemma GoLeaves(s: State, u: Tid, t: Tid)
    requires u in s.pcs && u != t
    ensures LeavesOthers(s, GoStep(s, u), t)
  {
    match s.pcs[u]
    case InPush(role) => if u in s.fifo.producers { PushLeaves(s, u, role, t); }
    case InPop => PopLeaves(s, u, t);
    case _ =>
  }

  lemma NextLeaves(s: State, a: Action, t: Tid)
    requires By(a) != Some(t) && (By(a).Some? ==> By(a).value in s.pcs)
    ensures LeavesOthers(s, Next(s, a), t)
  {
    if a.Go? { GoLeaves(s, a.t, t); }
  }

  lemma OthersKeep(s: State, s': State, a: Action, who: User, asked: map<Tid, Node>, asked': map<Tid, Node>)
    requires By(a) != who && Carries(asked, s, who)
    requires who.Some? ==> LeavesOthers(s, s', who.value)
    requires forall t :: who == Some(t) ==> (t in asked <==> t in asked') && (t in asked ==> asked'[t] == asked[t])
    ensures Keeps(s, s', a, who, asked, asked')
  {
  }

  lemma NothingKeeps(s: State, a: Action, who: User, asked: map<Tid, Node>)
    requires Inv(s) && Carries(asked, s, who)
    ensures Keeps(s, s, a, who, asked, asked)
  {
  }

  lemma ScribbleKeeps(s: State, a: Action, asked: map<Tid, Node>)
    requires a.Scribble?
    ensures Keeps(s, Next(s, a), a, None, asked, asked)
  {
  }

  lemma NextKeeps(s: State, a: Action, who: User, asked: map<Tid, Node>)
    requires Inv(s) && Carries(asked, s, who)
    ensures Keeps(s, Next(s, a), a, who, asked, Asked(asked, s, a))
  {
    if By(a).Some? && By(a).value !in s.pcs {
      NothingKeeps(s, a, who, asked);
    } else if By(a) != who {
      if who.Some? { NextLeaves(s, a, who.value); }
      OthersKeep(s, Next(s, a), a, who, asked, Asked(asked, s, a));
    } else if who.Some? {
      OwnKeeps(s, a, who.value, asked);
    } else {
      ScribbleKeeps(s, a, asked);
    }
  }

  ghost predicate Honest(w: Watch, s: State, who: User) {
    && Square(w.gets, who, GetHand(s, who)) && Square(w.roles, who, RoleHand(s, who))
    && Square(w.puts, who, PutHand(s, who)) && Carries(w.asked, s, who)
  }

  lemma NextHonest(w: Watch, s: State, a: Action, who: User)
    requires Inv(s) && Honest(w, s, who)
    ensures Honest(Observe(w, s, a), Next(s, a), who)
  {
    var s', me := Next(s, a), By(a);
    var handed, elected, put := Handed(s.fifo, s'.fifo), Elected(s, s', me), Grown(s.fifo.order, s'.fifo.order);
    var got, told, back := GetTold(s, s', me), RoleTold(s, s', me), PushTold(s, s', me, w.asked);
    NextKeeps(s, a, who, w.asked);
    if me == who {
      EnterSquare(w.gets, who, handed, got, GetHand(s, who), GetHand(s', who));
      EnterSquare(w.roles, who, elected, told, RoleHand(s, who), RoleHand(s', who));
      EnterSquare(w.puts, who, put, back, PutHand(s, who), PutHand(s', who));
    } else {
      EnterOther(w.gets, me, handed, got, who, GetHand(s, who));
      EnterOther(w.roles, me, elected, told, who, RoleHand(s, who));
      EnterOther(w.puts, me, put, back, who, PutHand(s, who));
    }
  }

  lemma {:induction false} RunHonest(w: Watch, s: State, sched: seq<Action>, who: User)
    requires Inv(s) && Honest(w, s, who)
    ensures Honest(Watched(w, s, sched), Run(s, sched), who)
    decreases |sched|
  {
    if sched == [] {
    } else {
      NextHonest(w, s, sched[0], who);
      NextInv(s, sched[0]);
      RunHonest(Observe(w, s, sched[0]), Next(s, sched[0]), sched[1..], who);
    }
  }

  /** The books hold every exchange and every hand-out of the FIFO; `first` is the
      node the FIFO began with. */
  ghost predicate Complete(w: Watch, s: State, first: Node) {
    && s.fifo.order == [first] + Values(w.puts.done)
    && w.items == s.fifo.popped && |Values(w.gets.done)| == |w.items|
  }

  /** What one step does to the histories of the FIFO. */
  ghost predicate Grows(f: Mpsc.State, f': Mpsc.State) {
    && f'.order == f.order + Items(Grown(f.order, f'.order))
    && (match Handed(f, f')
        case Some(n) => f'.popped == f.popped + [Mpsc.DataOf(f', n)]
        case None => f'.popped == f.popped)
  }

  lemma ConsumerGrows(f: Mpsc.State)
    requires !Mpsc.ConsumerReady(f)
    ensures Grows(f, Mpsc.ConsumerStep(f))
  {
  }

  lemma ProducerGrows(f: Mpsc.State, t: Tid)
    requires t in f.producers
    ensures Grows(f, Mpsc.ProducerStep(f, t))
  {
  }

  lemma NextGrows(s: State, a: Action)
    requires Inv(s)
    ensures Grows(s.fifo, Next(s, a).fifo)
  {
    if a.Go? && a.t in s.pcs {
      assert PcOk(s, a.t);
      match s.pcs[a.t]
      case InPush(_) => ProducerGrows(s.fifo, a.t);
      case InPop => ConsumerGrows(s.fifo);
      case _ =>
    }
  }

  lemma NextComplete(w: Watch, s: State, a: Action, first: Node)
    requires Complete(w, s, first) && Grows(s.fifo, Next(s, a).fifo)
    ensures Complete(Observe(w, s, a), Next(s, a), first)
  {
    var f, f' := s.fifo, Next(s, a).fifo;
    AddValues(w.puts.done, By(a), Grown(f.order, f'.order));
    AddValues(w.gets.done, By(a), Handed(f, f'));
    assert [first] + (Values(w.puts.done) + Items(Grown(f.order, f'.order))) == f'.order;
  }

  lemma {:induction false} RunComplete(w: Watch, s: State, sched: seq<Action>, first: Node)
    requires Inv(s) && Complete(w, s, first)
    ensures Complete(Watched(w, s, sched), Run(s, sched), first)
    decreases |sched|
  {
    if sched == [] {
    } else {
      NextGrows(s, sched[0]);
      NextComplete(w, s, sched[0], first);
      NextInv(s, sched[0]);
      RunComplete(Observe(w, s, sched[0]), Next(s, sched[0]), sched[1..], first);
    }
  }

  lemma RunBooks(s0: State, sched: seq<Action>, t: Tid)
    requires Init(s0)
    ensures var s, w := Run(s0, sched), Watched(BLANK, s0, sched);
      && Square(w.gets, Some(t), GetHand(s, Some(t))) && Square(w.roles, Some(t), RoleHand(s, Some(t)))
      && Square(w.puts, Some(t), PutHand(s, Some(t)))
  {
    InitInv(s0);
    RunHonest(BLANK, s0, sched, Some(t));
  }

  /** In every run the nodes handed out by the FIFO carry, in order, the items
      pushed first; each thread's get_work calls have answered exactly the nodes
      handed to it, in order, but for one it is just counting out; START_WORKING
      was answered exactly as often as the thread was elected, but for a push
      still under way; and a push returns once its node is in, and only then. */
  lemma RunAnswers(s0: State, sched: seq<Action>)
    requires Init(s0)
    ensures var s, w := Run(s0, sched), Watched(BLANK, s0, sched);
      && s.fifo.vals != [] && w.items == s.fifo.popped <= s.fifo.vals[1..]
      && |Values(w.gets.done)| == |w.items| && s.fifo.order == [s0.fifo.head] + Values(w.puts.done)
      && (forall t :: Of(w.gets.done, Some(t)) == Of(w.gets.told, Some(t)) + Items(GetHand(s, Some(t))))
      && (forall t :: Of(w.roles.done, Some(t)) == Of(w.roles.told, Some(t)) + Items(RoleHand(s, Some(t))))
      && (forall t :: Of(w.puts.done, Some(t)) == Of(w.puts.told, Some(t)) + Items(PutHand(s, Some(t))))
  {
    InitInv(s0);
    RunComplete(BLANK, s0, sched, s0.fifo.head);
    RunHasOneWorker(s0, sched);
    forall t: Tid
      ensures var s, w, who := Run(s0, sched), Watched(BLANK, s0, sched), Some(t);
        && Square(w.gets, who, GetHand(s, who)) && Square(w.roles, who, RoleHand(s, who))
        && Square(w.puts, who, PutHand(s, who))
    {
      RunBooks(s0, sched, t);
    }
  }

  // EMPTY.

  /** Everything counted has been delivered, and nobody is the worker any more. */
  ghost predicate AllDelivered(s: State) {
    && s.working == {} && s.announced == {} && s.inCount == 0 && s.outCount == 0
    && s.fifo.first < |s.fifo.vals| && Mpsc.Queue(s.fifo) == [] && s.fifo.popped == s.fifo.vals[1..]
  }

  /** From `s` to `s'` a get_work of `t` has answered EMPTY. */
  predicate AnswersEmpty(s: State, s': State, t: Tid) {
    Ends(s, s', t) && s'.pcs[t] == DoneGet(None)
  }

  lemma StepAnswersEmpty(s: State, t: Tid)
    requires Inv(s) && t in s.pcs && AnswersEmpty(s, GoStep(s, t), t)
    ensures s.pcs[t].GetSub?
  {
  }

  /** In every run EMPTY is answered only when every counted push has been
      delivered, and then the thread is the worker no more. */
  lemma RunEmptyIsJustified(s0: State, sched: seq<Action>, a: Action, t: Tid)
    requires Init(s0)
    ensures var s := Run(s0, sched);
      AnswersEmpty(s, Next(s, a), t) ==> s.working == {t} && AllDelivered(Next(s, a))
  {
    InitInv(s0);
    RunInv(s0, sched);
    var s := Run(s0, sched);
    if AnswersEmpty(s, Next(s, a), t) {
      if By(a) == Some(t) {
        assert a.Go?;
        StepAnswersEmpty(s, t);
        EmptyMeansAllDelivered(s, t);
        GoInv(s, t);
      } else if By(a).None? || By(a).value in s.pcs {
        NextLeaves(s, a, t);
      }
    }
  }

  // Operations running without interference.

  function Solo(s: State, t: Tid, n: nat): State
    decreases n
  {
    if n == 0 then s else Solo(Next(s, Go(t)), t, n - 1)
  }

  /** There is an item the worker can reach. */
  predicate Reachable(s: State) {
    s.fifo.first + 1 < |s.fifo.vals| && s.fifo.first + 1 !in s.fifo.pending
  }

  /** From `s` to `s'` a get_work by `t` has been answered with the node that was
      the head, now carrying the first item. */
  ghost predicate GetOutcome(s: State, s': State, t: Tid) {
    && Inv(s) && Inv(s') && t in s'.pcs && s'.pcs[t] == DoneGet(Some(s.fifo.head))
    && Mpsc.Queue(s.fifo) != [] && s.fifo.head in s'.fifo.data
    && s'.fifo.data[s.fifo.head] == Mpsc.Queue(s.fifo)[0] && Mpsc.Queue(s'.fifo) == Mpsc.Queue(s.fifo)[1..]
    && s'.working == s.working && Mpsc.Free(s'.fifo, s.fifo.head)
  }

  /** A step of `t` inside trypop is a step of the FIFO's consumer. */
  lemma PopStep(s: State, t: Tid)
    requires Inv(s) && t in s.pcs && s.pcs[t].InPop?
    ensures var s' := Next(s, Go(t));
      && Inv(s') && s'.fifo == Mpsc.ConsumerStep(s.fifo) && s'.working == s.working && t in s'.pcs
      && s'.pcs[t] == (match s'.fifo.consumer
                       case DonePop(None) => GetReadOut
                       case DonePop(Some(n)) => GetReadAdd(n)
                       case _ => InPop)
  {
    GoInv(s, t);
  }

  /** Alone, get_work answers with the node carrying the first item as long as
      the worker can reach one. */
  lemma GetWorkAlone(s: State, t: Tid)
    requires Inv(s) && t in s.pcs && Ready(s.pcs[t]) && t in s.working && Reachable(s)
    ensures GetOutcome(s, Solo(Next(s, GetWork(t)), t, 7), t)
  {
    GetEnters(s, t);
    GetReadsHead(Next(s, GetWork(t)), t);
  }

  /** get_work starts by entering trypop. */
  lemma GetEnters(s: State, t: Tid)
    requires Inv(s) && t in s.pcs && Ready(s.pcs[t]) && t in s.working
    ensures var s' := Next(s, GetWork(t));
      && Inv(s') && t in s'.pcs && s'.pcs[t] == InPop && s'.fifo == s.fifo.(consumer := Mpsc.PopHead)
      && s'.working == s.working && s'.announced == s.announced
  {
    NextInv(s, GetWork(t));
    assert PcOk(s, t);
    EnterPopInv(s, t);
  }

  lemma GetReadsHead(s: State, t: Tid)
    requires Inv(s) && t in s.pcs && s.pcs[t].InPop? && s.fifo.consumer.PopHead? && Reachable(s)
    ensures GetOutcome(s, Solo(s, t, 7), t)
  {
    PopStep(s, t);
    GetReadsNext(Next(s, Go(t)), t);
  }

  lemma GetReadsNext(s: State, t: Tid)
    requires Inv(s) && t in s.pcs && s.pcs[t].InPop? && s.fifo.consumer == Mpsc.PopNext(s.fifo.head) && Reachable(s)
    ensures GetOutcome(s, Solo(s, t, 6), t)
  {
    PopStep(s, t);
    Mpsc.PopFailsForCause(s.fifo);
    GetMovesHead(Next(s, Go(t)), t);
  }

  lemma GetMovesHead(s: State, t: Tid)
    requires Inv(s) && t in s.pcs && s.pcs[t].InPop? && s.fifo.consumer.PopAdvance?
    ensures GetOutcome(s, Solo(s, t, 5), t)
  {
    PopStep(s, t);
    Mpsc.ConsumerRefines(s.fifo);
    GetCopies(Next(s, Go(t)), t);
  }

  /** From `s` to `s'` a get_work has been answered with node `h` carrying `v`,
      and nothing else has left the queue. */
  ghost predicate Delivered(s: State, s': State, t: Tid, h: Node, v: Item) {
    && Inv(s) && Inv(s') && t in s'.pcs && s'.pcs[t] == DoneGet(Some(h))
    && h in s'.fifo.data && s'.fifo.data[h] == v && Mpsc.Queue(s'.fifo) == Mpsc.Queue(s.fifo)
    && s'.working == s.working && Mpsc.Free(s'.fifo, h)
  }

  lemma GetCopies(s: State, t: Tid)
    requires Inv(s) && t in s.pcs && s.pcs[t].InPop? && s.fifo.consumer.PopRead?
    ensures Delivered(s, Solo(s, t, 4), t, s.fifo.consumer.h, s.fifo.vals[s.fifo.first])
  {
    PopStep(s, t);
    Mpsc.ConsumerRefines(s.fifo);
    GetHandsOver(Next(s, Go(t)), t);
  }

  lemma GetHandsOver(s: State, t: Tid)
    requires Inv(s) && t in s.pcs && s.pcs[t].InPop? && s.fifo.consumer.PopWrite?
    ensures Delivered(s, Solo(s, t, 3), t, s.fifo.consumer.h, s.fifo.vals[s.fifo.first])
  {
    PopStep(s, t);
    Mpsc.PopHandsOver(s.fifo);
    Mpsc.ConsumerRefines(s.fifo);
    var s1 := Next(s, Go(t));
    GetCountsOut(s1, t);
  }

  lemma GetCountsOut(s: State, t: Tid)
    requires Inv(s) && t in s.pcs && s.pcs[t].GetReadAdd?
    ensures var s' := Solo(s, t, 2);
      && Inv(s') && t in s'.pcs && s'.pcs[t] == DoneGet(Some(s.pcs[t].n))
      && s'.fifo == s.fifo && s'.working == s.working && s'.outCount == s.outCount + 1
  {
    GoInv(s, t);
    var s1 := Next(s, Go(t));
    GoInv(s1, t);
    assert Solo(s, t, 2) == Solo(s1, t, 1) == Next(s1, Go(t));
  }

  /** Alone, and with every counted push delivered, get_work answers EMPTY and the
      thread is the worker no more. */
  lemma GetEmptyAlone(s: State, t: Tid)
    requires Inv(s) && t in s.pcs && Ready(s.pcs[t]) && t in s.working
    requires Mpsc.Queue(s.fifo) == [] && s.announced == {}
    ensures var s' := Solo(Next(s, GetWork(t)), t, 7);
      Inv(s') && t in s'.pcs && s'.pcs[t] == DoneGet(None) && AllDelivered(s')
  {
    GetEnters(s, t);
    EmptyReadsHead(Next(s, GetWork(t)), t);
  }

  /** `t` is alone, inside get_work, with nothing left to deliver. */
  ghost predicate Finishing(s: State, t: Tid) {
    Inv(s) && t in s.pcs && Mpsc.Queue(s.fifo) == [] && s.announced == {} && t in s.working
  }

  lemma EmptyReadsHead(s: State, t: Tid)
    requires Finishing(s, t) && s.pcs[t].InPop? && s.fifo.consumer.PopHead?
    ensures EmptyOutcome(Solo(s, t, 7), t)
  {
    PopStep(s, t);
    PopKeepsAnnounced(s, t);
    EmptyReadsNext(Next(s, Go(t)), t);
  }

  ghost predicate EmptyOutcome(s': State, t: Tid) {
    Inv(s') && t in s'.pcs && s'.pcs[t] == DoneGet(None) && AllDelivered(s')
  }

  lemma PopKeepsAnnounced(s: State, t: Tid)
    requires t in s.pcs && s.pcs[t].InPop?
    ensures Next(s, Go(t)).announced == s.announced
  {
  }

  lemma EmptyReadsNext(s: State, t: Tid)
    requires Finishing(s, t) && s.pcs[t].InPop? && s.fifo.consumer == Mpsc.PopNext(s.fifo.head)
    ensures EmptyOutcome(Solo(s, t, 6), t)
  {
    PopStep(s, t);
    PopKeepsAnnounced(s, t);
    Mpsc.PopFailsForCause(s.fifo);
    EmptyReadsCounts(Next(s, Go(t)), t);
  }

  lemma EmptyReadsCounts(s: State, t: Tid)
    requires Finishing(s, t) && s.pcs[t].GetReadOut?
    ensures EmptyOutcome(Solo(s, t, 5), t)
  {
    GoInv(s, t);
    EmptyCompares(Next(s, Go(t)), t);
  }

  lemma EmptyCompares(s: State, t: Tid)
    requires Finishing(s, t) && s.pcs[t].GetReadIn?
    ensures EmptyOutcome(Solo(s, t, 4), t)
  {
    assert PcOk(s, t);
    assert Balanced(s, 0);
    GoInv(s, t);
    EmptyTakes(Next(s, Go(t)), t);
  }

  lemma EmptyTakes(s: State, t: Tid)
    requires Finishing(s, t) && s.pcs[t].GetReadOld?
    ensures EmptyOutcome(Solo(s, t, 3), t)
  {
    GoInv(s, t);
    EmptyResets(Next(s, Go(t)), t);
  }

  lemma EmptyResets(s: State, t: Tid)
    requires Finishing(s, t) && s.pcs[t].GetReset?
    ensures EmptyOutcome(Solo(s, t, 2), t)
  {
    GoInv(s, t);
    EmptySettles(Next(s, Go(t)), t);
  }

  lemma EmptySettles(s: State, t: Tid)
    requires Finishing(s, t) && s.pcs[t].GetSub?
    ensures EmptyOutcome(Solo(s, t, 1), t)
  {
    EmptyMeansAllDelivered(s, t);
    GoInv(s, t);
    assert Solo(s, t, 1) == Next(s, Go(t));
  }

  /** Alone, a push is told to start working exactly when nobody is, and its
      node's data is queued. */
  lemma PushAlone(s: State, t: Tid, n: Node)
    requires Inv(s) && StartsPush(s, Push(t, n))
    ensures var s' := Solo(Next(s, Push(t, n)), t, 4);
      && Inv(s') && t in s'.pcs && s'.pcs[t] == DonePush(s.working == {})
      && s'.working == (if s.working == {} then {t} else s.working)
      && n in s.fifo.data && Mpsc.Queue(s'.fifo) == Mpsc.Queue(s.fifo) + [s.fifo.data[n]]
  {
    CallPushInv(s, t, n);
    PushCounts(Next(s, Push(t, n)), t, n);
  }

  /** A push of `n` has come to its end with the given role. */
  ghost predicate PushOutcome(s: State, s': State, t: Tid, n: Node, role: bool) {
    && Inv(s) && Inv(s') && t in s'.pcs && s'.pcs[t] == DonePush(role)
    && n in s.fifo.data && Mpsc.Queue(s'.fifo) == Mpsc.Queue(s.fifo) + [s.fifo.data[n]]
  }

  lemma PushCounts(s: State, t: Tid, n: Node)
    requires Inv(s) && t in s.pcs && s.pcs[t].PushAdd?
    requires t in s.fifo.producers && s.fifo.producers[t] == Mpsc.PushTerminate(n)
    ensures PushOutcome(s, Solo(s, t, 4), t, n, s.working == {})
    ensures Solo(s, t, 4).working == if s.working == {} then {t} else s.working
  {
    FirstPushIsElected(s, t);
    PushTerminates(Next(s, Go(t)), t, n);
  }

  /** A step of `t` inside the FIFO's push is a step of that producer. */
  lemma PushStep(s: State, t: Tid)
    requires Inv(s) && t in s.pcs && s.pcs[t].InPush?
    ensures var s' := Next(s, Go(t));
      && t in s.fifo.producers && Inv(s') && s'.fifo == Mpsc.ProducerStep(s.fifo, t) && s'.working == s.working
      && t in s'.pcs && t in s'.fifo.producers
      && s'.pcs[t] == (if s'.fifo.producers[t].DonePush? then DonePush(s.pcs[t].role) else s.pcs[t])
  {
    assert PcOk(s, t);
    GoInv(s, t);
  }

  lemma PushTerminates(s: State, t: Tid, n: Node)
    requires Inv(s) && t in s.pcs && s.pcs[t].InPush?
    requires t in s.fifo.producers && s.fifo.producers[t] == Mpsc.PushTerminate(n)
    ensures PushOutcome(s, Solo(s, t, 3), t, n, s.pcs[t].role) && Solo(s, t, 3).working == s.working
  {
    PushStep(s, t);
    Mpsc.ProducerRefines(s.fifo, t);
    PushExchanges(Next(s, Go(t)), t, n);
  }

  lemma PushExchanges(s: State, t: Tid, n: Node)
    requires Inv(s) && t in s.pcs && s.pcs[t].InPush?
    requires t in s.fifo.producers && s.fifo.producers[t] == Mpsc.PushExchange(n)
    ensures PushOutcome(s, Solo(s, t, 2), t, n, s.pcs[t].role) && Solo(s, t, 2).working == s.working
  {
    PushStep(s, t);
    Mpsc.ProducerRefines(s.fifo, t);
    var s1 := Next(s, Go(t));
    PushStep(s1, t);
    Mpsc.ProducerRefines(s1.fifo, t);
    assert Solo(s, t, 2) == Solo(s1, t, 1) == Next(s1, Go(t));
  }
}
