/** The work queue: a pair of counters over the MPSC FIFO elects one worker. */
module WorkQueue {
  import opened Common
  import Mpsc = MpscFifo

  /** `role` is what the push will return: whether its caller must start
      working. While a thread is in `InPush` or `InPop` its registers are those
      of the FIFO operation it is inside. */
  datatype Pc =
    | Idle
    | PushAdd                                   // in_count = add_and_fetch(in_count, 1)
    | InPush(role: bool)                        // inside mpsc_fifo_push
    | DonePush(role: bool)
    | InPop                                     // inside mpsc_fifo_trypop
    | GetReadOut                                // read out_count
    | GetReadIn(out: int)                       // read in_count and compare
    | GetReadOld                                // read out_count
    | GetReset(taken: int)                        // out_count = 0
    | GetSub(taken: int)                          // in_count = sub_and_fetch(in_count, taken)
    | GetReadAdd(n: Mpsc.Node)                  // read out_count
    | GetWriteAdd(n: Mpsc.Node, out: int)       // out_count = out + 1
    | DoneGet(res: Option<Mpsc.Node>)           // None is WORK_QUEUE_EMPTY

  datatype Action =
    | Push(t: Tid, n: Mpsc.Node) | GetWork(t: Tid) | Go(t: Tid) | Scribble(n: Mpsc.Node, next: Mpsc.Node, v: Item)

  /** `working` is history: the threads told to start working and not yet told
      that the queue is empty; so is `announced`, the threads that have counted
      a push and not yet exchanged its node. `raced` would record two threads
      inside the single-consumer pop at once. */
  datatype State = State(
    fifo: Mpsc.State, inCount: int, outCount: int, pcs: map<Tid, Pc>,
    working: set<Tid>, announced: set<Tid>, raced: bool)

  ghost predicate Init(s: State) {
    && Mpsc.Init(s.fifo) && s.inCount == s.outCount == 0
    && s.pcs.Keys == s.fifo.producers.Keys
    && (forall t :: t in s.pcs ==> s.pcs[t] == Idle)
    && s.working == {} && s.announced == {} && !s.raced
  }

  predicate Ready(pc: Pc) {
    pc.Idle? || pc.DonePush? || pc.DoneGet?
  }

  function Goto(s: State, t: Tid, pc: Pc): State {
    s.(pcs := s.pcs[t := pc])
  }

  function Announce(s: State, t: Tid): State {
    var n := s.inCount + 1;
    Goto(s, t, InPush(n == 1)).(
      inCount := n, announced := s.announced + {t}, working := if n == 1 then s.working + {t} else s.working)
  }

  /** One step of the FIFO push inside a work queue push. */
  function PushInside(s: State, t: Tid, role: bool): State
    requires t in s.fifo.producers
  {
    var f := Mpsc.ProducerStep(s.fifo, t);
    s.(fifo := f,
       announced := if s.fifo.producers[t].PushExchange? then s.announced - {t} else s.announced,
       pcs := s.pcs[t := if f.producers[t].DonePush? then DonePush(role) else InPush(role)])
  }

  /** Entering trypop, from get_work or from its retry loop. */
  function EnterPop(s: State, t: Tid): State {
    if Mpsc.ConsumerReady(s.fifo)
    then Goto(s, t, InPop).(fifo := s.fifo.(consumer := Mpsc.PopHead))
    else s.(raced := true)
  }

  /** One step of trypop; its result decides what get_work does next. */
  function PopInside(s: State, t: Tid): State {
    var f := Mpsc.ConsumerStep(s.fifo);
    var pc := match f.consumer
      case DonePop(None) => GetReadOut
      case DonePop(Some(n)) => GetReadAdd(n)
      case _ => InPop;
    s.(fifo := f, pcs := s.pcs[t := pc])
  }

  function Settle(s: State, t: Tid, taken: int): State {
    var n := s.inCount - taken;
    if n == 0
    then Goto(s, t, DoneGet(None)).(inCount := 0, working := s.working - {t})
    else EnterPop(s.(inCount := n), t)
  }

  function GoStep(s: State, t: Tid): State
    requires t in s.pcs
  {
    match s.pcs[t]
    case PushAdd => Announce(s, t)
    case InPush(role) => if t in s.fifo.producers then PushInside(s, t, role) else s
    case InPop => PopInside(s, t)
    case GetReadOut => Goto(s, t, GetReadIn(s.outCount))
    case GetReadIn(out) => if out == s.inCount then Goto(s, t, GetReadOld) else EnterPop(s, t)
    case GetReadOld => Goto(s, t, GetReset(s.outCount))
    case GetReset(taken) => Goto(s, t, GetSub(taken)).(outCount := 0)
    case GetSub(taken) => Settle(s, t, taken)
    case GetReadAdd(n) => Goto(s, t, GetWriteAdd(n, s.outCount))
    case GetWriteAdd(n, out) => Goto(s, t, DoneGet(Some(n))).(outCount := out + 1)
    case _ => s
  }

  function StartPush(s: State, t: Tid, n: Mpsc.Node): State {
    Goto(s, t, PushAdd).(fifo := Mpsc.Offer(s.fifo, t, n))
  }

  /** Only a thread told to start working calls get_work, and only until it is
      told the queue is empty: the rule stated for callers. */
  function Next(s: State, a: Action): State {
    match a
    case Push(t, n) =>
      if t in s.pcs && Ready(s.pcs[t]) && Mpsc.ProducerReady(s.fifo, t) && Mpsc.Free(s.fifo, n)
      then StartPush(s, t, n)
      else s
    case GetWork(t) => if t in s.pcs && Ready(s.pcs[t]) && t in s.working then EnterPop(s, t) else s
    case Go(t) => if t in s.pcs then GoStep(s, t) else s
    case Scribble(n, next, v) =>
      if Mpsc.Free(s.fifo, n) then s.(fifo := Mpsc.Overwrite(s.fifo, n, next, v)) else s
  }

  function Run(s: State, sched: seq<Action>): State
    decreases |sched|
  {
    if sched == [] then s else Run(Next(s, sched[0]), sched[1..])
  }

  // ---------------------------------------------------------------- invariant

  predicate Getting(pc: Pc) {
    || pc.InPop? || pc.GetReadOut? || pc.GetReadIn? || pc.GetReadOld?
    || pc.GetReset? || pc.GetSub? || pc.GetReadAdd? || pc.GetWriteAdd?
  }

  /** Items exchanged and not yet taken from the FIFO. */
  function Waiting(f: Mpsc.State): int {
    |f.order| - 1 - f.first
  }

  /** What the counters owe while thread `t` is inside get_work: an item taken
      and not yet counted out, or a subtraction still to be made. */
  function Owed(f: Mpsc.State, pc: Pc): int {
    match pc
    case InPop => if Mpsc.Handing(f.consumer) then 1 else 0
    case GetReadAdd(_) => 1
    case GetWriteAdd(_, _) => 1
    case GetSub(taken) => taken
    case _ => 0
  }

  ghost predicate PcOk(s: State, t: Tid)
    requires t in s.pcs
  {
    && t in s.fifo.producers
    && (Getting(s.pcs[t]) ==> t in s.working)
    && (t in s.announced <==>
          s.pcs[t].InPush? && (s.fifo.producers[t].PushTerminate? || s.fifo.producers[t].PushExchange?))
    && match s.pcs[t]
       case PushAdd => s.fifo.producers[t].PushTerminate?
       case InPush(_) => !Mpsc.ProducerReady(s.fifo, t)
       case GetReadIn(out) => out == s.outCount && Mpsc.ProducerReady(s.fifo, t)
       case GetReadOld => s.outCount <= s.inCount && Mpsc.ProducerReady(s.fifo, t)
       case GetReset(taken) => taken == s.outCount <= s.inCount && Mpsc.ProducerReady(s.fifo, t)
       case GetSub(taken) => s.outCount == 0 && taken <= s.inCount && Mpsc.ProducerReady(s.fifo, t)
       case GetWriteAdd(_, out) => out == s.outCount && Mpsc.ProducerReady(s.fifo, t)
       case _ => Mpsc.ProducerReady(s.fifo, t)
  }

  /** The counters add up: `owed` is what the worker's registers still owe. */
  ghost predicate Balanced(s: State, owed: int) {
    s.inCount == s.outCount + owed + |s.announced| + Waiting(s.fifo)
  }

  predicate InsidePop(c: Mpsc.ConsumerPc) {
    c.PopHead? || c.PopNext? || c.PopAdvance? || c.PopRead? || c.PopWrite?
  }

  /** At most one thread is working; none exactly when in_count is zero. */
  ghost predicate OneWorker(s: State) {
    && s.working <= s.pcs.Keys
    && (s.working == {} <==> s.inCount == 0)
    && (forall t, u :: t in s.working && u in s.working ==> t == u)
  }

  ghost predicate CountersOk(s: State) {
    && s.outCount >= 0 && s.inCount >= 0 && s.announced <= s.pcs.Keys && s.working <= s.pcs.Keys
    && (forall t :: t in s.working ==> Balanced(s, Owed(s.fifo, s.pcs[t])))
    && (s.working == {} ==> Balanced(s, 0) && s.outCount == 0)
  }

  /** Only the worker is ever inside the single-consumer pop. */
  ghost predicate ConsumerFits(s: State) {
    && !s.raced && s.working <= s.pcs.Keys
    && (s.fifo.consumer.Resting? || s.fifo.consumer.DonePop? || InsidePop(s.fifo.consumer))
    && (forall t :: t in s.working ==> (s.pcs[t].InPop? <==> InsidePop(s.fifo.consumer)))
    && (s.working == {} ==> !InsidePop(s.fifo.consumer))
  }

  ghost predicate Inv(s: State) {
    && Mpsc.Inv(s.fifo) && OneWorker(s) && CountersOk(s) && ConsumerFits(s)
    && forall t :: t in s.pcs ==> PcOk(s, t)
  }

  // Every step keeps the invariant.

  lemma AnnounceInv(s: State, t: Tid)
    requires Inv(s) && t in s.pcs && s.pcs[t].PushAdd?
    ensures Inv(Announce(s, t))
    ensures Announce(s, t).pcs[t] == InPush(s.working == {})
  {
    var s' := Announce(s, t);
    assert PcOk(s, t);
    assert |s'.announced| == |s.announced| + 1;
    forall u | u in s.pcs ensures PcOk(s', u) {
      assert PcOk(s, u);
    }
  }

  lemma PushInsidePc(s: State, t: Tid, role: bool, u: Tid)
    requires t in s.pcs && u in s.pcs && s.pcs[t] == InPush(role) && PcOk(s, t) && PcOk(s, u)
    ensures PcOk(PushInside(s, t, role), u)
  {
  }

  lemma PushInsideCounts(s: State, t: Tid, role: bool)
    requires t in s.pcs && s.pcs[t] == InPush(role) && PcOk(s, t) && OneWorker(s) && CountersOk(s) && ConsumerFits(s)
    ensures var s' := PushInside(s, t, role);
      OneWorker(s') && CountersOk(s') && ConsumerFits(s')
  {
    var s' := PushInside(s, t, role);
    if s.fifo.producers[t].PushExchange? {
      assert |s'.announced| == |s.announced| - 1;
    }
  }

  lemma PushInsideInv(s: State, t: Tid, role: bool)
    requires Inv(s) && t in s.pcs && s.pcs[t] == InPush(role)
    ensures t in s.fifo.producers && Inv(PushInside(s, t, role))
  {
    assert PcOk(s, t);
    Mpsc.ProducerInv(s.fifo, t);
    PushInsideCounts(s, t, role);
    forall u | u in s.pcs ensures PcOk(PushInside(s, t, role), u) {
      PushInsidePc(s, t, role, u);
    }
  }

  lemma EnterPopInv(s: State, t: Tid)
    requires Inv(s) && t in s.working && !s.pcs[t].InPop? && Mpsc.ProducerReady(s.fifo, t)
    requires Owed(s.fifo, s.pcs[t]) == 0
    ensures Inv(EnterPop(s, t)) && EnterPop(s, t).pcs[t] == InPop
  {
    Mpsc.CallInv(s.fifo, Mpsc.PopHead);
    var s' := EnterPop(s, t);
    forall u | u in s.pcs ensures PcOk(s', u) {
      assert PcOk(s, u);
    }
  }

  lemma PopInsidePc(s: State, t: Tid, u: Tid)
    requires t in s.pcs && u in s.pcs && s.pcs[t].InPop? && PcOk(s, t) && PcOk(s, u)
    ensures PcOk(PopInside(s, t), u)
  {
    if u == t { PopInsideOwnPc(s, t); }
  }

  lemma PopInsideOwnPc(s: State, t: Tid)
    requires t in s.pcs && s.pcs[t].InPop? && PcOk(s, t)
    ensures PcOk(PopInside(s, t), t)
  {
  }

  lemma PopInsideCounts(s: State, t: Tid)
    requires t in s.pcs && s.pcs[t].InPop? && PcOk(s, t) && OneWorker(s) && CountersOk(s) && ConsumerFits(s)
    ensures var s' := PopInside(s, t);
      OneWorker(s') && CountersOk(s') && ConsumerFits(s')
  {
    PopInsideConsumer(s, t);
    PopInsideCounters(s, t);
  }

  lemma PopInsideConsumer(s: State, t: Tid)
    requires t in s.pcs && s.pcs[t].InPop? && PcOk(s, t) && OneWorker(s) && ConsumerFits(s)
    ensures OneWorker(PopInside(s, t)) && ConsumerFits(PopInside(s, t))
  {
  }

  lemma PopInsideCounters(s: State, t: Tid)
    requires t in s.pcs && s.pcs[t].InPop? && PcOk(s, t) && OneWorker(s) && CountersOk(s) && ConsumerFits(s)
    ensures CountersOk(PopInside(s, t))
  {
    if s.fifo.consumer.PopHead? || s.fifo.consumer.PopNext? {
      LookKeepsCounters(s, t);
    } else {
      TakeKeepsCounters(s, t);
    }
  }

  lemma LookKeepsCounters(s: State, t: Tid)
    requires t in s.pcs && s.pcs[t].InPop? && t in s.working && OneWorker(s) && CountersOk(s)
    requires s.fifo.consumer.PopHead? || s.fifo.consumer.PopNext?
    ensures CountersOk(PopInside(s, t))
  {
  }

  lemma TakeKeepsCounters(s: State, t: Tid)
    requires t in s.pcs && s.pcs[t].InPop? && t in s.working && OneWorker(s) && CountersOk(s)
    requires s.fifo.consumer.PopAdvance? || s.fifo.consumer.PopRead? || s.fifo.consumer.PopWrite?
    ensures CountersOk(PopInside(s, t))
  {
  }

  lemma PopInsideInv(s: State, t: Tid)
    requires Inv(s) && t in s.pcs && s.pcs[t].InPop?
    ensures Inv(PopInside(s, t))
  {
    assert PcOk(s, t);
    Mpsc.ConsumerInv(s.fifo);
    PopInsideCounts(s, t);
    forall u | u in s.pcs ensures PcOk(PopInside(s, t), u) {
      PopInsidePc(s, t, u);
    }
  }

  lemma ResetInv(s: State, t: Tid, taken: int)
    requires Inv(s) && t in s.pcs && s.pcs[t] == GetReset(taken)
    ensures Inv(Goto(s, t, GetSub(taken)).(outCount := 0))
  {
    var s' := Goto(s, t, GetSub(taken)).(outCount := 0);
    assert PcOk(s, t);
    forall u | u in s.pcs ensures PcOk(s', u) {
      assert PcOk(s, u);
    }
  }

  /** The subtraction comes out at zero: the worker is let go. */
  lemma SettleZero(s: State, t: Tid, taken: int)
    requires Inv(s) && t in s.pcs && s.pcs[t] == GetSub(taken) && s.inCount == taken
    ensures Inv(Settle(s, t, taken))
  {
    assert PcOk(s, t);
    var s' := Settle(s, t, taken);
    forall u | u in s.pcs ensures PcOk(s', u) {
      assert PcOk(s, u);
    }
  }

  /** The subtraction leaves work: the worker goes on. */
  lemma SettleMore(s: State, t: Tid, taken: int)
    requires Inv(s) && t in s.pcs && s.pcs[t] == GetSub(taken) && s.inCount != taken
    ensures Inv(Settle(s, t, taken))
  {
    var s1 := Subtracted(s, t, taken);
    EnterPopInv(s1, t);
    assert s1.pcs[t := InPop] == s.pcs[t := InPop];
  }

  lemma Subtracted(s: State, t: Tid, taken: int) returns (s1: State)
    requires Inv(s) && t in s.pcs && s.pcs[t] == GetSub(taken) && s.inCount != taken
    ensures s1 == Goto(s, t, DoneGet(None)).(inCount := s.inCount - taken)
    ensures Inv(s1) && t in s1.working && Mpsc.ProducerReady(s1.fifo, t)
  {
    s1 := Goto(s, t, DoneGet(None)).(inCount := s.inCount - taken);
    assert PcOk(s, t);
    forall u | u in s.pcs ensures PcOk(s1, u) {
      assert PcOk(s, u);
    }
  }

  lemma GotoInv(s: State, t: Tid, pc: Pc)
    requires Inv(s) && t in s.working && !s.pcs[t].InPop? && !pc.InPop? && Owed(s.fifo, pc) == Owed(s.fifo, s.pcs[t])
    requires PcOk(s, t) && PcOk(Goto(s, t, pc), t)
    ensures Inv(Goto(s, t, pc))
  {
    forall u | u in s.pcs ensures PcOk(Goto(s, t, pc), u) {
      assert PcOk(s, u);
    }
  }

  lemma CountOutInv(s: State, t: Tid)
    requires Inv(s) && t in s.pcs && s.pcs[t].GetWriteAdd?
    ensures Inv(GoStep(s, t))
  {
    assert PcOk(s, t);
    forall u | u in s.pcs ensures PcOk(GoStep(s, t), u) {
      assert PcOk(s, u);
    }
  }

  lemma GetInv(s: State, t: Tid)
    requires Inv(s) && t in s.pcs && Getting(s.pcs[t])
    ensures Inv(GoStep(s, t))
  {
    assert PcOk(s, t);
    match s.pcs[t]
    case InPop => PopInsideInv(s, t);
    case GetReadOut => GotoInv(s, t, GetReadIn(s.outCount));
    case GetReadIn(out) => if out == s.inCount { GotoInv(s, t, GetReadOld); } else { EnterPopInv(s, t); }
    case GetReadOld => GotoInv(s, t, GetReset(s.outCount));
    case GetReset(taken) => ResetInv(s, t, taken);
    case GetSub(taken) => if s.inCount == taken { SettleZero(s, t, taken); } else { SettleMore(s, t, taken); }
    case GetReadAdd(n) => GotoInv(s, t, GetWriteAdd(n, s.outCount));
    case GetWriteAdd(_, _) => CountOutInv(s, t);
  }

  lemma GoInv(s: State, t: Tid)
    requires Inv(s) && t in s.pcs
    ensures Inv(GoStep(s, t))
  {
    if Getting(s.pcs[t]) {
      GetInv(s, t);
    } else if s.pcs[t].PushAdd? {
      AnnounceInv(s, t);
    } else if s.pcs[t].InPush? {
      PushInsideInv(s, t, s.pcs[t].role);
    }
  }

  lemma CallPushInv(s: State, t: Tid, n: Mpsc.Node)
    requires Inv(s) && t in s.pcs && Ready(s.pcs[t]) && Mpsc.ProducerReady(s.fifo, t) && Mpsc.Free(s.fifo, n)
    ensures Inv(Next(s, Push(t, n)))
  {
    Mpsc.OfferInv(s.fifo, t, n);
    assert PcOk(s, t);
    CallPushCounts(s, t, n);
    forall u | u in s.pcs ensures PcOk(StartPush(s, t, n), u) {
      CallPushPc(s, t, n, u);
    }
  }

  lemma CallPushCounts(s: State, t: Tid, n: Mpsc.Node)
    requires t in s.pcs && Ready(s.pcs[t]) && OneWorker(s) && CountersOk(s) && ConsumerFits(s)
    ensures var s' := StartPush(s, t, n);
      OneWorker(s') && CountersOk(s') && ConsumerFits(s')
  {
  }

  lemma CallPushPc(s: State, t: Tid, n: Mpsc.Node, u: Tid)
    requires t in s.pcs && u in s.pcs && Ready(s.pcs[t]) && PcOk(s, t) && PcOk(s, u)
    ensures PcOk(StartPush(s, t, n), u)
  {
  }

  lemma ScribbleInv(s: State, n: Mpsc.Node, next: Mpsc.Node, v: Item)
    requires Inv(s) && Mpsc.Free(s.fifo, n)
    ensures Inv(Next(s, Scribble(n, next, v)))
  {
    Mpsc.OverwriteInv(s.fifo, n, next, v);
    var s' := Next(s, Scribble(n, next, v));
    forall u | u in s.pcs ensures PcOk(s', u) {
      assert PcOk(s, u);
    }
  }

  lemma NextInv(s: State, a: Action)
    requires Inv(s)
    ensures Inv(Next(s, a))
  {
    match a
    case Push(t, n) =>
      if t in s.pcs && Ready(s.pcs[t]) && Mpsc.ProducerReady(s.fifo, t) && Mpsc.Free(s.fifo, n) {
        CallPushInv(s, t, n);
      }
    case GetWork(t) =>
      if t in s.pcs && Ready(s.pcs[t]) && t in s.working {
        assert PcOk(s, t);
        EnterPopInv(s, t);
      }
    case Go(t) => if t in s.pcs { GoInv(s, t); }
    case Scribble(n, next, v) => if Mpsc.Free(s.fifo, n) { ScribbleInv(s, n, next, v); }
  }

  lemma {:induction false} RunInv(s: State, sched: seq<Action>)
    requires Inv(s)
    ensures Inv(Run(s, sched))
    decreases |sched|
  {
    if sched == [] {
    } else {
      NextInv(s, sched[0]);
      RunInv(Next(s, sched[0]), sched[1..]);
    }
  }

  lemma InitInv(s: State)
    requires Init(s)
    ensures Inv(s)
  {
    Mpsc.InitInv(s.fifo);
  }

  // ------------------------------------------------------------- main results

  /** In every run at most one thread is working, no two are ever inside the
      single-consumer pop, and as long as a counted push has not been handed out
      some thread has been told to work: nothing is stranded. Everything handed
      out is, in order, what was pushed first. */
  lemma RunHasOneWorker(s0: State, sched: seq<Action>)
    requires Init(s0)
    ensures var s := Run(s0, sched);
      && |s.working| <= 1 && !s.raced
      && (forall t :: t in s.pcs && Getting(s.pcs[t]) ==> s.working == {t})
      && (s.announced != {} || Waiting(s.fifo) > 0 ==> s.working != {})
      && s.fifo.first < |s.fifo.vals| && s.fifo.popped <= s.fifo.vals[1..]
  {
    InitInv(s0);
    RunInv(s0, sched);
    var s := Run(s0, sched);
    AtMostOne(s);
    NothingStranded(s);
    forall t | t in s.pcs && Getting(s.pcs[t]) ensures s.working == {t} {
      assert PcOk(s, t);
    }
  }

  lemma AtMostOne(s: State)
    requires OneWorker(s)
    ensures |s.working| <= 1
  {
    if s.working != {} {
      var w :| w in s.working;
      assert s.working == {w};
    }
  }

  lemma NothingStranded(s: State)
    requires Mpsc.Counts(s.fifo) && OneWorker(s) && CountersOk(s)
    ensures s.announced != {} || Waiting(s.fifo) > 0 ==> s.working != {}
  {
    if s.announced != {} {
      var a :| a in s.announced;
      assert |s.announced| == 1 + |s.announced - {a}|;
    }
  }

  /** The counters balance at every step of every run: in_count minus out_count
      is the number of pushes counted and not yet handed out, corrected by what
      the worker's registers still owe. */
  lemma RunBalances(s0: State, sched: seq<Action>)
    requires Init(s0)
    ensures var s := Run(s0, sched);
      && (forall t :: t in s.working ==> t in s.pcs && Balanced(s, Owed(s.fifo, s.pcs[t])))
      && (s.working == {} ==> s.inCount == s.outCount == 0 == |s.announced| && Waiting(s.fifo) == 0)
  {
    InitInv(s0);
    RunInv(s0, sched);
  }

  /** The push that finds nobody working is the one elected, and the only one. */
  lemma FirstPushIsElected(s: State, t: Tid)
    requires Inv(s) && t in s.pcs && s.pcs[t].PushAdd?
    ensures var s' := GoStep(s, t);
      && Inv(s')
      && s'.pcs[t] == InPush(s.working == {})
      && s'.working == (if s.working == {} then {t} else s.working)
      && s'.announced == s.announced + {t}
  {
    AnnounceInv(s, t);
  }

  /** EMPTY is returned exactly when, at the subtraction, every counted push has
      been handed out and every push in flight is uncounted; its receiver is
      then no longer the worker. Otherwise it stays the worker and looks again. */
  lemma EmptyMeansAllDelivered(s: State, t: Tid)
    requires Inv(s) && t in s.pcs && s.pcs[t].GetSub?
    ensures var s' := GoStep(s, t);
      && Inv(s') && s.working == {t}
      && (s'.pcs[t] == DoneGet(None) <==> s.announced == {} && Mpsc.Queue(s.fifo) == [])
      && (s'.pcs[t] == DoneGet(None) ==>
            s'.working == {} && s'.inCount == 0 && s.fifo.popped == s.fifo.vals[1..] && s.fifo.pending == map[])
      && (s'.pcs[t] != DoneGet(None) ==> s'.working == {t} && s'.pcs[t] == InPop)
  {
    assert PcOk(s, t);
    GoInv(s, t);
    assert s.working == {t};
    assert Balanced(s, s.pcs[t].taken);
    if s.inCount != s.pcs[t].taken {
      var s1 := Subtracted(s, t, s.pcs[t].taken);
      EnterPopInv(s1, t);
    }
  }

  // ------------------------------------------------------------ in-place form

  /** Callers push, and write, only nodes they own, and only the thread told to
      work asks for work. */
  ghost predicate Allowed(s: State, a: Action) {
    match a
    case Push(t, n) => t in s.pcs && Ready(s.pcs[t]) && Mpsc.ProducerReady(s.fifo, t) ==> Mpsc.Free(s.fifo, n)
    case GetWork(t) => t in s.pcs && Ready(s.pcs[t]) ==> t in s.working
    case Scribble(n, next, v) => Mpsc.Free(s.fifo, n)
    case _ => true
  }

  ghost predicate Obeys(s: State, sched: seq<Action>)
    decreases |sched|
  {
    sched == [] || (Allowed(s, sched[0]) && Obeys(Next(s, sched[0]), sched[1..]))
  }

  class Queue {
    const fifo: Mpsc.Fifo
    var inCount: int
    var outCount: int
    var pcs: map<Tid, Pc>
    ghost var working: set<Tid>
    ghost var announced: set<Tid>
    ghost var raced: bool

    ghost function View(): State
      reads this, fifo
    {
      State(fifo.View(), inCount, outCount, pcs, working, announced, raced)
    }

    constructor (fifo: Mpsc.Fifo)
      requires Mpsc.Init(fifo.View())
      ensures Init(View()) && this.fifo == fifo
    {
      this.fifo := fifo;
      inCount, outCount := 0, 0;
      pcs := map t | t in fifo.producers :: Idle;
      working, announced, raced := {}, {}, false;
    }

    /** Begins a trypop; another one in progress would be a race. */
    method Enter(t: Tid)
      modifies this, fifo
      ensures View() == EnterPop(old(View()), t)
    {
      if fifo.consumer.Resting? || fifo.consumer.DonePop? || fifo.consumer.DonePeek? {
        fifo.consumer := Mpsc.PopHead;
        pcs := pcs[t := InPop];
      } else {
        raced := true;
      }
    }

    /** One step of thread `t`'s work_queue_push. */
    method PushAccess(t: Tid)
      requires t in pcs && t in fifo.producers && (pcs[t].PushAdd? || pcs[t].InPush?)
      modifies this, fifo
      ensures View() == GoStep(old(View()), t)
    {
      match pcs[t]
      case PushAdd =>
        inCount := inCount + 1;
        announced, working := announced + {t}, if inCount == 1 then working + {t} else working;
        pcs := pcs[t := InPush(inCount == 1)];
      case InPush(role) =>
        announced := if fifo.producers[t].PushExchange? then announced - {t} else announced;
        fifo.ProducerAccess(t);
        pcs := pcs[t := if fifo.producers[t].DonePush? then DonePush(role) else InPush(role)];
    }

    /** One step of the trypop inside get_work. */
    method PopAccess(t: Tid)
      modifies this, fifo
      ensures View() == PopInside(old(View()), t)
    {
      fifo.ConsumerAccess();
      match fifo.consumer {
        case DonePop(None) => pcs := pcs[t := GetReadOut];
        case DonePop(Some(n)) => pcs := pcs[t := GetReadAdd(n)];
        case _ => pcs := pcs[t := InPop];
      }
    }

    method Subtract(t: Tid, taken: int)
      modifies this, fifo
      ensures View() == Settle(old(View()), t, taken)
    {
      inCount := inCount - taken;
      if inCount == 0 {
        working := working - {t};
        pcs := pcs[t := DoneGet(None)];
      } else {
        Enter(t);
      }
    }

    /** One step of thread `t`'s work_queue_get_work. */
    method GetAccess(t: Tid)
      requires t in pcs && Getting(pcs[t])
      modifies this, fifo
      ensures View() == GoStep(old(View()), t)
    {
      match pcs[t]
      case InPop => PopAccess(t);
      case GetReadOut => pcs := pcs[t := GetReadIn(outCount)];
      case GetReadIn(out) =>
        if out == inCount { pcs := pcs[t := GetReadOld]; } else { Enter(t); }
      case GetReadOld => pcs := pcs[t := GetReset(outCount)];
      case GetReset(taken) =>
        outCount := 0;
        pcs := pcs[t := GetSub(taken)];
      case GetSub(taken) => Subtract(t, taken);
      case GetReadAdd(n) => pcs := pcs[t := GetWriteAdd(n, outCount)];
      case GetWriteAdd(n, out) =>
        outCount := out + 1;
        pcs := pcs[t := DoneGet(Some(n))];
    }

    method Perform(a: Action)
      requires Inv(View()) && Allowed(View(), a)
      modifies this, fifo
      ensures View() == Next(old(View()), a)
    {
      match a
      case Push(t, n) =>
        var ready := t in fifo.producers && (fifo.producers[t].Idle? || fifo.producers[t].DonePush?);
        if t in pcs && Ready(pcs[t]) && ready {
          fifo.Give(t, n);
          pcs := pcs[t := PushAdd];
        }
      case GetWork(t) => if t in pcs && Ready(pcs[t]) { Enter(t); }
      case Go(t) => if t in pcs { Advance(t); }
      case Scribble(n, nx, v) => fifo.Write(n, nx, v);
    }

    method Advance(t: Tid)
      requires Inv(View()) && t in pcs
      modifies this, fifo
      ensures View() == GoStep(old(View()), t)
    {
      assert PcOk(View(), t);
      if pcs[t].PushAdd? || pcs[t].InPush? {
        PushAccess(t);
      } else if Getting(pcs[t]) {
        GetAccess(t);
      }
    }

    /** Any interleaving, performed in place. */
    method Interleave(sched: seq<Action>)
      requires Inv(View()) && Obeys(View(), sched)
      modifies this, fifo
      ensures View() == Run(old(View()), sched) && Inv(View())
    {
      for i := 0 to |sched|
        invariant Inv(View()) && Obeys(View(), sched[i..])
        invariant Run(old(View()), sched) == Run(View(), sched[i..])
      {
        NextInv(View(), sched[i]);
        assert sched[i..][1..] == sched[i + 1..];
        Perform(sched[i]);
      }
    }
  }
}
