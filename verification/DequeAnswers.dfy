/** What the deque answers its owner and the thieves, against the history of the
    atomic deque: in every run each taker is given exactly the items its own log
    entries took, and fails only for a cause it met during the call. */
module DequeAnswers {
  import opened AtomicDeque
  import opened Common
  import opened Deque
  import opened Ledger

  /** The owner is None, a thief Some of its name. */
  type Taker = Option<Tid>

  function By(a: Action): Taker {
    match a
    case Steal(t) => Some(t)
    case Thief(t) => Some(t)
    case _ => None
  }

  predicate ThiefReady(pc: ThiefPc) {
    pc.Resting? || pc.DoneSteal?
  }

  /** The action starts a call of `who`. */
  predicate Starts(s: State, a: Action, who: Taker) {
    match a
    case Push(_, _) => who == None && OwnerReady(s)
    case Pop => who == None && OwnerReady(s)
    case Steal(t) => who == Some(t) && t in s.thieves && ThiefReady(s.thieves[t])
    case _ => false
  }

  /** From `s` to `s'` the owner's operation, or the thief's, has returned. */
  predicate OwnerEnds(s: State, s': State) {
    !OwnerReady(s) && OwnerReady(s')
  }

  predicate ThiefEnds(s: State, s': State, t: Tid) {
    t in s.thieves && t in s'.thieves && !ThiefReady(s.thieves[t]) && ThiefReady(s'.thieves[t])
  }

  function ItemOf(res: Result): Option<Item> {
    if res.Got? then Some(res.v) else None
  }

  /** The item that `who` has just been given. */
  function Told(s: State, s': State, who: Taker): Option<Item> {
    match who
    case None => if OwnerEnds(s, s') && s'.owner.DonePop? then ItemOf(s'.owner.res) else None
    case Some(t) => if ThiefEnds(s, s', t) && s'.thieves[t].DoneSteal? then ItemOf(s'.thieves[t].res) else None
  }

  /** The argument of a push just told that its item is in. */
  function PushTold(s: State, s': State, v: Item): Option<Item> {
    if OwnerEnds(s, s') && s'.owner == DonePush(true) then Some(v) else None
  }

  /** `asked` and `grow` are the arguments of the owner's last push. */
  datatype Watch = Watch(asked: Item, grow: bool, puts: Book<Taker, Item>, takes: Book<Taker, Item>)

  const BLANK: Watch := Watch(0, false, Book([], []), Book([], []))

  function MayGrow(grow: bool, s: State, a: Action): bool {
    if a.Push? && Starts(s, a, None) then a.grow else grow
  }

  function Observe(w: Watch, s: State, a: Action): Watch
    requires Wf(s)
  {
    var s' := Next(s, a);
    Watch(if a.Push? && Starts(s, a, None) then a.v else w.asked, MayGrow(w.grow, s, a),
          Enter(w.puts, None, Put(s.log, s'.log), PushTold(s, s', w.asked)),
          Enter(w.takes, By(a), Taken(s.log, s'.log), Told(s, s', By(a))))
  }

  function Watched(w: Watch, s: State, sched: seq<Action>): Watch
    requires Wf(s)
    decreases |sched|
  {
    if sched == [] then w else Watched(Observe(w, s, sched[0]), Next(s, sched[0]), sched[1..])
  }

  /** The item a taker has won and not yet returned. */
  function TakenBy(s: State, who: Taker): Option<Item> {
    if who == None && s.owner.PopFinish? then ItemOf(s.owner.res) else None
  }

  ghost predicate Honest(w: Watch, s: State, who: Taker) {
    && Square(w.puts, None, None) && Square(w.takes, who, TakenBy(s, who))
    && (Pushing(s.owner) ==> w.asked == s.owner.v)
  }

  lemma PushFlows(s: State, memory: seq<Item>)
    requires Wf(s) && Pushing(s.owner)
    ensures var s' := Next(s, Owner(memory));
      && Flows(None, Put(s.log, s'.log), PushTold(s, s', s.owner.v), None)
      && Taken(s.log, s'.log) == None == Told(s, s', None) && TakenBy(s', None) == None
      && (Pushing(s'.owner) ==> s'.owner.v == s.owner.v)
  {
  }

  lemma PopFlows(s: State, memory: seq<Item>)
    requires Wf(s) && !Pushing(s.owner)
    ensures var s' := Next(s, Owner(memory));
      && Flows(TakenBy(s, None), Taken(s.log, s'.log), Told(s, s', None), TakenBy(s', None))
      && Put(s.log, s'.log) == None && (forall v :: PushTold(s, s', v) == None) && !Pushing(s'.owner)
  {
  }

  lemma ThiefFlows(s: State, t: Tid)
    requires Wf(s) && t in s.thieves
    ensures var s' := ThiefStep(s, t);
      && Flows(None, Taken(s.log, s'.log), Told(s, s', Some(t)), None)
      && Put(s.log, s'.log) == None && s'.owner == s.owner
  {
  }

  lemma CallFlows(s: State, a: Action)
    requires Wf(s) && (a.Push? || a.Pop? || a.Steal?)
    ensures var s' := Next(s, a);
      && s'.log == s.log && Told(s, s', By(a)) == None
      && TakenBy(s', None) == TakenBy(s, None) && !OwnerEnds(s, s')
      && (Pushing(s'.owner) ==> s'.owner == s.owner || (a.Push? && OwnerReady(s) && s'.owner.v == a.v))
  {
  }

  lemma OthersTakeNothing(s: State, a: Action, who: Taker)
    requires Wf(s) && By(a) != who
    ensures TakenBy(Next(s, a), who) == TakenBy(s, who)
  {
    if a.Thief? && a.t in s.thieves { ThiefFlows(s, a.t); }
  }

  lemma NextHonest(w: Watch, s: State, a: Action, who: Taker)
    requires Wf(s) && Honest(w, s, who)
    ensures Honest(Observe(w, s, a), Next(s, a), who)
  {
    var s' := Next(s, a);
    match a {
      case Owner(memory) => if Pushing(s.owner) { PushFlows(s, memory); } else { PopFlows(s, memory); }
      case Thief(t) => if t in s.thieves { ThiefFlows(s, t); }
      case _ => CallFlows(s, a);
    }
    EnterSquare(w.puts, None, Put(s.log, s'.log), PushTold(s, s', w.asked), None, None);
    if By(a) == who {
      EnterSquare(w.takes, who, Taken(s.log, s'.log), Told(s, s', who), TakenBy(s, who), TakenBy(s', who));
    } else {
      OthersTakeNothing(s, a, who);
      EnterOther(w.takes, By(a), Taken(s.log, s'.log), Told(s, s', By(a)), who, TakenBy(s, who));
    }
  }

  lemma {:induction false} RunHonest(w: Watch, s: State, sched: seq<Action>, who: Taker)
    requires Wf(s) && Honest(w, s, who)
    ensures Honest(Watched(w, s, sched), Run(s, sched), who)
    decreases |sched|
  {
    if sched == [] {
    } else {
      NextHonest(w, s, sched[0], who);
      RunHonest(Observe(w, s, sched[0]), Next(s, sched[0]), sched[1..], who);
    }
  }

  /** The books hold the whole of the log. */
  ghost predicate Complete(w: Watch, s: State) {
    Values(w.puts.done) == PutIn(s.log) && w.takes.done == TakenOut(s.log)
  }

  /** The log grows by at most one entry, signed by `who`. */
  ghost predicate Logs(log: seq<Event<Item>>, log': seq<Event<Item>>, who: Taker) {
    && log' == log + Items(Grown(log, log'))
    && (Grown(log, log').Some? ==> Signer(log'[|log|]) == who || log'[|log|].Pushed?)
  }

  lemma PopLogs(s: State)
    requires Wf(s)
    ensures Logs(s.log, PopStep(s).log, None)
  {
  }

  lemma ThiefLogs(s: State, t: Tid)
    requires Wf(s) && t in s.thieves
    ensures Logs(s.log, ThiefStep(s, t).log, Some(t))
  {
  }

  lemma NextLog(s: State, a: Action)
    requires Wf(s)
    ensures Logs(s.log, Next(s, a).log, By(a))
  {
    match a
    case Owner(memory) => if !Pushing(s.owner) { PopLogs(s); }
    case Thief(t) => if t in s.thieves { ThiefLogs(s, t); }
    case _ =>
  }

  lemma {:induction false} RunComplete(w: Watch, s: State, sched: seq<Action>)
    requires Wf(s) && Complete(w, s)
    ensures Complete(Watched(w, s, sched), Run(s, sched))
    decreases |sched|
  {
    if sched == [] {
    } else {
      var s' := Next(s, sched[0]);
      NextLog(s, sched[0]);
      LogGrows(s.log, s'.log);
      AddValues(w.puts.done, None, Put(s.log, s'.log));
      RunComplete(Observe(w, s, sched[0]), s', sched[1..]);
    }
  }

  /** In every run each thief has been given exactly the items the log says it
      stole, in order, and the owner those it popped, but for one it has won and
      not yet returned; the items the owner was told are in are exactly those
      pushed. With Deque.RunIsAtomicDeque the answers are those of one atomic
      deque. */
  lemma RunAnswers(s0: State, sched: seq<Action>)
    requires Init(s0)
    ensures var s, w := Run(s0, sched), Watched(BLANK, s0, sched);
      && w.takes.done == TakenOut(s.log)
      && (forall t :: Of(w.takes.done, Some(t)) == Of(w.takes.told, Some(t)))
      && Of(w.takes.done, None) == Of(w.takes.told, None) + Items(TakenBy(s, None))
      && Values(w.puts.done) == PutIn(s.log) && Of(w.puts.done, None) == Of(w.puts.told, None)
  {
    RunComplete(BLANK, s0, sched);
    RunHonest(BLANK, s0, sched, None);
    forall t ensures Square(Watched(BLANK, s0, sched).takes, Some(t), None) {
      RunHonest(BLANK, s0, sched, Some(t));
    }
  }

  // Failing.

  /** Why a push may be refused: the array is full. Why a pop may get nothing: no
      item. Why a steal may find none: no item, or only one that a pop in flight
      is after. */
  predicate Cause(s: State, who: Taker)
    requires Wf(s)
  {
    var live := LiveBound(s) - s.top;
    match who
    case None => if Pushing(s.owner) then live >= |s.arrays[s.cur]| - 1 else live <= 0
    case Some(_) => live <= 0 || (live == 1 && PopInFlight(s.owner))
  }

  function Takers(s: State): (r: set<Taker>)
    ensures None in r && forall t :: Some(t) in r <==> t in s.thieves
  {
    (set t | t in s.thieves :: Some(t)) + {None}
  }

  /** `xs` are the takers that have met a cause since their call began. */
  function Excuse(xs: set<Taker>, s: State, a: Action): set<Taker>
    requires Wf(s)
  {
    set who | who in Takers(s) && !Starts(s, a, who) && (who in xs || Cause(s, who))
  }

  /** `ys` are the takers since whose call somebody else has moved top. */
  function Overtake(ys: set<Taker>, s: State, a: Action): set<Taker>
    requires Wf(s)
  {
    set who | who in Takers(s) && !Starts(s, a, who) && (who in ys || (By(a) != who && Next(s, a).top != s.top))
  }

  function Excused(xs: set<Taker>, s: State, sched: seq<Action>): set<Taker>
    requires Wf(s)
    decreases |sched|
  {
    if sched == [] then xs else Excused(Excuse(xs, s, sched[0]), Next(s, sched[0]), sched[1..])
  }

  function Overtaken(ys: set<Taker>, s: State, sched: seq<Action>): set<Taker>
    requires Wf(s)
    decreases |sched|
  {
    if sched == [] then ys else Overtaken(Overtake(ys, s, sched[0]), Next(s, sched[0]), sched[1..])
  }

  ghost predicate ThiefOnCourse(excused: bool, overtaken: bool, s: State, t: Tid)
    requires t in s.thieves
  {
    match s.thieves[t]
    case StealBottom(top) => overtaken || top == s.top
    case StealArray(top, b) => (overtaken || top == s.top) && (b <= top ==> excused)
    case StealGet(top, _) => overtaken || top == s.top
    case StealCas(top, _) => overtaken || top == s.top
    case _ => true
  }

  /** What a failing answer says of the call. */
  predicate Justified(res: Result, excused: bool, overtaken: bool) {
    match res
    case Empty => excused
    case Abort => overtaken
    case Got(_) => true
  }

  predicate ThiefJustified(excused: bool, overtaken: bool, s: State, s': State, t: Tid) {
    ThiefEnds(s, s', t) && s'.thieves[t].DoneSteal? ==> Justified(s'.thieves[t].res, excused, overtaken)
  }

  lemma ThiefStaysOnCourse(excused: bool, overtaken: bool, s: State, t: Tid)
    requires Inv(s) && t in s.thieves && ThiefOnCourse(excused, overtaken, s, t)
    requires Cause(s, Some(t)) ==> excused
    ensures var s' := ThiefStep(s, t);
      ThiefOnCourse(excused, overtaken, s', t) && ThiefJustified(excused, overtaken, s, s', t)
  {
    if s.thieves[t].StealBottom? && s.bottom <= s.thieves[t].t { StealEmptyIsJustified(s, t); }
  }

  lemma OthersStay(s: State, a: Action, t: Tid)
    requires Wf(s) && t in s.thieves && By(a) != Some(t)
    ensures t in Next(s, a).thieves && Next(s, a).thieves[t] == s.thieves[t]
  {
  }

  lemma NextThiefOnCourse(xs: set<Taker>, ys: set<Taker>, s: State, a: Action, t: Tid)
    requires Inv(s) && t in s.thieves && ThiefOnCourse(Some(t) in xs, Some(t) in ys, s, t)
    ensures var s', x, y := Next(s, a), Some(t) in Excuse(xs, s, a), Some(t) in Overtake(ys, s, a);
      t in s'.thieves && ThiefOnCourse(x, y, s', t) && ThiefJustified(x, y, s, s', t)
  {
    if By(a) != Some(t) {
      OthersStay(s, a, t);
    } else if a.Thief? {
      ThiefStaysOnCourse(Some(t) in Excuse(xs, s, a), Some(t) in Overtake(ys, s, a), s, t);
    }
  }

  lemma {:induction false} RunThiefOnCourse(xs: set<Taker>, ys: set<Taker>, s: State, sched: seq<Action>, t: Tid)
    requires Inv(s) && t in s.thieves && ThiefOnCourse(Some(t) in xs, Some(t) in ys, s, t)
    ensures var s' := Run(s, sched);
      && Inv(s') && t in s'.thieves
      && ThiefOnCourse(Some(t) in Excused(xs, s, sched), Some(t) in Overtaken(ys, s, sched), s', t)
    decreases |sched|
  {
    if sched == [] {
    } else {
      NextInv(s, sched[0]);
      NextThiefOnCourse(xs, ys, s, sched[0], t);
      RunThiefOnCourse(Excuse(xs, s, sched[0]), Overtake(ys, s, sched[0]), Next(s, sched[0]), sched[1..], t);
    }
  }

  /** In every run a thief is told Abort only if somebody else moved top past the
      value it read, during the call; and Empty only if, at some moment of the
      call, nothing was there but possibly one item that a pop was after. */
  lemma RunStealFailsForCause(s0: State, sched: seq<Action>, a: Action, t: Tid)
    requires Init(s0) && t in s0.thieves
    ensures var s := Run(s0, sched);
      ThiefJustified(Some(t) in Excuse(Excused({}, s0, sched), s, a),
                     Some(t) in Overtake(Overtaken({}, s0, sched), s, a), s, Next(s, a), t)
  {
    InitInv(s0);
    RunThiefOnCourse({}, {}, s0, sched, t);
    NextThiefOnCourse(Excused({}, s0, sched), Overtaken({}, s0, sched), Run(s0, sched), a, t);
  }

  ghost predicate OwnerOnCourse(excused: bool, overtaken: bool, grow: bool, s: State)
    requires Wf(s)
  {
    match s.owner
    case PushBottom(_, g) => g == grow
    case PushTop(_, g, _) => g == grow
    case PushArray(_, g, b, t) => g == grow && (b - t >= |s.arrays[s.cur]| - 1 ==> excused)
    case PopRestore(_) => excused
    case PopGet(_, _, t) => overtaken || t == s.top
    case PopCas(t, _) => overtaken || t == s.top
    case PopFinish(_, res) => Justified(res, excused, overtaken)
    case _ => true
  }

  /** A push is refused only if the array was full and may not grow. */
  predicate OwnerJustified(excused: bool, overtaken: bool, grow: bool, s: State, s': State) {
    && (OwnerEnds(s, s') && s'.owner == DonePush(false) ==> excused && !grow)
    && (OwnerEnds(s, s') && s'.owner.DonePop? ==> Justified(s'.owner.res, excused, overtaken))
  }

  lemma PushStaysOnCourse(excused: bool, overtaken: bool, grow: bool, s: State, memory: seq<Item>)
    requires Inv(s) && Pushing(s.owner) && OwnerOnCourse(excused, overtaken, grow, s)
    requires Cause(s, None) ==> excused
    ensures var s' := PushStep(s, memory);
      OwnerOnCourse(excused, overtaken, grow, s') && OwnerJustified(excused, overtaken, grow, s, s')
  {
  }

  lemma PopStaysOnCourse(excused: bool, overtaken: bool, grow: bool, s: State)
    requires Inv(s) && !Pushing(s.owner) && OwnerOnCourse(excused, overtaken, grow, s)
    requires Cause(s, None) ==> excused
    ensures var s' := PopStep(s);
      OwnerOnCourse(excused, overtaken, grow, s') && OwnerJustified(excused, overtaken, grow, s, s')
  {
  }

  lemma OthersLeaveOwner(excused: bool, overtaken: bool, grow: bool, s: State, a: Action)
    requires Wf(s) && By(a) != None && OwnerOnCourse(excused, overtaken, grow, s)
    requires Next(s, a).top != s.top ==> overtaken
    ensures OwnerOnCourse(excused, overtaken, grow, Next(s, a)) && Next(s, a).owner == s.owner
  {
  }

  lemma CallLeavesOwner(excused: bool, overtaken: bool, grow: bool, s: State, a: Action)
    requires Wf(s) && (a.Push? || a.Pop?)
    requires !Starts(s, a, None) ==> OwnerOnCourse(excused, overtaken, grow, s)
    ensures OwnerOnCourse(excused, overtaken, MayGrow(grow, s, a), Next(s, a)) && !OwnerEnds(s, Next(s, a))
  {
  }

  /** One action, with what is known of the owner's call after it. */
  lemma ActLeavesOwner(excused: bool, overtaken: bool, grow: bool, s: State, a: Action)
    requires Inv(s) && (!Starts(s, a, None) ==> OwnerOnCourse(excused, overtaken, grow, s))
    requires !Starts(s, a, None) && Cause(s, None) ==> excused
    requires By(a) != None && Next(s, a).top != s.top ==> overtaken
    ensures var s', grow' := Next(s, a), MayGrow(grow, s, a);
      OwnerOnCourse(excused, overtaken, grow', s') && OwnerJustified(excused, overtaken, grow', s, s')
  {
    match a
    case Owner(memory) =>
      if Pushing(s.owner) {
        PushStaysOnCourse(excused, overtaken, grow, s, memory);
      } else {
        PopStaysOnCourse(excused, overtaken, grow, s);
      }
    case Steal(_) => OthersLeaveOwner(excused, overtaken, grow, s, a);
    case Thief(_) => OthersLeaveOwner(excused, overtaken, grow, s, a);
    case _ => CallLeavesOwner(excused, overtaken, grow, s, a);
  }

  lemma NextOwnerOnCourse(xs: set<Taker>, ys: set<Taker>, grow: bool, s: State, a: Action)
    requires Inv(s) && OwnerOnCourse(None in xs, None in ys, grow, s)
    ensures var s', grow' := Next(s, a), MayGrow(grow, s, a);
      var x, y := None in Excuse(xs, s, a), None in Overtake(ys, s, a);
      OwnerOnCourse(x, y, grow', s') && OwnerJustified(x, y, grow', s, s')
  {
    ActLeavesOwner(None in Excuse(xs, s, a), None in Overtake(ys, s, a), grow, s, a);
  }

  lemma {:induction false} RunOwnerOnCourse(xs: set<Taker>, ys: set<Taker>, w: Watch, s: State, sched: seq<Action>)
    requires Inv(s) && OwnerOnCourse(None in xs, None in ys, w.grow, s)
    ensures var s', grow := Run(s, sched), Watched(w, s, sched).grow;
      Inv(s') && OwnerOnCourse(None in Excused(xs, s, sched), None in Overtaken(ys, s, sched), grow, s')
    decreases |sched|
  {
    if sched == [] {
    } else {
      var a := sched[0];
      NextInv(s, a);
      NextOwnerOnCourse(xs, ys, w.grow, s, a);
      RunOwnerOnCourse(Excuse(xs, s, a), Overtake(ys, s, a), Observe(w, s, a), Next(s, a), sched[1..]);
    }
  }

  /** In every run a push is refused only if it may not grow and the array was
      full at some moment of the call; a pop is told Empty only if the deque was
      empty at some moment of the call, and Abort only if a thief moved top. */
  lemma RunOwnerFailsForCause(s0: State, sched: seq<Action>, a: Action)
    requires Init(s0)
    ensures var s, w := Run(s0, sched), Watched(BLANK, s0, sched);
      OwnerJustified(None in Excuse(Excused({}, s0, sched), s, a), None in Overtake(Overtaken({}, s0, sched), s, a),
                     MayGrow(w.grow, s, a), s, Next(s, a))
  {
    InitInv(s0);
    RunOwnerOnCourse({}, {}, BLANK, s0, sched);
    var grow := Watched(BLANK, s0, sched).grow;
    NextOwnerOnCourse(Excused({}, s0, sched), Overtaken({}, s0, sched), grow, Run(s0, sched), a);
  }

  lemma {:induction false} ThievesLeaveOwner(s: State, sched: seq<Action>)
    requires Inv(s) && forall a :: a in sched ==> By(a) != None
    ensures Inv(Run(s, sched)) && Run(s, sched).owner == s.owner
    decreases |sched|
  {
    if sched == [] {
    } else {
      NextInv(s, sched[0]);
      OwnerStays(s, sched[0]);
      ThievesLeaveOwner(Next(s, sched[0]), sched[1..]);
    }
  }

  lemma OwnerStays(s: State, a: Action)
    requires Wf(s) && By(a) != None
    ensures Next(s, a).owner == s.owner
  {
  }

  /** Who lost the race for the last item is told so: whatever the thieves do
      after the owner's CAS, the pop answers with the item if the CAS succeeded
      and Abort if it failed. */
  lemma RaceIsAnswered(s: State, sched: seq<Action>)
    requires Inv(s) && s.owner.PopCas? && forall a :: a in sched ==> By(a) != None
    ensures var s' := Next(Run(Next(s, Owner([])), sched), Owner([]));
      Inv(s') && s'.owner == DonePop(if s.top == s.owner.t then Got(s.owner.ret) else Abort)
  {
    PopCasRefines(s);
    var s1 := Next(s, Owner([]));
    ThievesLeaveOwner(s1, sched);
    var s2 := Run(s1, sched);
    PopQuietRefines(s2);
  }

  // A steal running without interference.

  function ThiefSolo(s: State, t: Tid, n: nat): (r: State)
    requires Wf(s) && t in s.thieves
    ensures Wf(r) && t in r.thieves
    decreases n
  {
    if n == 0 then s else ThiefSolo(ThiefStep(s, t), t, n - 1)
  }

  /** There is an item a thief can have: any at all, or when a pop is in flight
      any but the last. */
  predicate Stealable(s: State)
    requires 0 <= s.top <= LiveBound(s) <= |s.items|
  {
    Queue(s) != [] && !(|Queue(s)| == 1 && PopInFlight(s.owner))
  }

  /** From `s` to `s'` a steal by `t` has taken the first item, or answered Empty
      because there was none to be had. */
  ghost predicate StealOutcome(s: State, s': State, t: Tid) {
    && Inv(s) && Inv(s') && t in s'.thieves && s'.owner == s.owner
    && (if Stealable(s)
        then && s'.thieves[t] == DoneSteal(Got(Queue(s)[0])) && Queue(s') == Queue(s)[1..]
             && s'.log == s.log + [Stole(t, Queue(s)[0])]
        else s'.thieves[t] == DoneSteal(Empty) && Queue(s') == Queue(s) && s'.log == s.log)
  }

  /** A steal that nobody interferes with returns and removes the first item, and
      answers Empty exactly when there is none, or one that a pop stopped in
      flight is after; never Abort. */
  lemma StealAlone(s: State, t: Tid)
    requires Inv(s) && t in s.thieves && ThiefReady(s.thieves[t])
    ensures StealOutcome(s, ThiefSolo(Next(s, Steal(t)), t, 5), t)
  {
    GotoInv(s, t, StealTop);
    StealReadsTop(Next(s, Steal(t)), t);
  }

  lemma StealReadsTop(s: State, t: Tid)
    requires Inv(s) && t in s.thieves && s.thieves[t].StealTop?
    ensures StealOutcome(s, ThiefSolo(s, t, 5), t)
  {
    ThiefInv(s, t);
    StealReadsBottom(ThiefStep(s, t), t);
  }

  lemma StealReadsBottom(s: State, t: Tid)
    requires Inv(s) && t in s.thieves && s.thieves[t] == StealBottom(s.top)
    ensures StealOutcome(s, ThiefSolo(s, t, 4), t)
  {
    ThiefInv(s, t);
    StealEmptyIsExact(s, t);
    StealReadsArray(ThiefStep(s, t), t);
  }

  lemma StealReadsArray(s: State, t: Tid)
    requires Inv(s) && t in s.thieves && s.thieves[t].StealArray? && s.thieves[t].t == s.top
    requires Stealable(s) <==> s.thieves[t].b > s.top
    ensures StealOutcome(s, ThiefSolo(s, t, 3), t)
  {
    ThiefInv(s, t);
    var s1 := ThiefStep(s, t);
    if Stealable(s) {
      StealReadsItem(s1, t);
    } else {
      assert ThiefSolo(s1, t, 2) == ThiefSolo(s1, t, 1) == s1;
    }
  }

  lemma StealReadsItem(s: State, t: Tid)
    requires Inv(s) && t in s.thieves && s.thieves[t].StealGet? && s.thieves[t].t == s.top && Stealable(s)
    ensures StealOutcome(s, ThiefSolo(s, t, 2), t)
  {
    assert ThiefOk(s, t);
    ThiefInv(s, t);
    var s1 := ThiefStep(s, t);
    ThiefInv(s1, t);
    StealRefines(s1, t);
    assert ThiefSolo(s, t, 2) == ThiefSolo(s1, t, 1) == ThiefStep(s1, t);
  }

  // Returning.

  /** How many accesses of its own an operation can have to go. */
  function OwnerAhead(pc: OwnerPc): nat {
    match pc
    case PushBottom(_, _) => 6
    case PushTop(_, _, _) => 5
    case PushArray(_, _, _, _) => 4
    case PushInstall(_, _, _) => 3
    case PushPut(_, _, _) => 2
    case PushPublish(_, _) => 1
    case PopBottom => 7
    case PopArray(_) => 6
    case PopStore(_, _) => 5
    case PopTop(_, _) => 4
    case PopGet(_, _, _) => 3
    case PopCas(_, _) => 2
    case PopFinish(_, _) => 1
    case PopRestore(_) => 1
    case _ => 0
  }

  function ThiefAhead(pc: ThiefPc): nat {
    match pc
    case StealTop => 5
    case StealBottom(_) => 4
    case StealArray(_, _) => 3
    case StealGet(_, _) => 2
    case StealCas(_, _) => 1
    case _ => 0
  }

  function Ahead(s: State, who: Taker): nat {
    match who
    case None => OwnerAhead(s.owner)
    case Some(t) => if t in s.thieves then ThiefAhead(s.thieves[t]) else 0
  }

  /** An access of `who`, whatever memory it is given. */
  predicate Access(a: Action, who: Taker) {
    By(a) == who && (a.Owner? || a.Thief?)
  }

  predicate Nearer(pc: OwnerPc, pc': OwnerPc) {
    OwnerAhead(pc') <= if OwnerAhead(pc) == 0 then 0 else OwnerAhead(pc) - 1
  }

  lemma PushNearsEnd(s: State, memory: seq<Item>)
    requires Inv(s) && Pushing(s.owner)
    ensures Nearer(s.owner, PushStep(s, memory).owner)
  {
  }

  lemma PopNearsEnd(s: State)
    requires Inv(s) && !Pushing(s.owner)
    ensures Nearer(s.owner, PopStep(s).owner)
  {
  }

  lemma ThiefNearsEnd(s: State, t: Tid)
    requires Inv(s) && t in s.thieves
    ensures var n := ThiefAhead(s.thieves[t]);
      ThiefAhead(ThiefStep(s, t).thieves[t]) <= if n == 0 then 0 else n - 1
  {
    assert ThiefOk(s, t);
  }

  lemma StepNearsEnd(s: State, a: Action, who: Taker)
    requires Inv(s) && (Access(a, who) || By(a) != who)
    ensures Ahead(Next(s, a), who) <=
            if Access(a, who) && Ahead(s, who) > 0 then Ahead(s, who) - 1 else Ahead(s, who)
  {
    if By(a) != who {
      if who.Some? && who.value in s.thieves { OthersStay(s, a, who.value); }
      if who.None? { OwnerStays(s, a); } else { NoNewThieves(s, a); }
    } else {
      match a
      case Owner(memory) => if Pushing(s.owner) { PushNearsEnd(s, memory); } else { PopNearsEnd(s); }
      case Thief(t) => if t in s.thieves { ThiefNearsEnd(s, t); }
    }
  }

  lemma NoNewThieves(s: State, a: Action)
    requires Wf(s)
    ensures Next(s, a).thieves.Keys == s.thieves.Keys
  {
  }

  /** The accesses of `who` in a schedule. */
  function Own(sched: seq<Action>, who: Taker): nat {
    if sched == [] then 0 else (if Access(sched[0], who) then 1 else 0) + Own(sched[1..], who)
  }

  /** No operation waits: whatever the others do or leave undone, a push has
      returned after at most six accesses of its own, a pop after seven and a
      steal after five. */
  lemma {:induction false} RunReturns(s: State, sched: seq<Action>, who: Taker)
    requires Inv(s) && Own(sched, who) >= Ahead(s, who)
    requires forall a :: a in sched && By(a) == who ==> Access(a, who)
    ensures Ahead(s, who) <= (if who.Some? then 5 else if Pushing(s.owner) then 6 else 7)
    ensures who == None ==> OwnerReady(Run(s, sched))
    ensures who.Some? && who.value in Run(s, sched).thieves ==> ThiefReady(Run(s, sched).thieves[who.value])
    decreases |sched|
  {
    if sched == [] {
    } else {
      StepNearsEnd(s, sched[0], who);
      NextInv(s, sched[0]);
      RunReturns(Next(s, sched[0]), sched[1..], who);
    }
  }
}
