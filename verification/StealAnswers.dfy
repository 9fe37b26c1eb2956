/** What the steal buffer answers the master and the thieves, against what their
    steps claimed: in every run each taker is told exactly the items at the
    indices it claimed and kept, and fails only for a cause it met in the call. */
module StealAnswers {
  import opened Common
  import opened Ledger
  import opened StealBuffer

  /** The master is None, a thief Some of its name. */
  type Taker = Option<Tid>

  function By(a: Action): Taker {
    match a
    case Steal(t) => Some(t)
    case Thief(t) => Some(t)
    case _ => None
  }

  predicate ThiefReady(pc: ThiefPc) {
    pc.Resting? || pc.DoneSteal?
  }

  /** The action starts a call of `who`. */
  predicate Starts(s: State, a: Action, who: Taker) {
    match a
    case Push(_) => who == None && MasterReady(s)
    case Pop => who == None && MasterReady(s)
    case Steal(t) => who == Some(t) && t in s.thieves && ThiefReady(s.thieves[t])
    case _ => false
  }

  /** From `s` to `s'` the master's operation, or the thief's, has returned. */
  predicate MasterEnds(s: State, s': State) {
    !MasterReady(s) && MasterReady(s')
  }

  predicate ThiefEnds(s: State, s': State, t: Tid) {
    t in s.thieves && t in s'.thieves && !ThiefReady(s.thieves[t]) && ThiefReady(s'.thieves[t])
  }

  /** The item that `who` has just been given. */
  function Told(s: State, s': State, who: Taker): Option<Item> {
    match who
    case None => if MasterEnds(s, s') && s'.master.DonePop? then s'.master.res else None
    case Some(t) =>
      if ThiefEnds(s, s', t) && s'.thieves[t].DoneSteal? && s'.thieves[t].res.Success?
      then Some(s'.thieves[t].res.v) else None
  }

  /** The item pushed at an index just claimed for good. */
  function Claimed(s: State, s': State): Option<Item> {
    match Grown(s.claims, s'.claims)
    case Some(c) => if c.kept && c.idx < |s'.pushed| then Some(s'.pushed[c.idx]) else None
    case None => None
  }

  /** The argument of a push just told that its item is in. */
  function PushTold(s: State, s': State, v: Item): Option<Item> {
    if MasterEnds(s, s') && s'.master == DonePush(true) then Some(v) else None
  }

  /** `asked` is the argument of the master's last push. */
  datatype Watch = Watch(asked: Item, puts: Book<Taker, Item>, takes: Book<Taker, Item>)

  const BLANK: Watch := Watch(0, Book([], []), Book([], []))

  function Observe(w: Watch, s: State, a: Action): Watch
    requires Wf(s)
  {
    var s' := Next(s, a);
    Watch(if a.Push? && Starts(s, a, None) then a.v else w.asked,
          Enter(w.puts, None, Grown(s.pushed, s'.pushed), PushTold(s, s', w.asked)),
          Enter(w.takes, By(a), Claimed(s, s'), Told(s, s', By(a))))
  }

  function Watched(w: Watch, s: State, sched: seq<Action>): Watch
    requires Wf(s)
    decreases |sched|
  {
    if sched == [] then w else Watched(Observe(w, s, sched[0]), Next(s, sched[0]), sched[1..])
  }

  /** The item a taker has claimed and not yet returned. */
  function TakenBy(s: State, who: Taker): Option<Item> {
    if who == None && s.master.PopRead? && 0 < s.master.newLow <= |s.pushed|
    then Some(s.pushed[s.master.newLow - 1]) else None
  }

  predicate Pushing(pc: MasterPc) {
    pc.PushHigh? || pc.PushLow? || pc.PushStore? || pc.PushPublish?
  }

  ghost predicate Honest(w: Watch, s: State, who: Taker) {
    && Square(w.puts, None, None) && Square(w.takes, who, TakenBy(s, who))
    && (Pushing(s.master) ==> w.asked == s.master.v)
  }

  lemma MasterPushFlows(s: State)
    requires Inv(s) && !Popping(s.master)
    ensures var s' := MasterStep(s);
      && Flows(None, Grown(s.pushed, s'.pushed), PushTold(s, s', if Pushing(s.master) then s.master.v else 0), None)
      && s'.claims == s.claims && Told(s, s', None) == None && TakenBy(s, None) == None == TakenBy(s', None)
      && (Pushing(s'.master) ==> Pushing(s.master) && s'.master.v == s.master.v)
      && (!Pushing(s.master) ==> s' == s)
  {
  }

  lemma MasterPopFlows(s: State)
    requires Inv(s) && Popping(s.master)
    ensures var s' := MasterStep(s);
      && Flows(TakenBy(s, None), Claimed(s, s'), Told(s, s', None), TakenBy(s', None))
      && s'.pushed == s.pushed && (forall v :: PushTold(s, s', v) == None) && !Pushing(s'.master)
  {
  }

  lemma ThiefFlows(s: State, t: Tid)
    requires Inv(s) && t in s.thieves
    ensures var s' := ThiefStep(s, t);
      && Flows(None, Claimed(s, s'), Told(s, s', Some(t)), None)
      && s'.pushed == s.pushed && s'.master == s.master
  {
    assert ThiefOk(s, t);
  }

  lemma CallFlows(s: State, a: Action)
    requires Inv(s) && (a.Push? || a.Pop? || a.Steal?)
    ensures var s' := Next(s, a);
      && s'.pushed == s.pushed && s'.claims == s.claims && Told(s, s', By(a)) == None
      && TakenBy(s', None) == TakenBy(s, None) && !MasterEnds(s, s')
      && (Pushing(s'.master) ==> s'.master == s.master || (a.Push? && MasterReady(s) && s'.master.v == a.v))
  {
  }

  /** A taker's books are touched only by its own actions. */
  lemma OthersTakeNothing(s: State, a: Action, who: Taker)
    requires Inv(s) && By(a) != who
    ensures TakenBy(Next(s, a), who) == TakenBy(s, who)
  {
  }

  lemma NextHonest(w: Watch, s: State, a: Action, who: Taker)
    requires Inv(s) && Honest(w, s, who)
    ensures Honest(Observe(w, s, a), Next(s, a), who)
  {
    var s' := Next(s, a);
    match a {
      case Master => if Popping(s.master) { MasterPopFlows(s); } else { MasterPushFlows(s); }
      case Thief(t) => if t in s.thieves { ThiefFlows(s, t); }
      case _ => CallFlows(s, a);
    }
    EnterSquare(w.puts, None, Grown(s.pushed, s'.pushed), PushTold(s, s', w.asked), None, None);
    if By(a) == who {
      EnterSquare(w.takes, who, Claimed(s, s'), Told(s, s', who), TakenBy(s, who), TakenBy(s', who));
    } else {
      OthersTakeNothing(s, a, who);
      EnterOther(w.takes, By(a), Claimed(s, s'), Told(s, s', By(a)), who, TakenBy(s, who));
    }
  }

  lemma {:induction false} RunHonest(w: Watch, s: State, sched: seq<Action>, who: Taker)
    requires Inv(s) && Honest(w, s, who)
    ensures Honest(Watched(w, s, sched), Run(s, sched), who)
    decreases |sched|
  {
    if sched == [] {
    } else {
      NextHonest(w, s, sched[0], who);
      NextInv(s, sched[0]);
      RunHonest(Observe(w, s, sched[0]), Next(s, sched[0]), sched[1..], who);
    }
  }

  /** Who claimed an index for good, with the item pushed there, in the order of
      the claims. */
  function KeptBy(claims: seq<Claim>, pushed: seq<Item>): seq<Entry<Taker, Item>> {
    if claims == [] then []
    else
      var c := claims[|claims| - 1];
      KeptBy(claims[..|claims| - 1], pushed) +
      (if c.kept && c.idx < |pushed| then [Entry(c.thief, pushed[c.idx])] else [])
  }

  lemma {:induction false} PushKeepsItems(claims: seq<Claim>, pushed: seq<Item>, pushed': seq<Item>)
    requires pushed <= pushed' && forall k :: 0 <= k < |claims| ==> claims[k].idx < |pushed|
    ensures KeptBy(claims, pushed') == KeptBy(claims, pushed)
  {
    if claims == [] {
    } else {
      PushKeepsItems(claims[..|claims| - 1], pushed, pushed');
    }
  }

  /** The books hold the whole of both histories. */
  ghost predicate Complete(w: Watch, s: State) {
    Values(w.puts.done) == s.pushed && w.takes.done == KeptBy(s.claims, s.pushed)
  }

  lemma NextGrows(s: State, a: Action)
    requires Inv(s)
    ensures var s' := Next(s, a);
      && s'.pushed == s.pushed + Items(Grown(s.pushed, s'.pushed))
      && s'.claims == s.claims + Items(Grown(s.claims, s'.claims))
      && (Grown(s.claims, s'.claims).Some? ==> s'.claims[|s.claims|].thief == By(a))
  {
    if a.Thief? && a.t in s.thieves { assert ThiefOk(s, a.t); }
  }

  lemma KeptGrows(s: State, s': State, who: Taker)
    requires s'.claims == s.claims + Items(Grown(s.claims, s'.claims)) && s.pushed <= s'.pushed
    requires Grown(s.claims, s'.claims).Some? ==> s'.claims[|s.claims|].thief == who
    requires forall k :: 0 <= k < |s.claims| ==> s.claims[k].idx < |s.pushed|
    ensures KeptBy(s'.claims, s'.pushed) == Add(KeptBy(s.claims, s.pushed), who, Claimed(s, s'))
  {
    PushKeepsItems(s.claims, s.pushed, s'.pushed);
    if Grown(s.claims, s'.claims).Some? {
      assert s'.claims[..|s'.claims| - 1] == s.claims;
      assert s'.claims[|s'.claims| - 1] == s'.claims[|s.claims|];
    } else {
      assert s'.claims == s.claims;
    }
  }

  lemma NextComplete(w: Watch, s: State, a: Action)
    requires Inv(s) && Complete(w, s)
    ensures Complete(Observe(w, s, a), Next(s, a))
  {
    var s' := Next(s, a);
    NextGrows(s, a);
    KeptGrows(s, s', By(a));
    AddValues(w.puts.done, None, Grown(s.pushed, s'.pushed));
  }

  lemma {:induction false} RunComplete(w: Watch, s: State, sched: seq<Action>)
    requires Inv(s) && Complete(w, s)
    ensures Complete(Watched(w, s, sched), Run(s, sched))
    decreases |sched|
  {
    if sched == [] {
    } else {
      NextComplete(w, s, sched[0]);
      NextInv(s, sched[0]);
      RunComplete(Observe(w, s, sched[0]), Next(s, sched[0]), sched[1..]);
    }
  }

  /** In every run each taker has been given exactly the items pushed at the
      indices it claimed for good, in order; only the master may have one still to
      read. The items the master was told are in are exactly those published. */
  lemma RunAnswers(s0: State, sched: seq<Action>)
    requires Init(s0)
    ensures var s, w := Run(s0, sched), Watched(BLANK, s0, sched);
      && w.takes.done == KeptBy(s.claims, s.pushed)
      && (forall t :: Of(w.takes.done, Some(t)) == Of(w.takes.told, Some(t)))
      && Of(w.takes.done, None) == Of(w.takes.told, None) + Items(TakenBy(s, None))
      && Values(w.puts.done) == s.pushed && Of(w.puts.done, None) == Of(w.puts.told, None)
  {
    InitInv(s0);
    RunComplete(BLANK, s0, sched);
    forall who: Taker ensures Honest(Watched(BLANK, s0, sched), Run(s0, sched), who) {
      RunHonest(BLANK, s0, sched, who);
    }
    assert Honest(Watched(BLANK, s0, sched), Run(s0, sched), None);
    forall t ensures Square(Watched(BLANK, s0, sched).takes, Some(t), None) {
      assert Honest(Watched(BLANK, s0, sched), Run(s0, sched), Some(t));
    }
  }

  // Failing.

  /** Why a push is refused: the buffer is full. Why a pop may return nothing: no
      item, or only one. Why a steal finds none: no item. */
  predicate Cause(s: State, who: Taker) {
    match who
    case None => if Pushing(s.master) then s.low + s.size <= s.high else s.high <= s.low + 1
    case Some(_) => s.high <= s.low
  }

  /** `xs` are the takers that have met a cause since their call began. */
  function Excuse(xs: set<Taker>, s: State, a: Action): set<Taker> {
    (set t | t in s.thieves && !Starts(s, a, Some(t)) && (Some(t) in xs || Cause(s, Some(t))) :: Some(t))
    + (if !Starts(s, a, None) && (None in xs || Cause(s, None)) then {None} else {})
  }

  /** `xs` are the thieves since whose call somebody else has moved low. */
  function Overtake(xs: set<Tid>, s: State, a: Action): set<Tid>
    requires Wf(s)
  {
    set t | t in s.thieves && !Starts(s, a, Some(t)) && (t in xs || (By(a) != Some(t) && Next(s, a).low != s.low))
  }

  function Excused(xs: set<Taker>, s: State, sched: seq<Action>): set<Taker>
    requires Wf(s)
    decreases |sched|
  {
    if sched == [] then xs else Excused(Excuse(xs, s, sched[0]), Next(s, sched[0]), sched[1..])
  }

  function Overtaken(xs: set<Tid>, s: State, sched: seq<Action>): set<Tid>
    requires Wf(s)
    decreases |sched|
  {
    if sched == [] then xs else Overtaken(Overtake(xs, s, sched[0]), Next(s, sched[0]), sched[1..])
  }

  ghost predicate OnCourse(xs: set<Taker>, ys: set<Tid>, s: State, t: Tid)
    requires t in s.thieves
  {
    t in ys ||
    match s.thieves[t]
    case StealLow(high) => Some(t) in xs || s.low < high
    case StealRead(low) => low == s.low
    case StealCas(low, _) => low == s.low
    case _ => true
  }

  /** From `s` to `s'` thief `t` has been answered with a reason: Abort if somebody
      else moved low during the call, Empty if that or if nothing was live. */
  predicate ThiefJustified(xs: set<Taker>, ys: set<Tid>, s: State, s': State, t: Tid) {
    ThiefEnds(s, s', t) && s'.thieves[t].DoneSteal? ==>
      match s'.thieves[t].res
      case Abort => t in ys
      case Empty => t in ys || Some(t) in xs
      case Success(_) => true
  }

  lemma ThiefOnCourse(xs: set<Taker>, ys: set<Tid>, s: State, t: Tid)
    requires Inv(s) && t in s.thieves && OnCourse(xs, ys, s, t)
    requires t !in ys && (Some(t) in xs <==> Some(t) in Excuse(xs, s, Thief(t)))
    ensures OnCourse(xs, ys, ThiefStep(s, t), t) && ThiefJustified(xs, ys, s, ThiefStep(s, t), t)
  {
    assert ThiefOk(s, t);
  }

  lemma OthersStay(s: State, a: Action, t: Tid)
    requires Wf(s) && t in s.thieves && By(a) != Some(t)
    ensures t in Next(s, a).thieves && Next(s, a).thieves[t] == s.thieves[t]
  {
  }

  lemma NextOnCourse(xs: set<Taker>, ys: set<Tid>, s: State, a: Action, t: Tid)
    requires Inv(s) && t in s.thieves && OnCourse(xs, ys, s, t)
    ensures var s', xs', ys' := Next(s, a), Excuse(xs, s, a), Overtake(ys, s, a);
      t in s'.thieves && OnCourse(xs', ys', s', t) && ThiefJustified(xs', ys', s, s', t)
  {
    if By(a) != Some(t) {
      OthersStay(s, a, t);
    } else if a.Thief? && t !in ys {
      ThiefOnCourse(Excuse(xs, s, a), ys, s, t);
    }
  }

  lemma {:induction false} RunOnCourse(xs: set<Taker>, ys: set<Tid>, s: State, sched: seq<Action>, t: Tid)
    requires Inv(s) && t in s.thieves && OnCourse(xs, ys, s, t)
    ensures Inv(Run(s, sched)) && t in Run(s, sched).thieves
    ensures OnCourse(Excused(xs, s, sched), Overtaken(ys, s, sched), Run(s, sched), t)
    decreases |sched|
  {
    if sched == [] {
    } else {
      NextInv(s, sched[0]);
      NextOnCourse(xs, ys, s, sched[0], t);
      RunOnCourse(Excuse(xs, s, sched[0]), Overtake(ys, s, sched[0]), Next(s, sched[0]), sched[1..], t);
    }
  }

  /** In every run a steal answers Abort only if another taker moved low during
      the call, and Empty only if that happened or nothing was live at some moment
      of the call. */
  lemma RunFailsForCause(s0: State, sched: seq<Action>, a: Action, t: Tid)
    requires Init(s0) && t in s0.thieves
    ensures var s := Run(s0, sched);
      ThiefJustified(Excuse(Excused({}, s0, sched), s, a), Overtake(Overtaken({}, s0, sched), s, a), s, Next(s, a), t)
  {
    InitInv(s0);
    RunOnCourse({}, {}, s0, sched, t);
    NextOnCourse(Excused({}, s0, sched), Overtaken({}, s0, sched), Run(s0, sched), a, t);
  }

  /** The master gives an index up only for a reason. */
  ghost predicate MasterOnCourse(xs: set<Taker>, s: State) {
    s.master.PopReset? ==> None in xs
  }

  /** From `s` to `s'` a push has been refused or a pop has returned nothing. */
  predicate MasterFails(s: State, s': State) {
    MasterEnds(s, s') && (s'.master == DonePush(false) || s'.master == DonePop(None))
  }

  lemma MasterStaysOnCourse(xs: set<Taker>, s: State)
    requires Inv(s) && MasterOnCourse(xs, s)
    ensures var s', xs' := MasterStep(s), Excuse(xs, s, Master);
      MasterOnCourse(xs', s') && (MasterFails(s, s') ==> None in xs')
  {
  }

  lemma NextMasterOnCourse(xs: set<Taker>, s: State, a: Action)
    requires Inv(s) && MasterOnCourse(xs, s)
    ensures var s', xs' := Next(s, a), Excuse(xs, s, a);
      MasterOnCourse(xs', s') && (MasterFails(s, s') ==> None in xs')
  {
    if a == Master { MasterStaysOnCourse(xs, s); }
  }

  lemma {:induction false} RunMasterOnCourse(xs: set<Taker>, s: State, sched: seq<Action>)
    requires Inv(s) && MasterOnCourse(xs, s)
    ensures Inv(Run(s, sched)) && MasterOnCourse(Excused(xs, s, sched), Run(s, sched))
    decreases |sched|
  {
    if sched == [] {
    } else {
      NextInv(s, sched[0]);
      NextMasterOnCourse(xs, s, sched[0]);
      RunMasterOnCourse(Excuse(xs, s, sched[0]), Next(s, sched[0]), sched[1..]);
    }
  }

  /** In every run a push is refused only if the buffer was full, and a pop
      returns nothing only if at most one item was live, at some moment of that
      call. */
  lemma RunMasterFailsForCause(s0: State, sched: seq<Action>, a: Action)
    requires Init(s0)
    ensures var s := Run(s0, sched);
      MasterFails(s, Next(s, a)) ==> None in Excuse(Excused({}, s0, sched), s, a)
  {
    InitInv(s0);
    RunMasterOnCourse({}, s0, sched);
    NextMasterOnCourse(Excused({}, s0, sched), Run(s0, sched), a);
  }

  // A steal running without interference.

  function ThiefSolo(s: State, t: Tid, n: nat): (r: State)
    requires Wf(s) && t in s.thieves
    ensures Wf(r) && t in r.thieves
    decreases n
  {
    if n == 0 then s else ThiefSolo(ThiefStep(s, t), t, n - 1)
  }

  /** From `s` to `s'` a steal by `t` has taken the first live item, or answered
      Empty because there was none; whatever the master is in the middle of. */
  ghost predicate StealOutcome(s: State, s': State, t: Tid) {
    && Inv(s) && Inv(s') && t in s'.thieves
    && s'.high == s.high && s'.pushed == s.pushed && s'.master == s.master
    && (if s.low < s.high
        then s'.thieves[t] == DoneSteal(Success(s.pushed[s.low])) && s'.low == s.low + 1
        else s'.thieves[t] == DoneSteal(Empty) && s'.low == s.low)
  }

  lemma StealAlone(s: State, t: Tid)
    requires Inv(s) && t in s.thieves && ThiefReady(s.thieves[t])
    ensures StealOutcome(s, ThiefSolo(Next(s, Steal(t)), t, 4), t)
  {
    NextInv(s, Steal(t));
    StealReadsHigh(Next(s, Steal(t)), t);
  }

  lemma StealReadsHigh(s: State, t: Tid)
    requires Inv(s) && t in s.thieves && s.thieves[t].StealHigh?
    ensures StealOutcome(s, ThiefSolo(s, t, 4), t)
  {
    ThiefInv(s, t);
    StealReadsLow(ThiefStep(s, t), t);
  }

  lemma StealReadsLow(s: State, t: Tid)
    requires Inv(s) && t in s.thieves && s.thieves[t] == StealLow(s.high)
    ensures StealOutcome(s, ThiefSolo(s, t, 3), t)
  {
    ThiefInv(s, t);
    var s1 := ThiefStep(s, t);
    if s.low < s.high {
      StealTakes(s1, t);
    } else {
      assert ThiefSolo(s1, t, 2) == ThiefSolo(s1, t, 1) == s1;
    }
  }

  lemma StealTakes(s: State, t: Tid)
    requires Inv(s) && t in s.thieves && s.thieves[t] == StealRead(s.low)
    ensures StealOutcome(s, ThiefSolo(s, t, 2), t) && s.low < s.high
  {
    assert ThiefOk(s, t);
    ThiefInv(s, t);
    var s1 := ThiefStep(s, t);
    assert ThiefOk(s1, t);
    ThiefInv(s1, t);
    assert ThiefSolo(s, t, 2) == ThiefSolo(s1, t, 1) == ThiefStep(s1, t);
  }

  // Returning.

  /** How many accesses of its own an operation can have to go. */
  function MasterAhead(pc: MasterPc): nat {
    match pc
    case PushHigh(_) => 4
    case PushLow(_, _) => 3
    case PushStore(_, _) => 2
    case PushPublish(_, _) => 1
    case PopHigh => 4
    case PopLow(_) => 3
    case PopAdd(_) => 2
    case PopReset(_) => 1
    case PopRead(_) => 1
    case _ => 0
  }

  function ThiefAhead(pc: ThiefPc): nat {
    match pc
    case StealHigh => 4
    case StealLow(_) => 3
    case StealRead(_) => 2
    case StealCas(_, _) => 1
    case _ => 0
  }

  function Ahead(s: State, who: Taker): nat {
    match who
    case None => MasterAhead(s.master)
    case Some(t) => if t in s.thieves then ThiefAhead(s.thieves[t]) else 0
  }

  function Access(who: Taker): Action {
    match who
    case None => Master
    case Some(t) => Thief(t)
  }

  lemma PushNearsEnd(s: State)
    requires Wf(s) && !Popping(s.master)
    ensures MasterAhead(MasterStep(s).master) <= if MasterAhead(s.master) == 0 then 0 else MasterAhead(s.master) - 1
  {
  }

  lemma PopNearsEnd(s: State)
    requires Wf(s) && Popping(s.master) && (s.master.PopRead? ==> s.master.newLow > 0)
    ensures MasterAhead(MasterStep(s).master) <= MasterAhead(s.master) - 1
  {
  }

  lemma ThiefNearsEnd(s: State, t: Tid)
    requires Wf(s) && t in s.thieves
    ensures var n := ThiefAhead(s.thieves[t]);
      ThiefAhead(ThiefStep(s, t).thieves[t]) <= if n == 0 then 0 else n - 1
  {
  }

  lemma OthersChangeNothing(s: State, a: Action, who: Taker)
    requires Wf(s) && By(a) != who
    ensures Ahead(Next(s, a), who) == Ahead(s, who)
  {
  }

  lemma StepNearsEnd(s: State, a: Action, who: Taker)
    requires Inv(s) && (a == Access(who) || By(a) != who)
    ensures Ahead(Next(s, a), who) <=
            if a == Access(who) && Ahead(s, who) > 0 then Ahead(s, who) - 1 else Ahead(s, who)
  {
    if By(a) != who {
      OthersChangeNothing(s, a, who);
    } else if who == None {
      if Popping(s.master) { PopNearsEnd(s); } else { PushNearsEnd(s); }
    } else if who.value in s.thieves {
      ThiefNearsEnd(s, who.value);
    }
  }

  /** The accesses of `who` in a schedule. */
  function Own(sched: seq<Action>, who: Taker): nat {
    if sched == [] then 0 else (if sched[0] == Access(who) then 1 else 0) + Own(sched[1..], who)
  }

  /** No operation waits: whatever the others do or leave undone, it has returned
      after at most four accesses of its own. */
  lemma {:induction false} RunReturns(s: State, sched: seq<Action>, who: Taker)
    requires Inv(s) && Own(sched, who) >= Ahead(s, who)
    requires forall a :: a in sched && By(a) == who ==> a == Access(who)
    ensures Ahead(s, who) <= 4 && Ahead(Run(s, sched), who) == 0
    ensures who == None ==> MasterReady(Run(s, sched))
    ensures who.Some? && who.value in Run(s, sched).thieves ==> ThiefReady(Run(s, sched).thieves[who.value])
    decreases |sched|
  {
    if sched == [] {
    } else {
      StepNearsEnd(s, sched[0], who);
      NextInv(s, sched[0]);
      RunReturns(Next(s, sched[0]), sched[1..], who);
    }
  }
}
