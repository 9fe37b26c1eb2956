/** What the optimistic FIFO answers its callers, against what its steps did: in
    every run, with scans in any of the calls, each thread is returned exactly the
    values its own CASes on head took, and NULL only if the queue showed nothing
    during that very call. */
module MpmcAnswers {
  import opened Common
  import opened Ledger
  import opened MpmcFifo
  import HP = HazardProtocol

  /** Joins and callers writing their nodes are nobody's calls. */
  type User = Option<Tid>

  function By(a: Action): User {
    match a
    case Push(t, _, _) => Some(t)
    case Pop(t) => Some(t)
    case Go(t, _) => Some(t)
    case _ => None
  }

  predicate StartsPush(s: State, a: Action) {
    a.Push? && a.t < |s.pcs| && Ready(s.pcs[a.t]) && Free(s, a.n)
  }

  predicate StartsPop(s: State, a: Action, t: Tid) {
    a == Pop(t) && t < |s.pcs| && Ready(s.pcs[t])
  }

  /** From `s` to `s'` thread `t`'s operation has returned. */
  predicate Ends(s: State, s': State, t: Tid) {
    t < |s.pcs| && t < |s'.pcs| && !Ready(s.pcs[t]) && Ready(s'.pcs[t])
  }

  /** The value a trypop has just returned. */
  function PopTold(s: State, s': State, who: User): Option<Item> {
    if who.Some? && Ends(s, s', who.value) && s'.pcs[who.value].DonePop? then s'.pcs[who.value].res else None
  }

  function Given(asked: map<Tid, Item>, t: Tid): Option<Item> {
    if t in asked then Some(asked[t]) else None
  }

  /** The argument of a push that has just returned. */
  function PushTold(s: State, s': State, who: User, asked: map<Tid, Item>): Option<Item> {
    if who.Some? && Ends(s, s', who.value) && s'.pcs[who.value] == DonePush then Given(asked, who.value) else None
  }

  /** `asked` is the value each thread last called push with. */
  datatype Watch = Watch(asked: map<Tid, Item>, puts: Book<User, Item>, takes: Book<User, Item>)

  const BLANK: Watch := Watch(map[], Book([], []), Book([], []))

  function Asked(asked: map<Tid, Item>, s: State, a: Action): map<Tid, Item> {
    if StartsPush(s, a) then asked[a.t := a.v] else asked
  }

  function Observe(w: Watch, s: State, a: Action): Watch {
    var s' := Next(s, a);
    Watch(Asked(w.asked, s, a),
          Enter(w.puts, By(a), Grown(s.vals, s'.vals), PushTold(s, s', By(a), w.asked)),
          Enter(w.takes, By(a), Grown(s.popped, s'.popped), PopTold(s, s', By(a))))
  }

  function Watched(w: Watch, s: State, sched: seq<Action>): Watch
    decreases |sched|
  {
    if sched == [] then w else Watched(Observe(w, s, sched[0]), Next(s, sched[0]), sched[1..])
  }

  /** What a thread has appended and its push not yet returned from, and the value
      it has taken and not yet returned, a scan on the way included. */
  function PutBy(pc: Pc, given: Option<Item>): Option<Item> {
    if pc.PushLink? || pc.PushRelease? then given else None
  }

  function TakenBy(pc: Pc): Option<Item> {
    if pc.PopClear0? || pc.PopClear1? || pc.PopRetire? || pc.PopScan? then Some(pc.v) else None
  }

  predicate Offering(pc: Pc) {
    pc.PushClear? || pc.PushTail? || pc.PushUse? || pc.PushCheck? || pc.PushCas?
  }

  /** The node being pushed still holds the value it was given with. */
  ghost predicate Carries(given: Option<Item>, s: State, t: Tid)
    requires t < |s.pcs|
  {
    && (Pushing(s.pcs[t]) ==> given.Some?)
    && (Offering(s.pcs[t]) ==> s.pcs[t].n in s.value && Some(s.value[s.pcs[t].n]) == given)
  }

  /** Only the thread that acts moves, and no node's value changes. */
  ghost predicate MovesOnly(s: State, s': State, t: Tid) {
    OnlyMoved(s, s', t) && s'.value == s.value
  }

  /** Nor does either history. */
  ghost predicate Same(s: State, s': State, t: Tid) {
    MovesOnly(s, s', t) && s'.vals == s.vals && s'.popped == s.popped
  }

  lemma PushGuards(s: State, t: Tid)
    requires t < |s.pcs| && (s.pcs[t].PushUse? || s.pcs[t].PushCheck? || s.pcs[t].PushRelease?)
    ensures var s', pc := PushStep(s, t), s.pcs[t];
      && Same(s, s', t)
      && (if pc.PushRelease? then s'.pcs[t] == DonePush else Offering(s'.pcs[t]) && s'.pcs[t].n == pc.n)
  {
  }

  lemma PushWrites(s: State, t: Tid)
    requires t < |s.pcs| && (s.pcs[t].PushClear? || s.pcs[t].PushTail? || s.pcs[t].PushLink?)
    ensures var s', pc := PushStep(s, t), s.pcs[t];
      && Same(s, s', t)
      && (if pc.PushLink? then s'.pcs[t] == PushRelease else Offering(s'.pcs[t]) && s'.pcs[t].n == pc.n)
  {
  }

  lemma PushSwings(s: State, t: Tid)
    requires t < |s.pcs| && s.pcs[t].PushCas?
    ensures var s', pc := PushStep(s, t), s.pcs[t];
      && MovesOnly(s, s', t) && s'.popped == s.popped
      && (if s.tail == pc.x then s'.pcs[t].PushLink? && s'.vals == s.vals + [ValueOf(s, pc.n)]
          else s'.vals == s.vals && s'.pcs[t] == PushTail(pc.n))
  {
  }

  /** One step of thread `t`, in its books. */
  ghost predicate Flowing(s: State, s': State, t: Tid, asked: map<Tid, Item>) {
    && t < |s.pcs| && t < |s'.pcs|
    && Flows(PutBy(s.pcs[t], Given(asked, t)), Grown(s.vals, s'.vals), PushTold(s, s', Some(t), asked),
             PutBy(s'.pcs[t], Given(asked, t)))
    && Flows(TakenBy(s.pcs[t]), Grown(s.popped, s'.popped), PopTold(s, s', Some(t)), TakenBy(s'.pcs[t]))
    && Carries(Given(asked, t), s', t)
  }

  lemma PushFlows(s: State, t: Tid, asked: map<Tid, Item>)
    requires t < |s.pcs| && Pushing(s.pcs[t]) && Carries(Given(asked, t), s, t)
    ensures Flowing(s, PushStep(s, t), t, asked) && MovesOnly(s, PushStep(s, t), t)
  {
    if s.pcs[t].PushCas? {
      PushSwings(s, t);
    } else if s.pcs[t].PushUse? || s.pcs[t].PushCheck? || s.pcs[t].PushRelease? {
      PushGuards(s, t);
    } else {
      PushWrites(s, t);
    }
  }

  predicate Holding(pc: Pc) {
    pc.PopClear0? || pc.PopClear1? || pc.PopRetire? || pc.PopScan?
  }

  /** Once the value is taken it stays in hand until it is returned, through the
      release of both slots, the retirement and every access of a scan. */
  lemma HoldFlows(s: State, t: Tid, scan: bool)
    requires t < |s.pcs| && Holding(s.pcs[t])
    ensures var s', v := PopStep(s, t, scan), s.pcs[t].v;
      && Same(s, s', t)
      && (s'.pcs[t] == DonePop(Some(v)) || (Holding(s'.pcs[t]) && s'.pcs[t].v == v))
  {
    match s.pcs[t]
    case PopClear0(_, _) => ClearHolds(s, t, scan);
    case PopClear1(_, _) => ClearAgainHolds(s, t, scan);
    case PopRetire(h, v) => RetireHolds(s, t, h, v, scan);
    case PopScan(v) => ScanHolds(s, t, v);
  }

  lemma ClearHolds(s: State, t: Tid, scan: bool)
    requires t < |s.pcs| && s.pcs[t].PopClear0?
    ensures var s', v := PopStep(s, t, scan), s.pcs[t].v;
      Same(s, s', t) && Holding(s'.pcs[t]) && s'.pcs[t].v == v
  {
    HazardMoves(s, t, 0, 0, PopClear1(s.pcs[t].h, s.pcs[t].v));
  }

  lemma ClearAgainHolds(s: State, t: Tid, scan: bool)
    requires t < |s.pcs| && s.pcs[t].PopClear1?
    ensures var s', v := PopStep(s, t, scan), s.pcs[t].v;
      Same(s, s', t) && Holding(s'.pcs[t]) && s'.pcs[t].v == v
  {
    HazardMoves(s, t, 1, 0, PopRetire(s.pcs[t].h, s.pcs[t].v));
  }

  lemma HazardMoves(s: State, t: Tid, k: nat, x: Node, pc: Pc)
    requires t < |s.pcs|
    ensures Same(s, SetHazard(s, t, k, x, pc), t) && SetHazard(s, t, k, x, pc).pcs[t] == pc
  {
  }

  lemma ConfirmMoves(s: State, t: Tid, k: nat, pc: Pc)
    requires t < |s.pcs|
    ensures Same(s, Confirm(s, t, k, pc), t) && Confirm(s, t, k, pc).pcs[t] == pc
  {
  }

  lemma RetireHolds(s: State, t: Tid, h: Node, v: Item, scan: bool)
    requires t < |s.pcs|
    ensures var s' := Retire(s, t, h, v, scan);
      Same(s, s', t) && (s'.pcs[t] == DonePop(Some(v)) || s'.pcs[t] == PopScan(v))
  {
  }

  lemma ScanHolds(s: State, t: Tid, v: Item)
    requires t < |s.pcs|
    ensures var s' := Scan(s, t, v);
      Same(s, s', t) && (s'.pcs[t] == DonePop(Some(v)) || s'.pcs[t] == PopScan(v))
  {
  }

  /** Until the CAS nothing is in hand, and nothing is returned but NULL, which
      only the read of prev can lead to. */
  ghost predicate Looks(s: State, s': State, t: Tid) {
    && t < |s.pcs| && Same(s, s', t) && !Pushing(s'.pcs[t]) && !Holding(s'.pcs[t])
    && (Ready(s'.pcs[t]) ==> s'.pcs[t] == s.pcs[t] || (s'.pcs[t] == DonePop(None) && s.pcs[t].PopGiveUp?))
    && (s'.pcs[t].PopGiveUp? ==> s.pcs[t].PopPrev?)
  }

  lemma GuardLooks(s: State, t: Tid, scan: bool)
    requires t < |s.pcs| && (s.pcs[t].PopUse? || s.pcs[t].PopUse1? || s.pcs[t].PopGiveUp?)
    ensures Looks(s, PopStep(s, t, scan), t)
  {
  }

  lemma CheckLooks(s: State, t: Tid, scan: bool)
    requires t < |s.pcs| && s.pcs[t].PopCheck?
    ensures Looks(s, PopStep(s, t, scan), t)
  {
    ConfirmMoves(s, t, 0, PopPrev(s.pcs[t].h));
  }

  lemma CheckAgainLooks(s: State, t: Tid, scan: bool)
    requires t < |s.pcs| && s.pcs[t].PopCheck1?
    ensures Looks(s, PopStep(s, t, scan), t)
  {
    ConfirmMoves(s, t, 1, PopValue(s.pcs[t].h, s.pcs[t].p));
  }

  lemma ReadLooks(s: State, t: Tid, scan: bool)
    requires t < |s.pcs| && (s.pcs[t].PopHead? || s.pcs[t].PopPrev? || s.pcs[t].PopValue? || Ready(s.pcs[t]))
    ensures Looks(s, PopStep(s, t, scan), t)
  {
  }

  lemma LookFlows(s: State, t: Tid, scan: bool)
    requires t < |s.pcs| && !Pushing(s.pcs[t]) && !Holding(s.pcs[t]) && !s.pcs[t].PopCas?
    ensures Looks(s, PopStep(s, t, scan), t)
  {
    match s.pcs[t]
    case PopUse(h) => GuardLooks(s, t, scan);
    case PopUse1(h, p) => GuardLooks(s, t, scan);
    case PopGiveUp => GuardLooks(s, t, scan);
    case PopCheck(h) => CheckLooks(s, t, scan);
    case PopCheck1(h, p) => CheckAgainLooks(s, t, scan);
    case _ => ReadLooks(s, t, scan);
  }

  lemma TakeFlows(s: State, t: Tid, scan: bool)
    requires t < |s.pcs| && s.pcs[t].PopCas?
    ensures var s', v := PopStep(s, t, scan), s.pcs[t].v;
      && MovesOnly(s, s', t) && s'.vals == s.vals
      && (if Holding(s'.pcs[t]) then s'.pcs[t].v == v && s'.popped == s.popped + [v]
          else s'.popped == s.popped && s'.pcs[t] == PopHead)
  {
  }

  lemma PopFlows(s: State, t: Tid, scan: bool, asked: map<Tid, Item>)
    requires t < |s.pcs| && !Pushing(s.pcs[t])
    ensures Flowing(s, PopStep(s, t, scan), t, asked) && MovesOnly(s, PopStep(s, t, scan), t)
  {
    if Holding(s.pcs[t]) {
      HoldFlows(s, t, scan);
    } else if s.pcs[t].PopCas? {
      TakeFlows(s, t, scan);
    } else {
      LookFlows(s, t, scan);
    }
  }

  /** An action of anybody else, or one that nobody takes, in `t`'s books. */
  ghost predicate Stays(s: State, s': State, t: Tid, asked: map<Tid, Item>, asked': map<Tid, Item>) {
    && t < |s.pcs| && t < |s'.pcs| && s'.pcs[t] == s.pcs[t] && Given(asked', t) == Given(asked, t)
    && (Carries(Given(asked, t), s, t) ==> Carries(Given(asked, t), s', t))
  }

  lemma StepMovesItself(s: State, u: Tid, scan: bool)
    requires u < |s.pcs|
    ensures MovesOnly(s, Next(s, Go(u, scan)), u)
  {
    if s.pcs[u].PushCas? {
      PushSwings(s, u);
    } else if s.pcs[u].PushUse? || s.pcs[u].PushCheck? || s.pcs[u].PushRelease? {
      PushGuards(s, u);
    } else if Pushing(s.pcs[u]) {
      PushWrites(s, u);
    } else {
      PopFlows(s, u, scan, map[]);
    }
  }

  lemma StepStays(s: State, u: Tid, scan: bool, t: Tid, asked: map<Tid, Item>)
    requires u < |s.pcs| && t < |s.pcs| && u != t
    ensures Stays(s, Next(s, Go(u, scan)), t, asked, asked)
  {
    StepMovesItself(s, u, scan);
  }

  lemma OfferStays(s: State, u: Tid, n: Node, v: Item, t: Tid, asked: map<Tid, Item>)
    requires Inv(s) && u < |s.pcs| && t < |s.pcs| && u != t && Free(s, n)
    ensures Stays(s, Offer(s, u, n, v), t, asked, asked[u := v])
  {
    assert ThreadOk(s, t);
  }

  lemma OverwriteStays(s: State, n: Node, prev: Node, v: Item, t: Tid, asked: map<Tid, Item>)
    requires Inv(s) && t < |s.pcs| && Free(s, n)
    ensures Stays(s, Overwrite(s, n, prev, v), t, asked, asked)
  {
    assert ThreadOk(s, t);
  }

  lemma OthersStay(s: State, a: Action, t: Tid, asked: map<Tid, Item>)
    requires Inv(s) && t < |s.pcs| && By(a) != Some(t)
    ensures Stays(s, Next(s, a), t, asked, Asked(asked, s, a))
  {
    match a
    case Join =>
    case Push(u, n, v) => if StartsPush(s, a) { OfferStays(s, u, n, v, t, asked); }
    case Pop(u) =>
    case Go(u, scan) => if u < |s.pcs| { StepStays(s, u, scan, t, asked); }
    case Scribble(n, prev, v) => if Free(s, n) { OverwriteStays(s, n, prev, v, t, asked); }
  }

  lemma PushCallFlows(s: State, t: Tid, n: Node, v: Item, asked: map<Tid, Item>)
    requires t < |s.pcs| && Ready(s.pcs[t])
    ensures Flowing(s, Offer(s, t, n, v), t, asked[t := v])
    ensures PushTold(s, Offer(s, t, n, v), Some(t), asked) == None
  {
  }

  lemma PopCallFlows(s: State, t: Tid, asked: map<Tid, Item>)
    requires t < |s.pcs| && Ready(s.pcs[t])
    ensures Flowing(s, Goto(s, t, PopHead), t, asked)
  {
  }

  /** What `who` has in hand; nobody, and a thread yet to join, has nothing. */
  function PutHand(s: State, who: User, asked: map<Tid, Item>): Option<Item> {
    if who.Some? && who.value < |s.pcs| then PutBy(s.pcs[who.value], Given(asked, who.value)) else None
  }

  function TakeHand(s: State, who: User): Option<Item> {
    if who.Some? && who.value < |s.pcs| then TakenBy(s.pcs[who.value]) else None
  }

  ghost predicate Fills(s: State, who: User, asked: map<Tid, Item>) {
    who.Some? && who.value < |s.pcs| ==> Carries(Given(asked, who.value), s, who.value)
  }

  ghost predicate Honest(w: Watch, s: State, who: User) {
    && Square(w.puts, who, PutHand(s, who, w.asked)) && Square(w.takes, who, TakeHand(s, who))
    && Fills(s, who, w.asked)
  }

  /** One action, in the books of `who`. */
  ghost predicate Keeps(s: State, s': State, a: Action, who: User, asked: map<Tid, Item>, asked': map<Tid, Item>) {
    && Fills(s', who, asked')
    && (if By(a) == who
        then && Flows(PutHand(s, who, asked), Grown(s.vals, s'.vals), PushTold(s, s', who, asked),
                      PutHand(s', who, asked'))
             && Flows(TakeHand(s, who), Grown(s.popped, s'.popped), PopTold(s, s', who), TakeHand(s', who))
        else PutHand(s', who, asked') == PutHand(s, who, asked) && TakeHand(s', who) == TakeHand(s, who))
  }

  lemma OwnKeeps(s: State, a: Action, t: Tid, asked: map<Tid, Item>)
    requires By(a) == Some(t) && t < |s.pcs| && Fills(s, Some(t), asked)
    ensures Keeps(s, Next(s, a), a, Some(t), asked, Asked(asked, s, a))
  {
    match a
    case Push(_, n, v) => if StartsPush(s, a) { PushCallFlows(s, t, n, v, asked); }
    case Pop(_) => if Ready(s.pcs[t]) { PopCallFlows(s, t, asked); }
    case Go(_, scan) => if Pushing(s.pcs[t]) { PushFlows(s, t, asked); } else { PopFlows(s, t, scan, asked); }
  }

  lemma JoinKeeps(s: State, who: User, asked: map<Tid, Item>)
    requires Fills(s, who, asked)
    ensures Keeps(s, AddThread(s), Join, who, asked, asked)
  {
  }

  lemma OtherKeeps(s: State, a: Action, who: User, asked: map<Tid, Item>)
    requires Inv(s) && By(a) != who && !a.Join? && Fills(s, who, asked)
    ensures Keeps(s, Next(s, a), a, who, asked, Asked(asked, s, a))
  {
    NextKeepsCount(s, a);
    if who.Some? && who.value < |s.pcs| { OthersStay(s, a, who.value, asked); }
  }

  lemma NextKeepsCount(s: State, a: Action)
    requires !a.Join?
    ensures |Next(s, a).pcs| == |s.pcs|
  {
    if a.Go? && a.t < |s.pcs| { StepMovesItself(s, a.t, a.scan); }
  }

  lemma NextKeeps(s: State, a: Action, who: User, asked: map<Tid, Item>)
    requires Inv(s) && Fills(s, who, asked)
    ensures Keeps(s, Next(s, a), a, who, asked, Asked(asked, s, a))
  {
    if a.Join? {
      JoinKeeps(s, who, asked);
    } else if By(a) != who {
      OtherKeeps(s, a, who, asked);
    } else if who.Some? && who.value < |s.pcs| {
      OwnKeeps(s, a, who.value, asked);
    }
  }

  lemma NextHonest(w: Watch, s: State, a: Action, who: User)
    requires Inv(s) && Honest(w, s, who)
    ensures Honest(Observe(w, s, a), Next(s, a), who)
  {
    var s', asked' := Next(s, a), Asked(w.asked, s, a);
    NextKeeps(s, a, who, w.asked);
    var put, take := PutHand(s, who, w.asked), TakeHand(s, who);
    if By(a) == who {
      EnterSquare(w.puts, who, Grown(s.vals, s'.vals), PushTold(s, s', who, w.asked), put, PutHand(s', who, asked'));
      EnterSquare(w.takes, who, Grown(s.popped, s'.popped), PopTold(s, s', who), take, TakeHand(s', who));
    } else {
      EnterOther(w.puts, By(a), Grown(s.vals, s'.vals), PushTold(s, s', By(a), w.asked), who, put);
      EnterOther(w.takes, By(a), Grown(s.popped, s'.popped), PopTold(s, s', By(a)), who, take);
    }
  }

  lemma {:induction false} RunHonest(w: Watch, s: State, sched: seq<Action>, who: User)
    requires Inv(s) && Honest(w, s, who)
    ensures Honest(Watched(w, s, sched), Run(s, sched), who)
    decreases |sched|
  {
    if sched == [] {
    } else {
      NextHonest(w, s, sched[0], who);
      NextInv(s, sched[0]);
      RunHonest(Observe(w, s, sched[0]), Next(s, sched[0]), sched[1..], who);
    }
  }

  /** The books hold the whole of both histories; `first` is the value of the node
      the queue began with. */
  ghost predicate Complete(w: Watch, s: State, first: Item) {
    s.vals == [first] + Values(w.puts.done) && Values(w.takes.done) == s.popped
  }

  /** Both histories grow by one entry at a time. */
  ghost predicate Grows(s: State, s': State) {
    && s'.vals == s.vals + Items(Grown(s.vals, s'.vals))
    && s'.popped == s.popped + Items(Grown(s.popped, s'.popped))
  }

  lemma PopGrows(s: State, t: Tid, scan: bool)
    requires t < |s.pcs| && !Pushing(s.pcs[t])
    ensures Grows(s, PopStep(s, t, scan))
  {
    if Holding(s.pcs[t]) {
      HoldFlows(s, t, scan);
    } else if s.pcs[t].PopCas? {
      TakeGrows(s, t, scan);
    } else {
      LookFlows(s, t, scan);
    }
  }

  lemma TakeGrows(s: State, t: Tid, scan: bool)
    requires t < |s.pcs| && s.pcs[t].PopCas?
    ensures Grows(s, PopStep(s, t, scan))
  {
  }

  lemma PushGrows(s: State, t: Tid)
    requires t < |s.pcs| && Pushing(s.pcs[t])
    ensures Grows(s, PushStep(s, t))
  {
    if s.pcs[t].PushCas? {
      PushSwings(s, t);
    } else if s.pcs[t].PushUse? || s.pcs[t].PushCheck? || s.pcs[t].PushRelease? {
      PushGuards(s, t);
    } else {
      PushWrites(s, t);
    }
  }

  lemma NextGrows(s: State, a: Action)
    ensures Grows(s, Next(s, a))
  {
    if a.Go? && a.t < |s.pcs| {
      if Pushing(s.pcs[a.t]) { PushGrows(s, a.t); } else { PopGrows(s, a.t, a.scan); }
    }
  }

  lemma BooksGrow(w: Watch, s: State, s': State, who: User, first: Item)
    requires Complete(w, s, first) && Grows(s, s')
    ensures s'.vals == [first] + Values(Add(w.puts.done, who, Grown(s.vals, s'.vals)))
    ensures Values(Add(w.takes.done, who, Grown(s.popped, s'.popped))) == s'.popped
  {
    AddValues(w.puts.done, who, Grown(s.vals, s'.vals));
    AddValues(w.takes.done, who, Grown(s.popped, s'.popped));
    assert [first] + (Values(w.puts.done) + Items(Grown(s.vals, s'.vals))) == s'.vals;
  }

  lemma NextComplete(w: Watch, s: State, a: Action, first: Item)
    requires Complete(w, s, first) && Grows(s, Next(s, a))
    ensures Complete(Observe(w, s, a), Next(s, a), first)
  {
    BooksGrow(w, s, Next(s, a), By(a), first);
  }

  lemma {:induction false} RunComplete(w: Watch, s: State, sched: seq<Action>, first: Item)
    requires Complete(w, s, first)
    ensures Complete(Watched(w, s, sched), Run(s, sched), first)
    decreases |sched|
  {
    if sched == [] {
    } else {
      NextGrows(s, sched[0]);
      NextComplete(w, s, sched[0], first);
      RunComplete(Observe(w, s, sched[0]), Next(s, sched[0]), sched[1..], first);
    }
  }

  /** In every run, with threads joining, scans in any of the calls and reclaimed
      nodes reused: each thread's trypop has returned exactly the values its own
      CASes on head took, in order, but for one it may still have in hand on its
      way through the retirement and a scan; and the pushes that have returned are
      exactly the values its own CASes on tail appended, but for one it has still
      to link and release. */
  lemma RunAnswers(s0: State, sched: seq<Action>)
    requires Init(s0)
    ensures var s, w := Run(s0, sched), Watched(BLANK, s0, sched);
      && Values(w.takes.done) == s.popped && s.vals != [] && Values(w.puts.done) == s.vals[1..]
      && (forall t :: Of(w.takes.done, Some(t)) == Of(w.takes.told, Some(t)) + Items(TakeHand(s, Some(t))))
      && (forall t :: Of(w.puts.done, Some(t)) == Of(w.puts.told, Some(t)) + Items(PutHand(s, Some(t), w.asked)))
  {
    InitInv(s0);
    RunComplete(BLANK, s0, sched, s0.vals[0]);
    forall t: Tid ensures Honest(Watched(BLANK, s0, sched), Run(s0, sched), Some(t)) {
      RunHonest(BLANK, s0, sched, Some(t));
    }
  }

  // Failing.

  predicate NothingVisible(s: State) {
    |s.vals| <= s.first + 1 || s.first + 1 in s.pending
  }

  /** `xs` are the threads that have been in their call while the queue showed
      nothing: it was empty or its first waiting push had not been linked. */
  function Excuse(xs: set<Tid>, s: State, a: Action): set<Tid> {
    set t: Tid | t < |s.pcs| && !StartsPop(s, a, t) && (t in xs || NothingVisible(s))
  }

  function Excused(xs: set<Tid>, s: State, sched: seq<Action>): set<Tid>
    decreases |sched|
  {
    if sched == [] then xs else Excused(Excuse(xs, s, sched[0]), Next(s, sched[0]), sched[1..])
  }

  ghost predicate OnCourse(excused: bool, s: State, t: Tid) {
    t < |s.pcs| && s.pcs[t].PopGiveUp? ==> excused
  }

  /** From `s` to `s'` thread `t`'s trypop has returned NULL. */
  predicate ReturnsNull(s: State, s': State, t: Tid) {
    Ends(s, s', t) && s'.pcs[t] == DonePop(None)
  }

  lemma PopOnCourse(s: State, t: Tid, scan: bool)
    requires Inv(s) && t < |s.pcs| && !Pushing(s.pcs[t])
    ensures var s' := PopStep(s, t, scan);
      && |s'.pcs| == |s.pcs| && (ReturnsNull(s, s', t) ==> s.pcs[t].PopGiveUp?)
      && (s'.pcs[t].PopGiveUp? ==> NothingVisible(s))
  {
    if Holding(s.pcs[t]) {
      HoldFlows(s, t, scan);
    } else if s.pcs[t].PopCas? {
      TakeFlows(s, t, scan);
    } else {
      LookFlows(s, t, scan);
      if s.pcs[t].PopPrev? { NullIsExact(s, t, scan); }
    }
  }

  lemma PushOnCourse(s: State, t: Tid)
    requires t < |s.pcs| && Pushing(s.pcs[t])
    ensures var s' := PushStep(s, t);
      |s'.pcs| == |s.pcs| && !ReturnsNull(s, s', t) && !s'.pcs[t].PopGiveUp?
  {
    if s.pcs[t].PushCas? {
      PushSwings(s, t);
    } else if s.pcs[t].PushUse? || s.pcs[t].PushCheck? || s.pcs[t].PushRelease? {
      PushGuards(s, t);
    } else {
      PushWrites(s, t);
    }
  }

  lemma CallOnCourse(s: State, a: Action)
    requires (a.Push? || a.Pop?) && a.t < |s.pcs| && (s.pcs[a.t].PopGiveUp? ==> !Ready(s.pcs[a.t]))
    ensures var s' := Next(s, a);
      |s'.pcs| == |s.pcs| && !ReturnsNull(s, s', a.t) && (s'.pcs[a.t].PopGiveUp? ==> s' == s)
  {
  }

  lemma NextOnCourse(xs: set<Tid>, s: State, a: Action, t: Tid)
    requires Inv(s) && OnCourse(t in xs, s, t)
    ensures var s', x := Next(s, a), t in Excuse(xs, s, a);
      OnCourse(x, s', t) && (ReturnsNull(s, s', t) ==> x)
  {
    if t >= |s.pcs| {
      if !a.Join? { NextKeepsCount(s, a); }
    } else if By(a) != Some(t) {
      OthersStay(s, a, t, map[]);
    } else if a.Go? {
      if Pushing(s.pcs[t]) { PushOnCourse(s, t); } else { PopOnCourse(s, t, a.scan); }
    } else {
      CallOnCourse(s, a);
    }
  }

  lemma {:induction false} RunOnCourse(xs: set<Tid>, s: State, sched: seq<Action>, t: Tid)
    requires Inv(s) && OnCourse(t in xs, s, t)
    ensures Inv(Run(s, sched)) && OnCourse(t in Excused(xs, s, sched), Run(s, sched), t)
    decreases |sched|
  {
    if sched == [] {
    } else {
      NextInv(s, sched[0]);
      NextOnCourse(xs, s, sched[0], t);
      RunOnCourse(Excuse(xs, s, sched[0]), Next(s, sched[0]), sched[1..], t);
    }
  }

  /** In every run trypop returns NULL only if, at some moment of that very call,
      the queue was empty or its first waiting push had not been linked. */
  lemma RunNullIsJustified(s0: State, sched: seq<Action>, a: Action, t: Tid)
    requires Init(s0)
    ensures var s := Run(s0, sched);
      ReturnsNull(s, Next(s, a), t) ==> t in Excuse(Excused({}, s0, sched), s, a)
  {
    InitInv(s0);
    RunOnCourse({}, s0, sched, t);
    NextOnCourse(Excused({}, s0, sched), Run(s0, sched), a, t);
  }

  // Returning.

  function PushAhead(pc: Pc): nat {
    match pc
    case PushClear(_) => 7
    case PushTail(_) => 6
    case PushUse(_, _) => 5
    case PushCheck(_, _) => 4
    case PushCas(_, _) => 3
    case PushLink(_, _) => 2
    case PushRelease => 1
    case _ => 0
  }

  /** The head, or the tail, is not the node the thread read any more. */
  predicate Stale(pc: Pc, head: HP.Node, tail: HP.Node) {
    match pc
    case PushUse(_, x) => x != tail
    case PushCheck(_, x) => x != tail
    case PushCas(_, x) => x != tail
    case PopUse(h) => h != head
    case PopCheck(h) => h != head
    case PopPrev(h) => h != head
    case PopUse1(h, _) => h != head
    case PopCheck1(h, _) => h != head
    case PopValue(h, _) => h != head
    case PopCas(h, _, _) => h != head
    case _ => false
  }

  /** How many accesses an operation left alone has to go, but for a scan: the
      rest of this attempt, and another one if it is stale. */
  function ToGo(pc: Pc, head: HP.Node, tail: HP.Node): nat {
    Ahead(pc) + PushAhead(pc) + (if Stale(pc, head, tail) then 8 else 0)
  }

  predicate Closer(s: State, s': State, t: Tid) {
    t < |s.pcs| && t < |s'.pcs| && ToGo(s'.pcs[t], s'.head, s'.tail) < ToGo(s.pcs[t], s.head, s.tail)
  }

  lemma PushCloser(s: State, t: Tid)
    requires t < |s.pcs| && Pushing(s.pcs[t])
    ensures Closer(s, PushStep(s, t), t)
  {
  }

  lemma GuardCloser(s: State, t: Tid, scan: bool)
    requires t < |s.pcs| && Guarding(s.pcs[t])
    ensures Closer(s, PopStep(s, t, scan), t)
  {
  }

  lemma CheckCloser(s: State, t: Tid, scan: bool)
    requires t < |s.pcs| && (s.pcs[t].PopCheck? || s.pcs[t].PopCheck1?)
    ensures Closer(s, PopStep(s, t, scan), t)
  {
  }

  lemma ReadCloser(s: State, t: Tid, scan: bool)
    requires t < |s.pcs| && (s.pcs[t].PopHead? || s.pcs[t].PopPrev? || s.pcs[t].PopValue? || s.pcs[t].PopCas?)
    ensures Closer(s, PopStep(s, t, scan), t)
  {
  }

  lemma RetireCloser(s: State, t: Tid, scan: bool)
    requires t < |s.pcs| && s.pcs[t].PopRetire?
    ensures Closer(s, PopStep(s, t, scan), t)
  {
  }

  /** A scan has less to do after each of its accesses. */
  lemma ScanCloser(s: State, t: Tid, scan: bool)
    requires Inv(s) && t < |s.pcs| && s.pcs[t].PopScan?
    ensures var s' := PopStep(s, t, scan);
      t < |s'.pcs| && (s'.pcs[t].PopScan? || s'.pcs[t].DonePop?) && ScanNearer(s, s', t)
  {
    assert ThreadOk(s, t);
    ScanShrinks(s.hp, t);
  }

  /** One access of an operation left alone, the accesses of a scan included. */
  ghost predicate Progress(s: State, s': State, t: Tid) {
    && t < |s.pcs| && t < |s'.pcs|
    && (Closer(s, s', t) ||
        (s.pcs[t].PopScan? && (s'.pcs[t].PopScan? || s'.pcs[t].DonePop?) && ScanNearer(s, s', t)))
  }

  lemma StepProgresses(s: State, t: Tid, scan: bool)
    requires Inv(s) && t < |s.pcs| && !Ready(s.pcs[t])
    ensures Progress(s, Step(s, t, scan), t)
  {
    var pc := s.pcs[t];
    if Pushing(pc) {
      PushCloser(s, t);
    } else if Guarding(pc) {
      GuardCloser(s, t, scan);
    } else if pc.PopCheck? || pc.PopCheck1? {
      CheckCloser(s, t, scan);
    } else if pc.PopRetire? {
      RetireCloser(s, t, scan);
    } else if pc.PopScan? {
      ScanCloser(s, t, scan);
    } else {
      ReadCloser(s, t, scan);
    }
  }

  predicate Rests(s: State, t: Tid) {
    t < |s.pcs| && Ready(s.pcs[t])
  }

  /** After `n` accesses of its own, left alone, `t` has returned. */
  ghost predicate Returns(s: State, t: Tid, scan: bool, n: nat)
    decreases n
  {
    if n == 0 || t >= |s.pcs| then Rests(s, t) else Returns(Step(s, t, scan), t, scan, n - 1)
  }

  lemma {:induction false} ReturnsAlone(s: State, t: Tid, scan: bool, n: nat)
    ensures Returns(s, t, scan, n) == Rests(Solo(s, t, scan, n), t)
    decreases n
  {
    if n == 0 || t >= |s.pcs| {
      assert Solo(s, t, scan, n) == s;
    } else {
      var s1 := Step(s, t, scan);
      ReturnsAlone(s1, t, scan, n - 1);
      assert Solo(s, t, scan, n) == Solo(s1, t, scan, n - 1);
      assert Returns(s, t, scan, n) == Returns(s1, t, scan, n - 1);
    }
  }

  function Left(s: State, t: Tid): nat {
    if t < |s.pcs| then ToGo(s.pcs[t], s.head, s.tail) else 0
  }

  lemma {:induction false} Finishes(s: State, t: Tid, scan: bool) returns (n: nat)
    requires Inv(s) && t < |s.pcs|
    ensures Returns(s, t, scan, n)
    decreases Left(s, t), if Rests(s, t) then 0 else 1, ScanStage(s, t), ScanOuter(s, t), ScanInner(s, t)
  {
    if Rests(s, t) {
      n := 0;
    } else {
      StepProgresses(s, t, scan);
      if Pushing(s.pcs[t]) { PushInv(s, t); } else { PopInv(s, t, scan); }
      var m := Finishes(Step(s, t, scan), t, scan);
      n := m + 1;
    }
  }

  /** Obstruction freedom: in whatever state a run has come to, wherever the others
      were stopped and whatever they retired or confirmed, an operation that is
      left alone returns, its scan included. */
  lemma RunFinishes(s0: State, sched: seq<Action>, t: Tid, scan: bool) returns (n: nat)
    requires Init(s0) && t < |Run(s0, sched).pcs|
    ensures Rests(Solo(Run(s0, sched), t, scan, n), t)
  {
    InitInv(s0);
    RunInv(s0, sched);
    n := Finishes(Run(s0, sched), t, scan);
    ReturnsAlone(Run(s0, sched), t, scan, n);
  }
}
