/** What the ring buffer answers its callers, against what its steps did: in
    every run each thread's answers are exactly the items its own CASes moved,
    and an operation fails only for a cause it met during the call. */
module RingAnswers {
  import opened Common
  import opened Ledger
  import opened RingBuffer

  /** The action starts a call of thread `t`. */
  predicate Starts(s: State, a: Action, t: Tid) {
    a.Call? && a.t == t && t in s.pcs && Ready(s.pcs[t])
  }

  /** From `s` to `s'` thread `t`'s operation has returned. */
  predicate Ends(s: State, s': State, t: Tid) {
    t in s.pcs && t in s'.pcs && !Ready(s.pcs[t]) && Ready(s'.pcs[t])
  }

  /** The item a trypush of `v` was told is in, if it was told so just now. */
  function PushTold(s: State, s': State, t: Tid, v: Item): Option<Item> {
    if Ends(s, s', t) && s'.pcs[t] == DonePush(true) then Some(v) else None
  }

  /** The item a trypop has just returned. */
  function PopTold(s: State, s': State, t: Tid): Option<Item> {
    if Ends(s, s', t) && s'.pcs[t].DonePop? then s'.pcs[t].res else None
  }

  /** `asked` is the argument of each thread's last trypush. */
  datatype Watch = Watch(asked: map<Tid, Item>, puts: Book<Tid, Item>, takes: Book<Tid, Item>)

  const BLANK: Watch := Watch(map[], Book([], []), Book([], []))

  function Observe(w: Watch, s: State, a: Action): Watch
    requires Wf(s)
  {
    var t, s' := a.t, Next(s, a);
    Watch(if Starts(s, a, t) && a.op.TryPush? then w.asked[t := a.op.v] else w.asked,
          Enter(w.puts, t, Grown(s.pushed, s'.pushed),
                if t in w.asked then PushTold(s, s', t, w.asked[t]) else None),
          Enter(w.takes, t, Grown(s.popped, s'.popped), PopTold(s, s', t)))
  }

  function Watched(w: Watch, s: State, sched: seq<Action>): Watch
    requires Wf(s)
    decreases |sched|
  {
    if sched == [] then w else Watched(Observe(w, s, sched[0]), Next(s, sched[0]), sched[1..])
  }

  /** What a thread has moved and not yet answered for. */
  function PutBy(pc: Pc): Option<Item> {
    if pc.PushStore? then Some(pc.v) else None
  }

  function TakenBy(pc: Pc): Option<Item> {
    if pc.PopClear? then Some(pc.ret) else None
  }

  ghost predicate Honest(w: Watch, s: State, t: Tid)
    requires t in s.pcs
  {
    && Square(w.puts, t, PutBy(s.pcs[t])) && Square(w.takes, t, TakenBy(s.pcs[t]))
    && (Pushing(s.pcs[t]) ==> t in w.asked && w.asked[t] == s.pcs[t].v)
  }

  lemma PushFlows(s: State, t: Tid)
    requires Wf(s) && t in s.pcs && Pushing(s.pcs[t])
    ensures var s' := GoStep(s, t);
      && Flows(PutBy(s.pcs[t]), Grown(s.pushed, s'.pushed), PushTold(s, s', t, s.pcs[t].v), PutBy(s'.pcs[t]))
      && s'.popped == s.popped && PopTold(s, s', t) == None == TakenBy(s'.pcs[t])
      && (Pushing(s'.pcs[t]) ==> s'.pcs[t].v == s.pcs[t].v)
  {
  }

  lemma PopFlows(s: State, t: Tid)
    requires Wf(s) && t in s.pcs && Popping(s.pcs[t])
    ensures var s' := GoStep(s, t);
      && Flows(TakenBy(s.pcs[t]), Grown(s.popped, s'.popped), PopTold(s, s', t), TakenBy(s'.pcs[t]))
      && s'.pushed == s.pushed && PutBy(s'.pcs[t]) == None && !Pushing(s'.pcs[t])
      && (forall v :: PushTold(s, s', t, v) == None)
  {
  }

  /** size() and a thread at rest move nothing and hand over nothing. */
  lemma SizeFlows(s: State, t: Tid)
    requires Wf(s) && t in s.pcs && !Pushing(s.pcs[t]) && !Popping(s.pcs[t])
    ensures var s' := GoStep(s, t);
      && s'.pushed == s.pushed && s'.popped == s.popped && !Pushing(s'.pcs[t]) && !Popping(s'.pcs[t])
      && PopTold(s, s', t) == None && (forall v :: PushTold(s, s', t, v) == None)
  {
  }

  lemma GoHonest(w: Watch, s: State, t: Tid)
    requires Wf(s) && t in s.pcs && Honest(w, s, t)
    ensures Honest(Observe(w, s, Go(t)), GoStep(s, t), t)
  {
    var s', pc := GoStep(s, t), s.pcs[t];
    if Pushing(pc) {
      PushFlows(s, t);
      EnterSquare(w.puts, t, Grown(s.pushed, s'.pushed), PushTold(s, s', t, pc.v), PutBy(pc), PutBy(s'.pcs[t]));
      EnterSquare(w.takes, t, None, None, None, None);
    } else if Popping(pc) {
      PopFlows(s, t);
      EnterSquare(w.takes, t, Grown(s.popped, s'.popped), PopTold(s, s', t), TakenBy(pc), TakenBy(s'.pcs[t]));
      EnterSquare(w.puts, t, None, None, None, None);
    } else {
      SizeFlows(s, t);
      EnterSquare(w.puts, t, None, None, None, None);
      EnterSquare(w.takes, t, None, None, None, None);
    }
  }

  lemma CallFlows(s: State, t: Tid, op: Op)
    requires Wf(s) && t in s.pcs && Ready(s.pcs[t])
    ensures var s' := Next(s, Call(t, op));
      && s'.pushed == s.pushed && s'.popped == s.popped && t in s'.pcs
      && PutBy(s'.pcs[t]) == None == TakenBy(s'.pcs[t]) && !Ends(s, s', t)
      && (Pushing(s'.pcs[t]) ==> op == TryPush(s'.pcs[t].v))
  {
  }

  lemma CallHonest(w: Watch, s: State, t: Tid, op: Op)
    requires Wf(s) && t in s.pcs && Honest(w, s, t)
    ensures var s' := Next(s, Call(t, op));
      t in s'.pcs && Honest(Observe(w, s, Call(t, op)), s', t)
  {
    if Ready(s.pcs[t]) { CallFlows(s, t, op); }
    EnterSquare(w.puts, t, None, None, PutBy(s.pcs[t]), PutBy(s.pcs[t]));
    EnterSquare(w.takes, t, None, None, TakenBy(s.pcs[t]), TakenBy(s.pcs[t]));
  }

  lemma OtherHonest(w: Watch, s: State, a: Action, t: Tid)
    requires Wf(s) && t in s.pcs && a.t != t && Honest(w, s, t)
    ensures t in Next(s, a).pcs && Honest(Observe(w, s, a), Next(s, a), t)
  {
    OthersStay(s, a, t);
    var u, s' := a.t, Next(s, a);
    EnterOther(w.puts, u, Grown(s.pushed, s'.pushed),
               if u in w.asked then PushTold(s, s', u, w.asked[u]) else None, t, PutBy(s.pcs[t]));
    EnterOther(w.takes, u, Grown(s.popped, s'.popped), PopTold(s, s', u), t, TakenBy(s.pcs[t]));
  }

  lemma OthersStay(s: State, a: Action, t: Tid)
    requires Wf(s) && t in s.pcs && a.t != t
    ensures t in Next(s, a).pcs && Next(s, a).pcs[t] == s.pcs[t]
  {
  }

  lemma NextHonest(w: Watch, s: State, a: Action, t: Tid)
    requires Wf(s) && t in s.pcs && Honest(w, s, t)
    ensures t in Next(s, a).pcs && Honest(Observe(w, s, a), Next(s, a), t)
  {
    if a.t != t {
      OtherHonest(w, s, a, t);
    } else {
      match a
      case Call(_, op) => CallHonest(w, s, t, op);
      case Go(_) => GoHonest(w, s, t);
    }
  }

  lemma {:induction false} RunHonest(w: Watch, s: State, sched: seq<Action>, t: Tid)
    requires Wf(s) && t in s.pcs && Honest(w, s, t)
    ensures t in Run(s, sched).pcs && Honest(Watched(w, s, sched), Run(s, sched), t)
    decreases |sched|
  {
    if sched == [] {
    } else {
      NextHonest(w, s, sched[0], t);
      RunHonest(Observe(w, s, sched[0]), Next(s, sched[0]), sched[1..], t);
    }
  }

  /** The books hold the whole of both histories. */
  ghost predicate Complete(w: Watch, s: State) {
    Values(w.puts.done) == s.pushed && Values(w.takes.done) == s.popped
  }

  lemma NextGrows(s: State, a: Action)
    requires Wf(s)
    ensures var s' := Next(s, a);
      && s'.pushed == s.pushed + Items(Grown(s.pushed, s'.pushed))
      && s'.popped == s.popped + Items(Grown(s.popped, s'.popped))
  {
  }

  lemma {:induction false} RunComplete(w: Watch, s: State, sched: seq<Action>)
    requires Wf(s) && Complete(w, s)
    ensures Complete(Watched(w, s, sched), Run(s, sched))
    decreases |sched|
  {
    if sched == [] {
    } else {
      var s' := Next(s, sched[0]);
      NextGrows(s, sched[0]);
      AddValues(w.puts.done, sched[0].t, Grown(s.pushed, s'.pushed));
      AddValues(w.takes.done, sched[0].t, Grown(s.popped, s'.popped));
      RunComplete(Observe(w, s, sched[0]), s', sched[1..]);
    }
  }

  /** In every run: `takes.done` says which thread's CAS on low moved which item,
      and is all of `popped`; the non-NULL answers of each thread's trypop are, in
      order, exactly the items its own CASes moved, but for one it has claimed
      and not yet cleared. So no item is answered twice, none is lost, and who
      loses the CAS is answered NULL. Likewise the arguments each thread was told
      are in are exactly those its own CASes on high appended to `pushed`. */
  lemma RunAnswers(s0: State, sched: seq<Action>)
    requires Init(s0)
    ensures var s, w := Run(s0, sched), Watched(BLANK, s0, sched);
      && Values(w.puts.done) == s.pushed && Values(w.takes.done) == s.popped
      && (forall t :: t in s0.pcs ==>
            && t in s.pcs
            && Of(w.takes.done, t) == Of(w.takes.told, t) + Items(TakenBy(s.pcs[t]))
            && Of(w.puts.done, t) == Of(w.puts.told, t) + Items(PutBy(s.pcs[t])))
  {
    RunComplete(BLANK, s0, sched);
    forall t | t in s0.pcs ensures t in Run(s0, sched).pcs && Honest(Watched(BLANK, s0, sched), Run(s0, sched), t) {
      RunHonest(BLANK, s0, sched, t);
    }
  }

  // Failing.

  /** Why a trypush may fail: no room, or the slot it would use was popped and is
      not yet cleared. Why a trypop may: no item, or the first is not stored. */
  predicate Cause(s: State, pc: Pc) {
    if Pushing(pc) then s.low + s.size <= s.high || (s.high >= s.size && s.high - s.size in s.clearing)
    else s.high <= s.low || s.low in s.storing
  }

  /** Or another thread got in first. */
  predicate Beaten(s: State, s': State, pc: Pc) {
    if Pushing(pc) then s'.high != s.high else s'.low != s.low
  }

  /** `xs` are the threads that have met a reason to fail since their call began. */
  function Excuse(xs: set<Tid>, s: State, a: Action): set<Tid>
    requires Wf(s)
  {
    set t | t in s.pcs && !Starts(s, a, t) &&
            (t in xs || Cause(s, s.pcs[t]) || (a.t != t && Beaten(s, Next(s, a), s.pcs[t])))
  }

  function Excused(xs: set<Tid>, s: State, sched: seq<Action>): set<Tid>
    requires Wf(s)
    decreases |sched|
  {
    if sched == [] then xs else Excused(Excuse(xs, s, sched[0]), Next(s, sched[0]), sched[1..])
  }

  /** As long as nothing has come in its way a thread's readings are such that it
      will succeed. */
  ghost predicate OnCourse(xs: set<Tid>, s: State, t: Tid)
    requires t in s.pcs
  {
    t in xs ||
    match s.pcs[t]
    case PushHigh(_, low) => s.high < low + s.size
    case PushSlot(_, low, high) => high == s.high < low + s.size
    case PushCas(_, high) => high == s.high
    case PopLow(high) => s.low < high
    case PopSlot(high, low) => low == s.low < high
    case PopCas(low, _) => low == s.low
    case _ => true
  }

  /** From `s` to `s'` thread `t`'s trypush or trypop has failed. */
  predicate Fails(s: State, s': State, t: Tid) {
    Ends(s, s', t) && (s'.pcs[t] == DonePush(false) || s'.pcs[t] == DonePop(None))
  }

  lemma PushOnCourse(xs: set<Tid>, s: State, t: Tid)
    requires Inv(s) && t in s.pcs && Pushing(s.pcs[t]) && OnCourse(xs, s, t)
    requires t !in xs && !Cause(s, s.pcs[t])
    ensures OnCourse(xs, GoStep(s, t), t) && !Fails(s, GoStep(s, t), t)
  {
    assert ThreadOk(s, t);
    if s.pcs[t].PushSlot? { assert s.buf[Slot(s.high, s.size)] == Expected(s, s.high); }
  }

  lemma PopOnCourse(xs: set<Tid>, s: State, t: Tid)
    requires Inv(s) && t in s.pcs && !Pushing(s.pcs[t]) && OnCourse(xs, s, t)
    requires t !in xs && !Cause(s, s.pcs[t])
    ensures OnCourse(xs, GoStep(s, t), t) && !Fails(s, GoStep(s, t), t)
  {
    assert ThreadOk(s, t);
    if s.pcs[t].PopSlot? { assert s.buf[Slot(s.low, s.size)] == Expected(s, s.low); }
  }

  lemma OtherOnCourse(xs: set<Tid>, s: State, a: Action, t: Tid)
    requires Wf(s) && t in s.pcs && a.t != t && OnCourse(xs, s, t) && t !in Excuse(xs, s, a)
    ensures t in Next(s, a).pcs && OnCourse(xs, Next(s, a), t) && !Fails(s, Next(s, a), t)
  {
    OthersStay(s, a, t);
  }

  lemma NextOnCourse(xs: set<Tid>, s: State, a: Action, t: Tid)
    requires Inv(s) && t in s.pcs && OnCourse(xs, s, t)
    ensures var s', xs' := Next(s, a), Excuse(xs, s, a);
      t in s'.pcs && OnCourse(xs', s', t) && (Fails(s, s', t) ==> t in xs')
  {
    if t in Excuse(xs, s, a) {
    } else if a.t != t {
      OtherOnCourse(xs, s, a, t);
    } else {
      match a
      case Call(_, op) => CallOnCourse(xs, s, t, op);
      case Go(_) => if Pushing(s.pcs[t]) { PushOnCourse(xs, s, t); } else { PopOnCourse(xs, s, t); }
    }
  }

  lemma CallOnCourse(xs: set<Tid>, s: State, t: Tid, op: Op)
    requires Wf(s) && t in s.pcs && OnCourse(xs, s, t) && t !in Excuse(xs, s, Call(t, op))
    ensures var s' := Next(s, Call(t, op));
      t in s'.pcs && OnCourse(Excuse(xs, s, Call(t, op)), s', t) && !Fails(s, s', t)
  {
  }

  lemma {:induction false} RunOnCourse(xs: set<Tid>, s: State, sched: seq<Action>, t: Tid)
    requires Inv(s) && t in s.pcs && OnCourse(xs, s, t)
    ensures Inv(Run(s, sched)) && t in Run(s, sched).pcs && OnCourse(Excused(xs, s, sched), Run(s, sched), t)
    decreases |sched|
  {
    if sched == [] {
    } else {
      NextInv(s, sched[0]);
      NextOnCourse(xs, s, sched[0], t);
      RunOnCourse(Excuse(xs, s, sched[0]), Next(s, sched[0]), sched[1..], t);
    }
  }

  /** In every run, whoever is told that a trypush or a trypop failed has met a
      reason during that very call: at some moment there was no room, or no item,
      or the slot in question was half-way through another thread's operation, or
      another thread's CAS got in first. */
  lemma RunFailsForCause(s0: State, sched: seq<Action>, a: Action, t: Tid)
    requires Init(s0) && t in s0.pcs
    ensures var s := Run(s0, sched);
      Fails(s, Next(s, a), t) ==> t in Excuse(Excused({}, s0, sched), s, a)
  {
    InitInv(s0);
    RunOnCourse({}, s0, sched, t);
    NextOnCourse(Excused({}, s0, sched), Run(s0, sched), a, t);
  }

  // The size reported.

  /** `began` is the value of high when each thread's last call began. */
  function Marks(began: map<Tid, nat>, s: State, sched: seq<Action>): map<Tid, nat>
    requires Wf(s)
    decreases |sched|
  {
    if sched == [] then began else Marks(Mark(began, s, sched[0]), Next(s, sched[0]), sched[1..])
  }

  function Mark(began: map<Tid, nat>, s: State, a: Action): map<Tid, nat> {
    if Starts(s, a, a.t) then began[a.t := s.high] else began
  }

  ghost predicate Sized(began: map<Tid, nat>, s: State, t: Tid)
    requires t in s.pcs
  {
    match s.pcs[t]
    case SizeHigh => t in began && began[t] <= s.high
    case SizeLow(high) => t in began && began[t] <= high <= s.high
    case _ => true
  }

  /** From `s` to `s'` size() has told thread `t` a number: at most what is in the
      buffer at that moment, and at least what was in it when the call began and
      still is. */
  ghost predicate TellsSize(began: map<Tid, nat>, s: State, s': State, t: Tid) {
    Ends(s, s', t) && s'.pcs[t].DoneSize? ==>
      t in began && s.low <= s.high && began[t] - s.low <= s'.pcs[t].n <= s.high - s.low
  }

  lemma NextSized(began: map<Tid, nat>, s: State, a: Action, t: Tid)
    requires Inv(s) && t in s.pcs && Sized(began, s, t)
    ensures var s' := Next(s, a);
      t in s'.pcs && Sized(Mark(began, s, a), s', t) && TellsSize(began, s, s', t)
  {
    if a.t != t {
      NextHigh(s, a);
      OthersStay(s, a, t);
    } else if a.Go? {
      if s.pcs[t].SizeHigh? || s.pcs[t].SizeLow? { SizeSized(began, s, t); } else { OpKeepsKind(s, t); }
    }
  }

  lemma SizeSized(began: map<Tid, nat>, s: State, t: Tid)
    requires Counts(s) && t in s.pcs && (s.pcs[t].SizeHigh? || s.pcs[t].SizeLow?) && Sized(began, s, t)
    ensures Sized(began, GoStep(s, t), t) && TellsSize(began, s, GoStep(s, t), t)
  {
  }

  /** A step of another operation does not answer for size(). */
  lemma OpKeepsKind(s: State, t: Tid)
    requires Wf(s) && t in s.pcs && !s.pcs[t].SizeHigh? && !s.pcs[t].SizeLow?
    ensures var pc := GoStep(s, t).pcs[t];
      !pc.SizeHigh? && !pc.SizeLow? && (pc.DoneSize? ==> pc == s.pcs[t])
  {
  }

  lemma NextHigh(s: State, a: Action)
    requires Wf(s)
    ensures s.high <= Next(s, a).high
  {
  }

  lemma {:induction false} RunSized(began: map<Tid, nat>, s: State, sched: seq<Action>, t: Tid)
    requires Inv(s) && t in s.pcs && Sized(began, s, t)
    ensures Inv(Run(s, sched)) && t in Run(s, sched).pcs && Sized(Marks(began, s, sched), Run(s, sched), t)
    decreases |sched|
  {
    if sched == [] {
    } else {
      NextInv(s, sched[0]);
      NextSized(began, s, sched[0], t);
      RunSized(Mark(began, s, sched[0]), Next(s, sched[0]), sched[1..], t);
    }
  }

  /** In every run size() reports at most the number of items in the buffer at its
      last read, and at least the number of those that were in it when the call
      began and are still there. */
  lemma RunSizeIsBracketed(s0: State, sched: seq<Action>, a: Action, t: Tid)
    requires Init(s0) && t in s0.pcs
    ensures var s := Run(s0, sched);
      TellsSize(Marks(map[], s0, sched), s, Next(s, a), t)
  {
    InitInv(s0);
    RunSized(map[], s0, sched, t);
    NextSized(Marks(map[], s0, sched), Run(s0, sched), a, t);
  }

  /** Alone, size() is exact, and changes nothing. */
  lemma SizeAlone(s: State, t: Tid)
    requires Inv(s) && t in s.pcs && Ready(s.pcs[t])
    ensures var s' := Solo(Next(s, Call(t, Size)), t, 2);
      Inv(s') && s'.pcs[t] == DoneSize(|Queue(s)|) && s' == s.(pcs := s'.pcs)
  {
    SizeReads(s, t);
    GotoInv(s, t, DoneSize(|Queue(s)|));
  }

  lemma SizeReads(s: State, t: Tid)
    requires Counts(s) && t in s.pcs && Ready(s.pcs[t])
    ensures Solo(Next(s, Call(t, Size)), t, 2) == Goto(s, t, DoneSize(|Queue(s)|))
  {
    var s1, s2 := Goto(s, t, SizeHigh), Goto(s, t, SizeLow(s.high));
    Regoto(s, t, SizeHigh, SizeLow(s.high));
    Regoto(s, t, SizeLow(s.high), DoneSize(|Queue(s)|));
    assert GoStep(s1, t) == s2;
    assert Solo(s1, t, 2) == Solo(s2, t, 1) == GoStep(s2, t);
  }

  // Returning.

  /** How many accesses of its own an operation can have to go. */
  function Ahead(pc: Pc): nat {
    match pc
    case PushLow(_) => 5
    case PushHigh(_, _) => 4
    case PushSlot(_, _, _) => 3
    case PushCas(_, _) => 2
    case PushStore(_, _) => 1
    case PopHigh => 5
    case PopLow(_) => 4
    case PopSlot(_, _) => 3
    case PopCas(_, _) => 2
    case PopClear(_, _) => 1
    case SizeHigh => 2
    case SizeLow(_) => 1
    case _ => 0
  }

  /** Of two states of a thread the second is nearer its return. */
  predicate Nearer(pc: Pc, pc': Pc) {
    Ahead(pc') <= if Ahead(pc) == 0 then 0 else Ahead(pc) - 1
  }

  lemma PushNearsEnd(s: State, t: Tid)
    requires Wf(s) && t in s.pcs && Pushing(s.pcs[t])
    ensures Nearer(s.pcs[t], GoStep(s, t).pcs[t])
  {
  }

  lemma OtherNearsEnd(s: State, t: Tid)
    requires Wf(s) && t in s.pcs && !Pushing(s.pcs[t])
    ensures Nearer(s.pcs[t], GoStep(s, t).pcs[t])
  {
  }

  /** The accesses of thread `t` in a schedule. */
  function Own(sched: seq<Action>, t: Tid): nat {
    if sched == [] then 0 else (if sched[0] == Go(t) then 1 else 0) + Own(sched[1..], t)
  }

  /** No operation waits: whatever the other threads do or leave undone, it has
      returned after at most five accesses of its own. */
  lemma {:induction false} RunReturns(s: State, sched: seq<Action>, t: Tid)
    requires Wf(s) && t in s.pcs && Own(sched, t) >= Ahead(s.pcs[t])
    requires forall a :: a in sched && a.t == t ==> a == Go(t)
    ensures t in Run(s, sched).pcs && Ready(Run(s, sched).pcs[t]) && Ahead(s.pcs[t]) <= 5
    decreases |sched|
  {
    if sched == [] {
    } else {
      var a := sched[0];
      if a != Go(t) {
        OthersStay(s, a, t);
      } else if Pushing(s.pcs[t]) {
        PushNearsEnd(s, t);
      } else {
        OtherNearsEnd(s, t);
      }
      RunReturns(Next(s, a), sched[1..], t);
    }
  }
}
