/** What the stack answers its callers, against the history of the atomic stack:
    in every run each thread is told exactly what its own log entries did. */
module LifoAnswers {
  import opened AtomicDeque
  import opened Common
  import opened Ledger
  import opened MpmcLifo

  /** From `s` to `s'` thread `t`'s operation has returned. */
  predicate Ends(s: State, s': State, t: Tid) {
    t in s.pcs && t in s'.pcs && !Ready(s.pcs[t]) && Ready(s'.pcs[t])
  }

  /** The argument of a push that has just returned. */
  function PushTold(s: State, s': State, t: Tid, n: Node): Option<Node> {
    if Ends(s, s', t) && s'.pcs[t] == DonePush then Some(n) else None
  }

  /** The node a pop has just returned. */
  function PopTold(s: State, s': State, t: Tid): Option<Node> {
    if Ends(s, s', t) && s'.pcs[t].DonePop? && s'.pcs[t].res != 0 then Some(s'.pcs[t].res) else None
  }

  /** `asked` is the argument of each thread's last push. */
  datatype Watch = Watch(asked: map<Tid, Node>, puts: Book<Tid, Node>, takes: Book<Tid, Node>)

  const BLANK: Watch := Watch(map[], Book([], []), Book([], []))

  predicate StartsPush(s: State, a: Action) {
    a.Push? && a.t in s.pcs && Ready(s.pcs[a.t]) && a.n in s.place && s.place[a.n].Loose?
  }

  /** A caller's write to its own node is nobody's operation. */
  function Observe(w: Watch, s: State, a: Action): Watch {
    if a.Scribble? then w
    else
      var t, s' := a.t, Next(s, a);
      Watch(if StartsPush(s, a) then w.asked[t := a.n] else w.asked,
            Enter(w.puts, t, Put(s.log, s'.log), if t in w.asked then PushTold(s, s', t, w.asked[t]) else None),
            Enter(w.takes, t, Taken(s.log, s'.log), PopTold(s, s', t)))
  }

  function Watched(w: Watch, s: State, sched: seq<Action>): Watch
    decreases |sched|
  {
    if sched == [] then w else Watched(Observe(w, s, sched[0]), Next(s, sched[0]), sched[1..])
  }

  predicate Pushing(pc: Pc) {
    pc.PushCounter? || pc.PushHead? || pc.PushLink? || pc.PushCas?
  }

  ghost predicate Honest(w: Watch, s: State, t: Tid)
    requires t in s.pcs
  {
    && Square(w.puts, t, None) && Square(w.takes, t, None)
    && (Pushing(s.pcs[t]) ==> t in w.asked && w.asked[t] == s.pcs[t].n)
  }

  /** A push returns at the very step that puts its node on the stack and no
      other, and a pop returns a node at the very step that takes it off. */
  lemma GoFlows(s: State, t: Tid)
    requires Inv(s) && t in s.pcs
    ensures var s', pc := GoStep(s, t), s.pcs[t];
      && Put(s.log, s'.log) == PushTold(s, s', t, if Pushing(pc) then pc.n else 0)
      && Taken(s.log, s'.log) == PopTold(s, s', t)
      && (Pushing(s'.pcs[t]) ==> Pushing(pc) && s'.pcs[t].n == pc.n)
      && (!Pushing(pc) ==> forall n :: PushTold(s, s', t, n) == None)
  {
    assert ThreadOk(s, t);
  }

  lemma CallFlows(s: State, a: Action)
    requires (a.Push? || a.Pop?) && a.t in s.pcs
    ensures var s' := Next(s, a);
      && s'.log == s.log && !Ends(s, s', a.t) && a.t in s'.pcs
      && (Pushing(s'.pcs[a.t]) && !StartsPush(s, a) ==> s'.pcs[a.t] == s.pcs[a.t])
      && (StartsPush(s, a) ==> s'.pcs[a.t] == PushCounter(a.n))
  {
  }

  lemma OthersStay(s: State, a: Action, t: Tid)
    requires t in s.pcs && (a.Scribble? || a.t != t)
    ensures t in Next(s, a).pcs && Next(s, a).pcs[t] == s.pcs[t]
  {
  }

  lemma NextHonest(w: Watch, s: State, a: Action, t: Tid)
    requires Inv(s) && t in s.pcs && Honest(w, s, t)
    ensures t in Next(s, a).pcs && Honest(Observe(w, s, a), Next(s, a), t)
  {
    if a.Scribble? {
      OthersStay(s, a, t);
    } else {
      var u, s' := a.t, Next(s, a);
      var told := if u in w.asked then PushTold(s, s', u, w.asked[u]) else None;
      if u == t {
        if a.Go? { GoFlows(s, t); } else { CallFlows(s, a); }
        EnterSquare(w.puts, t, Put(s.log, s'.log), told, None, None);
        EnterSquare(w.takes, t, Taken(s.log, s'.log), PopTold(s, s', t), None, None);
      } else {
        OthersStay(s, a, t);
        EnterOther(w.puts, u, Put(s.log, s'.log), told, t, None);
        EnterOther(w.takes, u, Taken(s.log, s'.log), PopTold(s, s', u), t, None);
      }
    }
  }

  lemma {:induction false} RunHonest(w: Watch, s: State, sched: seq<Action>, t: Tid)
    requires Inv(s) && t in s.pcs && Honest(w, s, t)
    ensures t in Run(s, sched).pcs && Honest(Watched(w, s, sched), Run(s, sched), t)
    decreases |sched|
  {
    if sched == [] {
    } else {
      NextHonest(w, s, sched[0], t);
      NextInv(s, sched[0]);
      RunHonest(Observe(w, s, sched[0]), Next(s, sched[0]), sched[1..], t);
    }
  }

  /** The books hold the whole of the log. */
  ghost predicate Complete(w: Watch, s: State) {
    Values(w.puts.done) == PutIn(s.log) && Values(w.takes.done) == Values(TakenOut(s.log))
  }

  lemma NextLog(s: State, a: Action)
    ensures var log' := Next(s, a).log;
      log' == s.log + Items(Grown(s.log, log')) && (a.Scribble? ==> log' == s.log)
  {
  }

  lemma {:induction false} RunComplete(w: Watch, s: State, sched: seq<Action>)
    requires Complete(w, s)
    ensures Complete(Watched(w, s, sched), Run(s, sched))
    decreases |sched|
  {
    if sched == [] {
    } else {
      var a, s' := sched[0], Next(s, sched[0]);
      NextLog(s, a);
      LogGrows(s.log, s'.log);
      var e := Grown(s.log, s'.log);
      AddValues(TakenOut(s.log), if e.Some? then Signer(e.value) else None, Taken(s.log, s'.log));
      if !a.Scribble? {
        AddValues(w.puts.done, a.t, Put(s.log, s'.log));
        AddValues(w.takes.done, a.t, Taken(s.log, s'.log));
      }
      RunComplete(Observe(w, s, a), s', sched[1..]);
    }
  }

  /** In every run the log is all there is, entry by entry the doing of some
      thread; each thread's pops have returned exactly the nodes its own entries
      took off, and each push that has returned has put its argument on, once and
      at that very step. With MpmcLifo.RunIsAtomicStack the answers are those of
      one atomic stack. */
  lemma RunAnswers(s0: State, sched: seq<Action>)
    requires Init(s0)
    ensures var s, w := Run(s0, sched), Watched(BLANK, s0, sched);
      && Values(w.puts.done) == PutIn(s.log) && Values(w.takes.done) == Values(TakenOut(s.log))
      && (forall t :: t in s0.pcs ==>
            Of(w.puts.done, t) == Of(w.puts.told, t) && Of(w.takes.done, t) == Of(w.takes.told, t))
  {
    InitInv(s0);
    RunComplete(BLANK, s0, sched);
    forall t | t in s0.pcs ensures t in Run(s0, sched).pcs && Honest(Watched(BLANK, s0, sched), Run(s0, sched), t) {
      RunHonest(BLANK, s0, sched, t);
    }
  }

  /** A push of `n` returns exactly at the step that puts `n` on top of the stack
      and logs it. */
  lemma PushEndsAsItPushes(s: State, a: Action, t: Tid)
    requires Inv(s) && t in s.pcs && Pushing(s.pcs[t])
    ensures var n, s' := s.pcs[t].n, Next(s, a);
      && (Ends(s, s', t) <==> a == Go(t) && s'.stack == s.stack + [n] && s'.log == s.log + [Pushed(n)])
      && (Ends(s, s', t) ==> s'.pcs[t] == DonePush)
  {
    if a.Scribble? || a.t != t {
      OthersStay(s, a, t);
    } else if a.Go? {
      PushStepEnds(s, t);
    }
  }

  lemma PushStepEnds(s: State, t: Tid)
    requires Inv(s) && t in s.pcs && Pushing(s.pcs[t])
    ensures var n, s' := s.pcs[t].n, GoStep(s, t);
      && (Ends(s, s', t) <==> s'.stack == s.stack + [n] && s'.log == s.log + [Pushed(n)])
      && (Ends(s, s', t) ==> s'.pcs[t] == DonePush)
  {
    if s.pcs[t].PushCas? {
      PushCasRefines(s, t);
    } else {
      OtherStepsKeepTheStack(s, Go(t));
    }
  }

  /** A pop of `t` returns exactly at the step that takes its answer off the top
      of the stack, or that sees the stack empty. */
  lemma PopEndsAsItPops(s: State, a: Action, t: Tid)
    requires Inv(s) && t in s.pcs && !Ready(s.pcs[t]) && !Pushing(s.pcs[t]) && Ends(s, Next(s, a), t)
    ensures var s' := Next(s, a);
      && a == Go(t) && s'.pcs[t].DonePop?
      && (if s'.pcs[t].res == 0 then s.stack == [] && s'.stack == [] && s'.log == s.log
          else s.stack == s'.stack + [s'.pcs[t].res] && s'.log == s.log + [Popped(s'.pcs[t].res)])
  {
    if a.Scribble? || a.t != t {
      OthersStay(s, a, t);
    } else if a.Go? {
      PopStepEnds(s, t);
    }
  }

  lemma PopStepEnds(s: State, t: Tid)
    requires Inv(s) && t in s.pcs && !Ready(s.pcs[t]) && !Pushing(s.pcs[t]) && Ends(s, GoStep(s, t), t)
    ensures var s' := GoStep(s, t);
      && s'.pcs[t].DonePop?
      && (if s'.pcs[t].res == 0 then s.stack == [] && s'.stack == [] && s'.log == s.log
          else s.stack == s'.stack + [s'.pcs[t].res] && s'.log == s.log + [Popped(s'.pcs[t].res)])
  {
    assert ThreadOk(s, t);
    if s.pcs[t].PopCas? {
      PopCasRefines(s, t);
    } else {
      OtherStepsKeepTheStack(s, Go(t));
    }
  }

  // Returning.

  function Ahead(pc: Pc): nat {
    match pc
    case PushCounter(_) => 4
    case PushHead(_, _) => 3
    case PushLink(_, _, _) => 2
    case PushCas(_, _, _) => 1
    case PopCounter => 4
    case PopHead(_) => 3
    case PopNext(_, _) => 2
    case PopCas(_, _, _) => 1
    case _ => 0
  }

  /** Some operation has completed since the thread read the counter. */
  predicate Stale(pc: Pc, counter: nat) {
    match pc
    case PushHead(_, c) => c != counter
    case PushLink(_, c, _) => c != counter
    case PushCas(_, c, _) => c != counter
    case PopHead(c) => c != counter
    case PopNext(c, _) => c != counter
    case PopCas(c, _, _) => c != counter
    case _ => false
  }

  /** How many accesses of its own an operation has to go if nobody else completes
      one meanwhile: the rest of this attempt, and one more if it is stale. */
  function ToGo(pc: Pc, counter: nat): nat {
    Ahead(pc) + (if Stale(pc, counter) then 4 else 0)
  }

  lemma StepNearsEnd(s: State, t: Tid)
    requires Inv(s) && t in s.pcs
    ensures var s', n := GoStep(s, t), ToGo(s.pcs[t], s.counter);
      ToGo(s'.pcs[t], s'.counter) <= if n == 0 then 0 else n - 1
  {
    assert ThreadOk(s, t);
  }

  /** The accesses of thread `t` in a schedule. */
  function Own(sched: seq<Action>, t: Tid): nat {
    if sched == [] then 0 else (if sched[0] == Go(t) then 1 else 0) + Own(sched[1..], t)
  }

  /** No action of anybody but `t` completes an operation. */
  predicate Undisturbed(s: State, sched: seq<Action>, t: Tid)
    decreases |sched|
  {
    sched == [] ||
    ((sched[0] == Go(t) || Next(s, sched[0]).counter == s.counter) && Undisturbed(Next(s, sched[0]), sched[1..], t))
  }

  /** Lock freedom: an operation has returned after at most seven accesses of its
      own, wherever the others were stopped, unless another one completes. */
  lemma {:induction false} RunReturns(s: State, sched: seq<Action>, t: Tid)
    requires Inv(s) && t in s.pcs && Undisturbed(s, sched, t) && Own(sched, t) >= ToGo(s.pcs[t], s.counter)
    requires forall a :: a in sched && !a.Scribble? && a.t == t ==> a == Go(t)
    ensures t in Run(s, sched).pcs && Ready(Run(s, sched).pcs[t]) && ToGo(s.pcs[t], s.counter) <= 7
    decreases |sched|
  {
    if sched == [] {
    } else {
      var a := sched[0];
      if a == Go(t) { StepNearsEnd(s, t); } else { OthersStay(s, a, t); }
      NextInv(s, a);
      RunReturns(Next(s, a), sched[1..], t);
    }
  }
}
