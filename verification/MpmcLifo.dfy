/** The counter-tagged lock-free stack: any number of threads push and pop, and
    a popped node may be overwritten and pushed again at once. */
module MpmcLifo {
  import opened AtomicDeque
  import opened Common

  /** A node's address; 0 is NULL. */
  type Node = nat

  /** Where a thread stands; each step performs the access in the comment. The
      counter and the head are read separately and swapped together. */
  datatype Pc =
    | Idle
    | PushCounter(n: Node)                       // read counter
    | PushHead(n: Node, c: nat)                  // read head
    | PushLink(n: Node, c: nat, h: Node)         // node->next = head
    | PushCas(n: Node, c: nat, h: Node)          // double-word CAS
    | PopCounter                                 // read counter
    | PopHead(c: nat)                            // read head
    | PopNext(c: nat, h: Node)                   // read head->next
    | PopCas(c: nat, h: Node, next: Node)        // double-word CAS
    | DonePush
    | DonePop(res: Node)

  /** Who may write a node: it is in the stack, it is being pushed by a thread,
      or it belongs to some caller. */
  datatype Place = Stacked(i: nat) | Pushing(t: Tid) | Loose

  /** `Scribble` is any write of the caller to a node it owns. */
  datatype Action = Push(t: Tid, n: Node) | Pop(t: Tid) | Go(t: Tid) | Scribble(n: Node, next: Node)

  /** `place`, `stack` (bottom first) and `log` are history. */
  datatype State = State(
    counter: nat, head: Node, next: map<Node, Node>, pcs: map<Tid, Pc>,
    place: map<Node, Place>, stack: seq<Node>, log: seq<Event<Node>>)

  predicate Init(s: State) {
    && s.counter == 0 && s.head == 0 && 0 !in s.place && s.next.Keys == s.place.Keys
    && (forall n :: n in s.place ==> s.place[n] == Loose)
    && (forall t :: t in s.pcs ==> s.pcs[t] == Idle)
    && s.stack == [] && s.log == []
  }

  predicate Ready(pc: Pc) {
    pc.Idle? || pc.DonePush? || pc.DonePop?
  }

  function Goto(s: State, t: Tid, pc: Pc): State {
    s.(pcs := s.pcs[t := pc])
  }

  function Link(s: State, t: Tid, n: Node, c: nat, h: Node): State {
    Goto(s, t, PushCas(n, c, h)).(next := s.next[n := h])
  }

  /** A double-word CAS that succeeds, installing `n`. */
  function Install(s: State, t: Tid, n: Node): State {
    Goto(s, t, DonePush).(
      counter := s.counter + 1, head := n,
      place := s.place[n := Stacked(|s.stack|)], stack := s.stack + [n], log := s.log + [Pushed(n)])
  }

  /** A double-word CAS that succeeds, unlinking the head `h`. */
  function Unlink(s: State, t: Tid, h: Node, next: Node): State {
    Goto(s, t, DonePop(h)).(
      counter := s.counter + 1, head := next,
      place := s.place[h := Loose], stack := if s.stack == [] then [] else s.stack[..|s.stack| - 1],
      log := s.log + [Popped(h)])
  }

  function GoStep(s: State, t: Tid): State
    requires t in s.pcs
  {
    match s.pcs[t]
    case PushCounter(n) => Goto(s, t, PushHead(n, s.counter))
    case PushHead(n, c) => Goto(s, t, PushLink(n, c, s.head))
    case PushLink(n, c, h) => Link(s, t, n, c, h)
    case PushCas(n, c, h) =>
      if s.counter == c && s.head == h then Install(s, t, n) else Goto(s, t, PushCounter(n))
    case PopCounter => Goto(s, t, PopHead(s.counter))
    case PopHead(c) => Goto(s, t, if s.head == 0 then DonePop(0) else PopNext(c, s.head))
    case PopNext(c, h) => if h in s.next then Goto(s, t, PopCas(c, h, s.next[h])) else s
    case PopCas(c, h, next) =>
      if s.counter == c && s.head == h then Unlink(s, t, h, next) else Goto(s, t, PopCounter)
    case _ => s
  }

  function Next(s: State, a: Action): State {
    match a
    case Push(t, n) =>
      if t in s.pcs && Ready(s.pcs[t]) && n in s.place && s.place[n].Loose?
      then Goto(s, t, PushCounter(n)).(place := s.place[n := Pushing(t)])
      else s
    case Pop(t) => if t in s.pcs && Ready(s.pcs[t]) then Goto(s, t, PopCounter) else s
    case Go(t) => if t in s.pcs then GoStep(s, t) else s
    case Scribble(n, next) =>
      if n in s.place && s.place[n].Loose? then s.(next := s.next[n := next]) else s
  }

  function Run(s: State, sched: seq<Action>): State
    decreases |sched|
  {
    if sched == [] then s else Run(Next(s, sched[0]), sched[1..])
  }

  /** The nodes met walking `next` from `n`, at most `fuel` of them. */
  function Walk(next: map<Node, Node>, n: Node, fuel: nat): seq<Node>
    decreases fuel
  {
    if fuel == 0 || n == 0 || n !in next then [] else [n] + Walk(next, next[n], fuel - 1)
  }

  // ---------------------------------------------------------------- invariant

  function TopOf(q: seq<Node>): Node {
    if q == [] then 0 else q[|q| - 1]
  }

  /** The nodes of `q` are linked from the last down to the first. */
  ghost predicate Linked(next: map<Node, Node>, q: seq<Node>) {
    forall i :: 0 <= i < |q| ==> LinkedAt(next, q, i)
  }

  ghost predicate LinkedAt(next: map<Node, Node>, q: seq<Node>, i: nat)
    requires i < |q|
  {
    q[i] != 0 && q[i] in next && next[q[i]] == if i == 0 then 0 else q[i - 1]
  }

  lemma LinkedFrame(next: map<Node, Node>, next': map<Node, Node>, q: seq<Node>, q': seq<Node>)
    requires Linked(next, q) && q' <= q
    requires forall n :: n in q' && n in next ==> n in next' && next'[n] == next[n]
    ensures Linked(next', q')
  {
    forall i | 0 <= i < |q'| ensures LinkedAt(next', q', i) {
      assert LinkedAt(next, q, i);
      assert q'[i] in q';
    }
  }

  ghost predicate Placed(s: State) {
    && 0 !in s.place && s.next.Keys == s.place.Keys
    && s.head == TopOf(s.stack)
    && (forall i :: 0 <= i < |s.stack| ==> s.stack[i] in s.place && s.place[s.stack[i]] == Stacked(i))
    && (forall n :: n in s.place && s.place[n].Stacked? ==> s.place[n].i < |s.stack| && s.stack[s.place[n].i] == n)
  }

  ghost predicate Shared(s: State) {
    Placed(s) && Linked(s.next, s.stack) && Replay(s.log) == Some(s.stack)
  }

  ghost predicate Holds(s: State, t: Tid, n: Node) {
    n in s.place && s.place[n] == Pushing(t)
  }

  ghost predicate ThreadOk(s: State, t: Tid)
    requires t in s.pcs
  {
    match s.pcs[t]
    case PushCounter(n) => Holds(s, t, n)
    case PushHead(n, c) => Holds(s, t, n) && c <= s.counter
    case PushLink(n, c, h) => Holds(s, t, n) && c <= s.counter && (c == s.counter ==> h == s.head)
    case PushCas(n, c, h) =>
      Holds(s, t, n) && c <= s.counter && (c == s.counter ==> h == s.head) && n in s.next && s.next[n] == h
    case PopHead(c) => c <= s.counter
    case PopNext(c, h) => h in s.next && h != 0 && c <= s.counter && (c == s.counter ==> h == s.head)
    case PopCas(c, h, next) =>
      h in s.next && h != 0 && c <= s.counter && (c == s.counter ==> h == s.head && next == s.next[h])
    case _ => true
  }

  ghost predicate Inv(s: State) {
    Shared(s) && forall t :: t in s.pcs ==> ThreadOk(s, t)
  }

  // Every action is one of five changes of the shared state.

  lemma GotoInv(s: State, t: Tid, pc: Pc)
    requires Inv(s) && t in s.pcs && ThreadOk(Goto(s, t, pc), t)
    ensures Inv(Goto(s, t, pc))
  {
    forall u | u in s.pcs && u != t ensures ThreadOk(Goto(s, t, pc), u) {
      assert ThreadOk(s, u);
    }
  }

  lemma LinkInv(s: State, t: Tid, n: Node, c: nat, h: Node)
    requires Inv(s) && t in s.pcs && s.pcs[t] == PushLink(n, c, h)
    ensures Inv(Link(s, t, n, c, h))
  {
    assert ThreadOk(s, t);
    var s' := Link(s, t, n, c, h);
    LinkedFrame(s.next, s'.next, s.stack, s.stack);
    forall u | u in s.pcs && u != t ensures ThreadOk(s', u) {
      assert ThreadOk(s, u);
      assert s.head != n;
    }
  }

  lemma InstallShared(s: State, t: Tid, n: Node)
    requires Shared(s) && Holds(s, t, n) && s.next[n] == s.head
    ensures Shared(Install(s, t, n))
  {
    InstallPlaced(s, t, n);
    ReplayPush(s.log, s.stack, n);
    var q := s.stack + [n];
    forall i | 0 <= i < |q| ensures LinkedAt(s.next, q, i) {
      if i < |s.stack| { assert LinkedAt(s.next, s.stack, i); }
    }
  }

  lemma InstallPlaced(s: State, t: Tid, n: Node)
    requires Placed(s) && Holds(s, t, n)
    ensures Placed(Install(s, t, n))
  {
  }

  lemma InstallOther(s: State, t: Tid, n: Node, u: Tid)
    requires Holds(s, t, n) && u in s.pcs && u != t && ThreadOk(s, u)
    ensures ThreadOk(Install(s, t, n), u)
  {
  }

  lemma UnlinkShared(s: State, t: Tid, h: Node)
    requires Shared(s) && s.head == h != 0
    ensures Shared(Unlink(s, t, h, s.next[h]))
  {
    var q := s.stack[..|s.stack| - 1];
    assert s.stack == q + [h];
    UnlinkPlaced(s, t, h);
    LinkedFrame(s.next, s.next, s.stack, q);
    ReplayPop(s.log, q, h);
  }

  lemma UnlinkPlaced(s: State, t: Tid, h: Node)
    requires Placed(s) && Linked(s.next, s.stack) && s.head == h != 0
    ensures h in s.next && Placed(Unlink(s, t, h, s.next[h]))
  {
    assert LinkedAt(s.next, s.stack, |s.stack| - 1);
  }

  lemma UnlinkOther(s: State, t: Tid, h: Node, next: Node, u: Tid)
    requires Shared(s) && s.head == h != 0 && u in s.pcs && u != t && ThreadOk(s, u)
    ensures ThreadOk(Unlink(s, t, h, next), u)
  {
  }

  lemma GoInv(s: State, t: Tid)
    requires Inv(s) && t in s.pcs
    ensures Inv(GoStep(s, t))
  {
    assert ThreadOk(s, t);
    var s' := GoStep(s, t);
    match s.pcs[t]
    case PushCounter(n) => GotoInv(s, t, PushHead(n, s.counter));
    case PushHead(n, c) => GotoInv(s, t, PushLink(n, c, s.head));
    case PushLink(n, c, h) => LinkInv(s, t, n, c, h);
    case PushCas(n, c, h) =>
      if s.counter == c {
        InstallShared(s, t, n);
        forall u | u in s.pcs && u != t ensures ThreadOk(s', u) { InstallOther(s, t, n, u); }
      } else {
        GotoInv(s, t, PushCounter(n));
      }
    case PopCounter => GotoInv(s, t, PopHead(s.counter));
    case PopHead(c) => GotoInv(s, t, if s.head == 0 then DonePop(0) else PopNext(c, s.head));
    case PopNext(c, h) => GotoInv(s, t, PopCas(c, h, s.next[h]));
    case PopCas(c, h, next) =>
      if s.counter == c {
        UnlinkShared(s, t, h);
        forall u | u in s.pcs && u != t ensures ThreadOk(s', u) { UnlinkOther(s, t, h, next, u); }
      } else {
        GotoInv(s, t, PopCounter);
      }
    case _ =>
  }

  lemma CallPushInv(s: State, t: Tid, n: Node)
    requires Inv(s) && t in s.pcs && Ready(s.pcs[t]) && n in s.place && s.place[n].Loose?
    ensures Inv(Next(s, Push(t, n)))
  {
    var s' := Next(s, Push(t, n));
    forall u | u in s.pcs && u != t ensures ThreadOk(s', u) {
      assert ThreadOk(s, u);
    }
  }

  lemma ScribbleInv(s: State, n: Node, next: Node)
    requires Inv(s) && n in s.place && s.place[n].Loose?
    ensures Inv(Next(s, Scribble(n, next)))
  {
    var s' := Next(s, Scribble(n, next));
    LinkedFrame(s.next, s'.next, s.stack, s.stack);
    assert s.head != n;
    forall u | u in s.pcs ensures ThreadOk(s', u) {
      assert ThreadOk(s, u);
    }
  }

  lemma NextInv(s: State, a: Action)
    requires Inv(s)
    ensures Inv(Next(s, a))
  {
    match a
    case Push(t, n) =>
      if t in s.pcs && Ready(s.pcs[t]) && n in s.place && s.place[n].Loose? { CallPushInv(s, t, n); }
    case Pop(t) => if t in s.pcs && Ready(s.pcs[t]) { GotoInv(s, t, PopCounter); }
    case Go(t) => if t in s.pcs { GoInv(s, t); }
    case Scribble(n, next) => if n in s.place && s.place[n].Loose? { ScribbleInv(s, n, next); }
  }

  lemma {:induction false} RunInv(s: State, sched: seq<Action>)
    requires Inv(s)
    ensures Inv(Run(s, sched))
    decreases |sched|
  {
    if sched == [] {
    } else {
      NextInv(s, sched[0]);
      RunInv(Next(s, sched[0]), sched[1..]);
    }
  }

  lemma InitInv(s: State)
    requires Init(s)
    ensures Inv(s)
  {
  }

  // ------------------------------------------------------------- main results

  /** In every run, with popped nodes overwritten and pushed again at any time,
      the successful operations form a history of one atomic stack, no node is
      in it twice, and walking the links from head meets exactly its nodes, top
      first, and ends at NULL. */
  lemma RunIsAtomicStack(s0: State, sched: seq<Action>)
    requires Init(s0)
    ensures var s := Run(s0, sched);
      && Replay(s.log) == Some(s.stack) && (forall e :: e in s.log ==> !e.Stole?)
      && PushedItems(s.log) == TakenItems(s.log) + multiset(s.stack)
      && (forall i, j :: 0 <= i < j < |s.stack| ==> s.stack[i] != s.stack[j])
      && Walk(s.next, s.head, |s.stack| + 1) == Reversed(s.stack)
  {
    InitInv(s0);
    RunInv(s0, sched);
    RunStealsNothing(s0, sched);
    ReplayConserves(Run(s0, sched).log);
    var s := Run(s0, sched);
    WalkMeetsAll(s.next, s.stack, 1);
    forall i, j | 0 <= i < j < |s.stack| ensures s.stack[i] != s.stack[j] {
      assert s.place[s.stack[i]] == Stacked(i) && s.place[s.stack[j]] == Stacked(j);
    }
  }

  lemma {:induction false} RunStealsNothing(s: State, sched: seq<Action>)
    requires forall e :: e in s.log ==> !e.Stole?
    ensures forall e :: e in Run(s, sched).log ==> !e.Stole?
    decreases |sched|
  {
    if sched == [] {
    } else {
      NextStealsNothing(s, sched[0]);
      RunStealsNothing(Next(s, sched[0]), sched[1..]);
    }
  }

  lemma NextStealsNothing(s: State, a: Action)
    ensures forall e :: e in Next(s, a).log ==> e in s.log || !e.Stole?
  {
  }

  lemma {:induction false} WalkMeetsAll(next: map<Node, Node>, q: seq<Node>, extra: nat)
    requires Linked(next, q)
    ensures Walk(next, TopOf(q), |q| + extra) == Reversed(q)
    decreases |q|
  {
    if q == [] {
    } else {
      var q' := q[..|q| - 1];
      assert LinkedAt(next, q, |q| - 1);
      LinkedFrame(next, next, q, q');
      WalkMeetsAll(next, q', extra);
    }
  }

  /** The counter alone decides: a push's CAS succeeds exactly when no operation
      has completed since it read the counter, and then it puts its own node on
      top of the current stack. Otherwise some other operation has completed,
      the stack is untouched and the push starts over. */
  lemma PushCasRefines(s: State, t: Tid)
    requires Inv(s) && t in s.pcs && s.pcs[t].PushCas?
    ensures var PushCas(n, c, h) := s.pcs[t];
      var s' := GoStep(s, t);
      && Inv(s')
      && (if s.counter == c
          then && s'.stack == s.stack + [n] && s'.log == s.log + [Pushed(n)]
               && s'.pcs[t] == DonePush && s'.counter == c + 1
          else s.counter > c && s'.stack == s.stack && s'.log == s.log && s'.pcs[t] == PushCounter(n))
  {
    assert ThreadOk(s, t);
    GoInv(s, t);
  }

  /** Likewise a pop: when its CAS succeeds the head it read is the top of the
      current stack and the next it read, however long ago and whatever has been
      written to that node before, is the node now below it. */
  lemma PopCasRefines(s: State, t: Tid)
    requires Inv(s) && t in s.pcs && s.pcs[t].PopCas?
    ensures var PopCas(c, h, next) := s.pcs[t];
      var s' := GoStep(s, t);
      && Inv(s')
      && (if s.counter == c
          then && s.stack == s'.stack + [h] && next == TopOf(s'.stack) && s'.place[h].Loose?
               && s'.log == s.log + [Popped(h)] && s'.pcs[t] == DonePop(h) && s'.counter == c + 1
          else s.counter > c && s'.stack == s.stack && s'.log == s.log && s'.pcs[t] == PopCounter)
  {
    assert ThreadOk(s, t);
    GoInv(s, t);
    if s.counter == s.pcs[t].c {
      assert LinkedAt(s.next, s.stack, |s.stack| - 1);
    }
  }

  /** All other steps leave the stack alone, and a pop answers NULL exactly when
      the stack is empty as it reads head. */
  lemma OtherStepsKeepTheStack(s: State, a: Action)
    requires Inv(s)
    requires a.Go? && a.t in s.pcs ==> !s.pcs[a.t].PushCas? && !s.pcs[a.t].PopCas?
    ensures Next(s, a).stack == s.stack && Next(s, a).log == s.log
    ensures a.Go? && a.t in s.pcs && s.pcs[a.t].PopHead? ==>
              (Next(s, a).pcs[a.t] == DonePop(0) <==> s.stack == [])
  {
    if s.stack != [] {
      assert LinkedAt(s.next, s.stack, |s.stack| - 1);
    }
  }

  function Solo(s: State, t: Tid, n: nat): (r: State)
    requires t in s.pcs
    ensures t in r.pcs
    decreases n
  {
    if n == 0 then s else Solo(GoStep(s, t), t, n - 1)
  }

  /** A pop by `t` on stack `q` ended in `s'` as on a sequential stack. */
  ghost predicate PopOutcome(q: seq<Node>, t: Tid, s': State) {
    && Inv(s') && t in s'.pcs && s'.pcs[t] == DonePop(TopOf(q))
    && s'.stack == (if q == [] then [] else q[..|q| - 1])
  }

  /** Alone, a pop needs no retry and takes the top, or answers NULL when there
      is none. */
  lemma PopAlone(s: State, t: Tid)
    requires Inv(s) && t in s.pcs && Ready(s.pcs[t])
    ensures PopOutcome(s.stack, t, Solo(Next(s, Pop(t)), t, 4))
  {
    GotoInv(s, t, PopCounter);
    PopReadsCounter(Next(s, Pop(t)), t);
  }

  lemma PopReadsCounter(s: State, t: Tid)
    requires Inv(s) && t in s.pcs && s.pcs[t] == PopCounter
    ensures PopOutcome(s.stack, t, Solo(s, t, 4))
  {
    GoInv(s, t);
    PopReadsHead(GoStep(s, t), t);
  }

  lemma PopReadsHead(s: State, t: Tid)
    requires Inv(s) && t in s.pcs && s.pcs[t] == PopHead(s.counter)
    ensures PopOutcome(s.stack, t, Solo(s, t, 3))
  {
    GoInv(s, t);
    OtherStepsKeepTheStack(s, Go(t));
    var s1 := GoStep(s, t);
    if s.stack == [] {
      assert Solo(s1, t, 2) == Solo(s1, t, 1) == s1;
    } else {
      PopReadsNext(s1, t);
    }
  }

  lemma PopReadsNext(s: State, t: Tid)
    requires Inv(s) && t in s.pcs && s.pcs[t].PopNext? && s.pcs[t].c == s.counter
    ensures PopOutcome(s.stack, t, Solo(s, t, 2))
  {
    assert ThreadOk(s, t);
    GoInv(s, t);
    var s1 := GoStep(s, t);
    PopCasRefines(s1, t);
    assert Solo(s, t, 2) == Solo(s1, t, 1) == GoStep(s1, t);
  }

  /** A push of `n` by `t` on stack `q` ended in `s'` as on a sequential stack. */
  ghost predicate PushOutcome(q: seq<Node>, log: seq<Event<Node>>, n: Node, t: Tid, s': State) {
    && Inv(s') && t in s'.pcs && s'.pcs[t] == DonePush
    && s'.stack == q + [n] && s'.log == log + [Pushed(n)]
  }

  /** Alone, a push needs no retry and puts its node on top. */
  lemma PushAlone(s: State, t: Tid, n: Node)
    requires Inv(s) && t in s.pcs && Ready(s.pcs[t]) && n in s.place && s.place[n].Loose?
    ensures PushOutcome(s.stack, s.log, n, t, Solo(Next(s, Push(t, n)), t, 4))
  {
    CallPushInv(s, t, n);
    PushReadsCounter(Next(s, Push(t, n)), t);
  }

  lemma PushReadsCounter(s: State, t: Tid)
    requires Inv(s) && t in s.pcs && s.pcs[t].PushCounter?
    ensures PushOutcome(s.stack, s.log, s.pcs[t].n, t, Solo(s, t, 4))
  {
    GoInv(s, t);
    PushReadsHead(GoStep(s, t), t);
  }

  lemma PushReadsHead(s: State, t: Tid)
    requires Inv(s) && t in s.pcs && s.pcs[t].PushHead? && s.pcs[t].c == s.counter
    ensures PushOutcome(s.stack, s.log, s.pcs[t].n, t, Solo(s, t, 3))
  {
    GoInv(s, t);
    PushLinks(GoStep(s, t), t);
  }

  lemma PushLinks(s: State, t: Tid)
    requires Inv(s) && t in s.pcs && s.pcs[t].PushLink? && s.pcs[t].c == s.counter
    ensures PushOutcome(s.stack, s.log, s.pcs[t].n, t, Solo(s, t, 2))
  {
    GoInv(s, t);
    var s1 := GoStep(s, t);
    PushCasRefines(s1, t);
    assert Solo(s, t, 2) == Solo(s1, t, 1) == GoStep(s1, t);
  }

  // ------------------------------------------------------------ in-place form

  /** Callers push, and write, only nodes they own. */
  ghost predicate Allowed(s: State, a: Action) {
    match a
    case Push(t, n) => t in s.pcs && Ready(s.pcs[t]) ==> n in s.place && s.place[n].Loose?
    case Scribble(n, next) => n in s.place && s.place[n].Loose?
    case _ => true
  }

  ghost predicate Obeys(s: State, sched: seq<Action>)
    decreases |sched|
  {
    sched == [] || (Allowed(s, sched[0]) && Obeys(Next(s, sched[0]), sched[1..]))
  }

  class Lifo {
    var counter: nat
    var head: Node
    var next: map<Node, Node>
    var pcs: map<Tid, Pc>
    ghost var place: map<Node, Place>
    ghost var stack: seq<Node>
    ghost var log: seq<Event<Node>>

    ghost function View(): State
      reads this
    {
      State(counter, head, next, pcs, place, stack, log)
    }

    /** `next` is the memory of the callers' nodes. */
    constructor (next: map<Node, Node>, threads: set<Tid>)
      requires 0 !in next
      ensures Init(View()) && this.next == next && pcs.Keys == threads
    {
      counter, head, this.next := 0, 0, next;
      pcs := map t | t in threads :: Idle;
      place, stack, log := map n | n in next :: Loose, [], [];
    }

    /** One memory access of thread `t`. */
    method Access(t: Tid)
      requires t in pcs
      modifies this
      ensures View() == GoStep(old(View()), t)
    {
      match pcs[t]
      case PushCounter(n) => pcs := pcs[t := PushHead(n, counter)];
      case PushHead(n, c) => pcs := pcs[t := PushLink(n, c, head)];
      case PushLink(n, c, h) =>
        next := next[n := h];
        pcs := pcs[t := PushCas(n, c, h)];
      case PushCas(n, c, h) =>
        if counter == c && head == h {
          counter, head := counter + 1, n;
          place, stack, log := place[n := Stacked(|stack|)], stack + [n], log + [Pushed(n)];
          pcs := pcs[t := DonePush];
        } else {
          pcs := pcs[t := PushCounter(n)];
        }
      case PopCounter => pcs := pcs[t := PopHead(counter)];
      case PopHead(c) =>
        if head == 0 { pcs := pcs[t := DonePop(0)]; } else { pcs := pcs[t := PopNext(c, head)]; }
      case PopNext(c, h) =>
        if h in next { pcs := pcs[t := PopCas(c, h, next[h])]; }
      case PopCas(c, h, nx) =>
        if counter == c && head == h {
          counter, head := counter + 1, nx;
          place, log := place[h := Loose], log + [Popped(h)];
          stack := if stack == [] then [] else stack[..|stack| - 1];
          pcs := pcs[t := DonePop(h)];
        } else {
          pcs := pcs[t := PopCounter];
        }
      case _ =>
    }

    method Perform(a: Action)
      requires Allowed(View(), a)
      modifies this
      ensures View() == Next(old(View()), a)
    {
      match a
      case Push(t, n) =>
        if t in pcs && Ready(pcs[t]) {
          place := place[n := Pushing(t)];
          pcs := pcs[t := PushCounter(n)];
        }
      case Pop(t) => if t in pcs && Ready(pcs[t]) { pcs := pcs[t := PopCounter]; }
      case Go(t) => if t in pcs { Access(t); }
      case Scribble(n, nx) => next := next[n := nx];
    }

    /** Any interleaving, performed in place. */
    method Interleave(sched: seq<Action>)
      requires Inv(View()) && Obeys(View(), sched)
      modifies this
      ensures View() == Run(old(View()), sched) && Inv(View())
    {
      for i := 0 to |sched|
        invariant Inv(View()) && Obeys(View(), sched[i..])
        invariant Run(old(View()), sched) == Run(View(), sched[i..])
      {
        NextInv(View(), sched[i]);
        assert sched[i..][1..] == sched[i + 1..];
        Perform(sched[i]);
      }
    }
  }
}
