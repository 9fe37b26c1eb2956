/** Histories of one atomic deque: what the deque and the stack are compared
    with. A stack is a deque from which nothing is stolen. */
module AtomicDeque {
  import opened Common

  datatype Event<+T> = Pushed(v: T) | Popped(v: T) | Stole(t: Tid, v: T)

  /** One event: a push appends, a pop takes the last item and a steal the first.
      None when there is no such item to give. */
  ghost function Apply<T>(q: seq<T>, e: Event<T>): Option<seq<T>> {
    match e
    case Pushed(v) => Some(q + [v])
    case Popped(v) => if q != [] && q[|q| - 1] == v then Some(q[..|q| - 1]) else None
    case Stole(_, v) => if q != [] && q[0] == v then Some(q[1..]) else None
  }

  /** The deque a log leaves behind, or None when the log is not a history of an
      atomic deque. */
  ghost function Replay<T>(log: seq<Event<T>>): Option<seq<T>> {
    if log == [] then Some([])
    else match Replay(log[..|log| - 1])
      case None => None
      case Some(q) => Apply(q, log[|log| - 1])
  }

  lemma ReplayAppend<T>(log: seq<Event<T>>, e: Event<T>)
    requires Replay(log).Some?
    ensures Replay(log + [e]) == Apply(Replay(log).value, e)
  {
    assert (log + [e])[..|log|] == log;
  }

  lemma ReplayPush<T>(log: seq<Event<T>>, q: seq<T>, v: T)
    requires Replay(log) == Some(q)
    ensures Replay(log + [Pushed(v)]) == Some(q + [v])
  {
    ReplayAppend(log, Pushed(v));
  }

  lemma ReplayPop<T>(log: seq<Event<T>>, q: seq<T>, v: T)
    requires Replay(log) == Some(q + [v])
    ensures Replay(log + [Popped(v)]) == Some(q)
  {
    ReplayAppend(log, Popped(v));
    assert (q + [v])[..|q|] == q;
  }

  lemma ReplaySteal<T>(log: seq<Event<T>>, q: seq<T>, t: Tid, v: T)
    requires Replay(log) == Some([v] + q)
    ensures Replay(log + [Stole(t, v)]) == Some(q)
  {
    ReplayAppend(log, Stole(t, v));
    assert ([v] + q)[1..] == q;
  }

  ghost function Added<T>(e: Event<T>): multiset<T> {
    if e.Pushed? then multiset{e.v} else multiset{}
  }

  ghost function Removed<T>(e: Event<T>): multiset<T> {
    if e.Pushed? then multiset{} else multiset{e.v}
  }

  ghost function PushedItems<T>(log: seq<Event<T>>): multiset<T> {
    if log == [] then multiset{} else PushedItems(log[..|log| - 1]) + Added(log[|log| - 1])
  }

  ghost function TakenItems<T>(log: seq<Event<T>>): multiset<T> {
    if log == [] then multiset{} else TakenItems(log[..|log| - 1]) + Removed(log[|log| - 1])
  }

  lemma ApplyConserves<T>(q: seq<T>, e: Event<T>)
    requires Apply(q, e).Some?
    ensures multiset(Apply(q, e).value) + Removed(e) == multiset(q) + Added(e)
  {
    match e
    case Pushed(v) =>
    case Popped(v) => assert q == q[..|q| - 1] + [v];
    case Stole(_, v) => assert q == [v] + q[1..];
  }

  lemma Balance<T>(pushed: multiset<T>, taken: multiset<T>, q: multiset<T>,
                   added: multiset<T>, removed: multiset<T>, q': multiset<T>)
    requires pushed == taken + q && q' + removed == q + added
    ensures pushed + added == (taken + removed) + q'
  {
    calc {
      pushed + added;
      taken + (q + added);
      taken + (q' + removed);
      (taken + removed) + q';
    }
  }

  /** In any atomic history every pushed item is taken once or still there. */
  lemma {:induction false} ReplayConserves<T>(log: seq<Event<T>>)
    requires Replay(log).Some?
    ensures PushedItems(log) == TakenItems(log) + multiset(Replay(log).value)
  {
    if log == [] {
    } else {
      var init, e := log[..|log| - 1], log[|log| - 1];
      ReplayConserves(init);
      ApplyConserves(Replay(init).value, e);
      Balance(PushedItems(init), TakenItems(init), multiset(Replay(init).value),
              Added(e), Removed(e), multiset(Replay(log).value));
    }
  }
}
