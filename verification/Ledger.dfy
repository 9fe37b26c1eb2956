/** What the callers of a container see of a run: whose step took effect with
    which value, and who was given which answer. `K` names the threads. */
module Ledger {
  import opened AtomicDeque
  import opened Common

  datatype Entry<+K, +T> = Entry(who: K, v: T)

  /** What the threads' steps did, in the order in which they took effect, and
      what the threads were told, in the order of the answers. */
  datatype Book<+K, +T> = Book(done: seq<Entry<K, T>>, told: seq<Entry<K, T>>)

  /** The values entered for thread `t`, in order. */
  function Of<K(==), T>(es: seq<Entry<K, T>>, t: K): seq<T> {
    if es == [] then []
    else
      var e := es[|es| - 1];
      Of(es[..|es| - 1], t) + (if e.who == t then [e.v] else [])
  }

  /** All values entered, in order. */
  function Values<K, T>(es: seq<Entry<K, T>>): seq<T> {
    if es == [] then [] else Values(es[..|es| - 1]) + [es[|es| - 1].v]
  }

  function Items<T>(o: Option<T>): seq<T> {
    if o.Some? then [o.value] else []
  }

  function Add<K, T>(es: seq<Entry<K, T>>, t: K, o: Option<T>): seq<Entry<K, T>> {
    if o.Some? then es + [Entry(t, o.value)] else es
  }

  /** What one step added to a history. */
  function Grown<T>(before: seq<T>, after: seq<T>): Option<T> {
    if |after| == |before| + 1 then Some(after[|before|]) else None
  }

  function Enter<K, T>(b: Book<K, T>, t: K, done: Option<T>, told: Option<T>): Book<K, T> {
    Book(Add(b.done, t, done), Add(b.told, t, told))
  }

  lemma AddOf<K, T>(es: seq<Entry<K, T>>, u: K, o: Option<T>, t: K)
    ensures Of(Add(es, u, o), t) == if u == t then Of(es, t) + Items(o) else Of(es, t)
  {
    if o.Some? { assert (es + [Entry(u, o.value)])[..|es|] == es; }
  }

  lemma AddValues<K, T>(es: seq<Entry<K, T>>, u: K, o: Option<T>)
    ensures Values(Add(es, u, o)) == Values(es) + Items(o)
  {
    if o.Some? { assert (es + [Entry(u, o.value)])[..|es|] == es; }
  }

  /** Thread `t` was told of all it did, in order, but for the one item it may
      still have in hand. */
  ghost predicate Square<K, T>(b: Book<K, T>, t: K, hand: Option<T>) {
    Of(b.done, t) == Of(b.told, t) + Items(hand)
  }

  /** What is done goes into the hand, and what is told comes out of it. */
  ghost predicate Flows<T>(hand: Option<T>, done: Option<T>, told: Option<T>, hand': Option<T>) {
    || (done.None? && told.None? && hand' == hand)
    || (done.Some? && told.None? && hand.None? && hand' == done)
    || (done.None? && told.Some? && hand == told && hand'.None?)
    || (done.Some? && told == done && hand.None? && hand'.None?)
  }

  lemma EnterSquare<K, T>(b: Book<K, T>, t: K, done: Option<T>, told: Option<T>, hand: Option<T>, hand': Option<T>)
    requires Square(b, t, hand) && Flows(hand, done, told, hand')
    ensures Square(Enter(b, t, done, told), t, hand')
  {
    AddOf(b.done, t, done, t);
    AddOf(b.told, t, told, t);
  }

  lemma EnterOther<K, T>(b: Book<K, T>, u: K, done: Option<T>, told: Option<T>, t: K, hand: Option<T>)
    requires Square(b, t, hand) && u != t
    ensures Square(Enter(b, u, done, told), t, hand)
  {
    AddOf(b.done, u, done, t);
    AddOf(b.told, u, told, t);
  }

  // What the log of an atomic deque or stack says was put in, and taken out.

  /** The item an entry added to the log put in, or took out. */
  function Put<T>(log: seq<Event<T>>, log': seq<Event<T>>): Option<T> {
    var e := Grown(log, log');
    if e.Some? && e.value.Pushed? then Some(e.value.v) else None
  }

  function Taken<T>(log: seq<Event<T>>, log': seq<Event<T>>): Option<T> {
    var e := Grown(log, log');
    if e.Some? && !e.value.Pushed? then Some(e.value.v) else None
  }

  /** Who made the entry: a thief signs, None is anybody who pushes and pops. */
  function Signer<T>(e: Event<T>): Option<Tid> {
    if e.Stole? then Some(e.t) else None
  }

  function PutIn<T>(log: seq<Event<T>>): seq<T> {
    if log == [] then []
    else
      var e := log[|log| - 1];
      PutIn(log[..|log| - 1]) + (if e.Pushed? then [e.v] else [])
  }

  function TakenOut<T>(log: seq<Event<T>>): seq<Entry<Option<Tid>, T>> {
    if log == [] then []
    else
      var e := log[|log| - 1];
      TakenOut(log[..|log| - 1]) + (if e.Pushed? then [] else [Entry(Signer(e), e.v)])
  }

  lemma LogGrows<T>(log: seq<Event<T>>, log': seq<Event<T>>)
    requires log' == log + Items(Grown(log, log'))
    ensures PutIn(log') == PutIn(log) + Items(Put(log, log'))
    ensures var e := Grown(log, log');
      TakenOut(log') == Add(TakenOut(log), if e.Some? then Signer(e.value) else None, Taken(log, log'))
  {
    if Grown(log, log').Some? {
      assert log'[..|log'| - 1] == log;
      assert log'[|log'| - 1] == log'[|log|];
    } else {
      assert log' == log;
    }
  }
}
