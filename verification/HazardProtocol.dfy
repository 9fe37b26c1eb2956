/** The hazard pointer protocol: threads publish the nodes they use, retire the
    nodes they unlink, and scan all published slots, one at a time, before a
    retired node is reclaimed. Records join at any time. */
module HazardProtocol {
  import opened Common

  /** A node's address; 0 is NULL. */
  type Node = nat

  /** A node in use, one handed to hazard_pointer_free by a thread, or one whose
      gc function has been called. */
  datatype Phase = Live | Retired(owner: Tid) | Reclaimed

  /** A scan reads slot `k` of record `i` next and walks down the record list;
      then it goes through its old retired list. */
  datatype Scan = NoScan | Collect(i: int, k: nat, seen: set<Node>) | Sweep(seen: set<Node>, todo: seq<Node>)

  /** Threads are numbered by their records in joining order, so the record list
      runs from the last number down to 0. `confirmed` is history: the slots
      whose node was seen not to be retired since the slot was written. */
  datatype State = State(
    width: nat, phase: map<Node, Phase>, slots: seq<seq<Node>>, retired: seq<seq<Node>>, scans: seq<Scan>,
    confirmed: set<(Tid, nat)>)

  predicate Joined(s: State, t: Tid) {
    t < |s.slots| && t < |s.retired| && t < |s.scans|
  }

  predicate HasSlot(s: State, t: Tid, k: nat) {
    Joined(s, t) && k < |s.slots[t]|
  }

  /** The CAS that puts a new, zeroed record at the head of the list. */
  function Join(s: State): State {
    var row: seq<Node> := seq(s.width, _ => 0);
    s.(slots := s.slots + [row], retired := s.retired + [[]], scans := s.scans + [NoScan])
  }

  /** hazard_pointer_using, and hazard_pointer_done_using when `x` is NULL. */
  function Use(s: State, t: Tid, k: nat, x: Node): State {
    if HasSlot(s, t, k) then
      var row: seq<Node> := s.slots[t][k := x];
      s.(slots := s.slots[t := row], confirmed := s.confirmed - {(t, k)})
    else s
  }

  /** The user's check, after `Use`, that the node is still not retired. */
  function Confirm(s: State, t: Tid, k: nat): State {
    if HasSlot(s, t, k) && s.slots[t][k] in s.phase && s.phase[s.slots[t][k]].Live?
    then s.(confirmed := s.confirmed + {(t, k)})
    else s
  }

  predicate MayRetire(s: State, t: Tid, x: Node) {
    Joined(s, t) && s.scans[t].NoScan? && x in s.phase && s.phase[x].Live?
  }

  /** The list push of hazard_pointer_free. */
  function Retire(s: State, t: Tid, x: Node): State {
    if MayRetire(s, t, x)
    then s.(phase := s.phase[x := Retired(t)], retired := s.retired[t := [x] + s.retired[t]])
    else s
  }

  function StartScan(s: State, t: Tid): State {
    if Joined(s, t) && s.scans[t].NoScan?
    then s.(scans := s.scans[t := Collect(|s.slots| - 1, 0, {})])
    else s
  }

  /** The slot read of the collecting loop, or the end of that loop. */
  function CollectStep(s: State, t: Tid, i: int, k: nat, seen: set<Node>): State
    requires Joined(s, t)
  {
    if i < 0 || i >= |s.slots| then
      s.(scans := s.scans[t := Sweep(seen, s.retired[t])], retired := s.retired[t := []])
    else if k >= |s.slots[i]| then
      s.(scans := s.scans[t := Collect(i - 1, 0, seen)])
    else
      var h := s.slots[i][k];
      s.(scans := s.scans[t := Collect(i, k + 1, if h == 0 then seen else seen + {h})])
  }

  /** One node of the old retired list: kept when it was seen, else reclaimed. */
  function SweepStep(s: State, t: Tid, seen: set<Node>, todo: seq<Node>): State
    requires Joined(s, t)
  {
    if todo == [] then s.(scans := s.scans[t := NoScan])
    else if todo[0] in seen then
      s.(scans := s.scans[t := Sweep(seen, todo[1..])], retired := s.retired[t := [todo[0]] + s.retired[t]])
    else
      s.(scans := s.scans[t := Sweep(seen, todo[1..])], phase := s.phase[todo[0] := Reclaimed])
  }

  function ScanStep(s: State, t: Tid): State {
    if !Joined(s, t) then s
    else match s.scans[t]
      case NoScan => s
      case Collect(i, k, seen) => CollectStep(s, t, i, k, seen)
      case Sweep(seen, todo) => SweepStep(s, t, seen, todo)
  }

  /** A reclaimed node comes back into use. */
  function Reuse(s: State, x: Node): State {
    if x in s.phase && s.phase[x].Reclaimed? then s.(phase := s.phase[x := Live]) else s
  }

  datatype Action =
    | DoJoin | DoUse(t: Tid, k: nat, x: Node) | DoConfirm(t: Tid, k: nat) | DoRetire(t: Tid, x: Node)
    | DoStartScan(t: Tid) | DoScan(t: Tid) | DoReuse(x: Node)

  function Next(s: State, a: Action): State {
    match a
    case DoJoin => Join(s)
    case DoUse(t, k, x) => Use(s, t, k, x)
    case DoConfirm(t, k) => Confirm(s, t, k)
    case DoRetire(t, x) => Retire(s, t, x)
    case DoStartScan(t) => StartScan(s, t)
    case DoScan(t) => ScanStep(s, t)
    case DoReuse(x) => Reuse(s, x)
  }

  function Run(s: State, sched: seq<Action>): State
    decreases |sched|
  {
    if sched == [] then s else Run(Next(s, sched[0]), sched[1..])
  }

  predicate Init(s: State) {
    && s.slots == [] && s.retired == [] && s.scans == [] && s.confirmed == {}
    && 0 !in s.phase && forall x :: x in s.phase ==> !s.phase[x].Retired?
  }

  // ---------------------------------------------------------------- invariant

  /** The nodes thread `t` has retired and not yet seen through a scan. */
  function Pending(s: State, t: Tid): seq<Node>
    requires Joined(s, t)
  {
    s.retired[t] + (if s.scans[t].Sweep? then s.scans[t].todo else [])
  }

  predicate Owes(s: State, t: Tid, x: Node)
    requires Joined(s, t)
  {
    x in s.retired[t] || (s.scans[t].Sweep? && x in s.scans[t].todo)
  }

  ghost predicate NoDup(q: seq<Node>) {
    forall i, j :: 0 <= i < j < |q| ==> q[i] != q[j]
  }

  lemma NoDupSplit(a: seq<Node>, h: Node, b: seq<Node>)
    requires NoDup(a + ([h] + b))
    ensures h !in a && h !in b && NoDup(a + b) && NoDup([h] + a + b)
  {
    var q := a + ([h] + b);
    forall i | 0 <= i < |a| ensures a[i] != h {
      assert q[i] == a[i] && q[|a|] == h;
    }
    forall i | 0 <= i < |b| ensures b[i] != h {
      assert q[|a| + 1 + i] == b[i] && q[|a|] == h;
    }
    var r := a + b;
    forall i, j | 0 <= i < j < |r| ensures r[i] != r[j] {
      assert r[i] == q[if i < |a| then i else i + 1];
      assert r[j] == q[if j < |a| then j else j + 1];
    }
    assert [h] + a + b == [h] + r;
  }

  ghost predicate Shape(s: State) {
    && |s.slots| == |s.retired| == |s.scans| && 0 !in s.phase
    && (forall t :: 0 <= t < |s.slots| ==> |s.slots[t]| == s.width)
    && (forall t :: 0 <= t < |s.slots| && s.scans[t].Collect? ==> s.scans[t].i < |s.slots|)
    && (forall c :: c in s.confirmed ==> HasSlot(s, c.0, c.1))
  }

  /** The retired lists hold exactly the retired nodes, each once. */
  ghost predicate ListsOk(s: State)
    requires Shape(s)
  {
    && (forall t, x {:trigger Owes(s, t, x)} :: 0 <= t < |s.slots| && Owes(s, t, x) ==>
          x in s.phase && s.phase[x] == Retired(t))
    && (forall x :: x in s.phase && s.phase[x].Retired? ==> Joined(s, s.phase[x].owner) && Owes(s, s.phase[x].owner, x))
    && (forall t {:trigger Pending(s, t)} :: 0 <= t < |s.slots| ==> NoDup(Pending(s, t)))
  }

  ghost predicate ConfirmedOk(s: State)
    requires Shape(s)
  {
    forall c :: c in s.confirmed ==> s.slots[c.0][c.1] in s.phase && !s.phase[s.slots[c.0][c.1]].Reclaimed?
  }

  /** A scan that will decide on a node confirmed in slot (u, k) has seen it
      there or has yet to read that slot. */
  ghost predicate Covered(s: State, t: Tid, u: Tid, k: nat)
    requires Joined(s, t) && HasSlot(s, u, k)
  {
    var x := s.slots[u][k];
    match s.scans[t]
    case NoScan => true
    case Collect(i, j, seen) => x in s.retired[t] ==> x in seen || u < i || (u == i && j <= k)
    case Sweep(seen, todo) => x in todo ==> x in seen
  }

  ghost predicate ScansOk(s: State)
    requires Shape(s)
  {
    forall t, c {:trigger Covered(s, t, c.0, c.1)} :: 0 <= t < |s.slots| && c in s.confirmed ==> Covered(s, t, c.0, c.1)
  }

  ghost predicate Inv(s: State) {
    Shape(s) && ListsOk(s) && ConfirmedOk(s) && ScansOk(s)
  }

  /** A change that leaves every thread's retired nodes where they were. */
  lemma ListsFrame(s: State, s': State)
    requires Shape(s) && Shape(s') && ListsOk(s)
    requires |s.slots| <= |s'.slots|
    requires forall t :: 0 <= t < |s.slots| ==> Pending(s', t) == Pending(s, t)
    requires forall t :: |s.slots| <= t < |s'.slots| ==> Pending(s', t) == []
    requires forall x :: x in s.phase && s.phase[x].Retired? ==> x in s'.phase && s'.phase[x] == s.phase[x]
    requires forall x :: x in s'.phase && s'.phase[x].Retired? ==> x in s.phase && s.phase[x] == s'.phase[x]
    ensures ListsOk(s')
  {
    forall t, x | 0 <= t < |s'.slots| && Owes(s', t, x) ensures x in s'.phase && s'.phase[x] == Retired(t) {
      assert x in Pending(s', t);
      assert x in Pending(s, t);
      assert Owes(s, t, x);
    }
    forall x | x in s'.phase && s'.phase[x].Retired?
      ensures Joined(s', s'.phase[x].owner) && Owes(s', s'.phase[x].owner, x)
    {
      var t := s.phase[x].owner;
      assert Owes(s, t, x);
      assert x in Pending(s, t);
      assert x in Pending(s', t);
    }
  }

  lemma JoinInv(s: State)
    requires Inv(s)
    ensures Inv(Join(s))
  {
    var s' := Join(s);
    ListsFrame(s, s');
    forall t, c | 0 <= t < |s'.slots| && c in s'.confirmed ensures Covered(s', t, c.0, c.1) {
      if t < |s.slots| { assert Covered(s, t, c.0, c.1); }
    }
  }

  lemma UseInv(s: State, t: Tid, k: nat, x: Node)
    requires Inv(s)
    ensures Inv(Use(s, t, k, x))
  {
    var s' := Use(s, t, k, x);
    ListsFrame(s, s');
    assert forall c :: c in s'.confirmed ==> s'.slots[c.0][c.1] == s.slots[c.0][c.1];
    forall u, c | 0 <= u < |s'.slots| && c in s'.confirmed ensures Covered(s', u, c.0, c.1) {
      assert Covered(s, u, c.0, c.1);
    }
  }

  /** A node that is not retired is on no list, so every scan covers it. */
  lemma ConfirmInv(s: State, t: Tid, k: nat)
    requires Inv(s)
    ensures Inv(Confirm(s, t, k))
  {
    var s' := Confirm(s, t, k);
    ListsFrame(s, s');
    forall u, c | 0 <= u < |s'.slots| && c in s'.confirmed ensures Covered(s', u, c.0, c.1) {
      if c in s.confirmed {
        assert Covered(s, u, c.0, c.1);
      } else {
        assert !Owes(s, u, s.slots[t][k]);
      }
    }
  }

  lemma RetireInv(s: State, t: Tid, x: Node)
    requires Inv(s) && MayRetire(s, t, x)
    ensures Inv(Retire(s, t, x))
  {
    var s' := Retire(s, t, x);
    RetireLists(s, t, x);
    forall u, c | 0 <= u < |s'.slots| && c in s'.confirmed ensures Covered(s', u, c.0, c.1) {
      assert Covered(s, u, c.0, c.1);
    }
  }

  lemma RetireLists(s: State, t: Tid, x: Node)
    requires Shape(s) && ListsOk(s) && MayRetire(s, t, x)
    ensures Shape(Retire(s, t, x)) && ListsOk(Retire(s, t, x))
  {
    var s' := Retire(s, t, x);
    assert !Owes(s, t, x);
    forall u, y | 0 <= u < |s'.slots| && Owes(s', u, y) ensures y in s'.phase && s'.phase[y] == Retired(u) {
      assert Owes(s, u, y) || (u == t && y == x);
    }
    forall y | y in s'.phase && s'.phase[y].Retired?
      ensures Joined(s', s'.phase[y].owner) && Owes(s', s'.phase[y].owner, y)
    {
      assert y != x ==> Owes(s, s.phase[y].owner, y);
    }
    forall u | 0 <= u < |s'.slots| ensures NoDup(Pending(s', u)) {
      assert NoDup(Pending(s, u));
      assert Pending(s', u) == if u == t then [x] + Pending(s, t) else Pending(s, u);
    }
  }

  lemma StartScanInv(s: State, t: Tid)
    requires Inv(s)
    ensures Inv(StartScan(s, t))
  {
    var s' := StartScan(s, t);
    ListsFrame(s, s');
    forall u, c | 0 <= u < |s'.slots| && c in s'.confirmed ensures Covered(s', u, c.0, c.1) {
      assert Covered(s, u, c.0, c.1);
    }
  }

  lemma CollectInv(s: State, t: Tid)
    requires Inv(s) && Joined(s, t) && s.scans[t].Collect?
    ensures Inv(ScanStep(s, t))
  {
    var s' := ScanStep(s, t);
    ListsFrame(s, s');
    forall u, c | 0 <= u < |s'.slots| && c in s'.confirmed ensures Covered(s', u, c.0, c.1) {
      assert Covered(s, u, c.0, c.1);
      assert s.slots[c.0][c.1] in s.phase;
    }
  }

  /** Relinked or reclaimed, the node decided leaves the list it was on. */
  lemma SweepLists(s: State, t: Tid)
    requires Shape(s) && ListsOk(s) && Joined(s, t) && s.scans[t].Sweep? && s.scans[t].todo != []
    ensures Shape(ScanStep(s, t)) && ListsOk(ScanStep(s, t))
  {
    var s', todo := ScanStep(s, t), s.scans[t].todo;
    assert todo == [todo[0]] + todo[1..];
    assert Pending(s, t) == s.retired[t] + ([todo[0]] + todo[1..]);
    NoDupSplit(s.retired[t], todo[0], todo[1..]);
    assert Owes(s, t, todo[0]);
    forall u, y | 0 <= u < |s'.slots| && Owes(s', u, y) ensures y in s'.phase && s'.phase[y] == Retired(u) {
      assert Owes(s, u, y);
    }
    forall y | y in s'.phase && s'.phase[y].Retired?
      ensures Joined(s', s'.phase[y].owner) && Owes(s', s'.phase[y].owner, y)
    {
      assert Owes(s, s.phase[y].owner, y);
    }
    forall u | 0 <= u < |s'.slots| ensures NoDup(Pending(s', u)) {
      assert NoDup(Pending(s, u));
      assert u != t ==> Pending(s', u) == Pending(s, u);
    }
  }

  lemma SweepInv(s: State, t: Tid)
    requires Inv(s) && Joined(s, t) && s.scans[t].Sweep?
    ensures Inv(ScanStep(s, t))
  {
    var s' := ScanStep(s, t);
    var todo := s.scans[t].todo;
    if todo == [] {
      ListsFrame(s, s');
    } else {
      SweepLists(s, t);
    }
    forall u, c | 0 <= u < |s'.slots| && c in s'.confirmed ensures Covered(s', u, c.0, c.1) {
      assert Covered(s, u, c.0, c.1);
    }
    forall c | c in s.confirmed ensures s.slots[c.0][c.1] in s'.phase && !s'.phase[s.slots[c.0][c.1]].Reclaimed? {
      assert Covered(s, t, c.0, c.1);
    }
  }

  lemma ReuseInv(s: State, x: Node)
    requires Inv(s)
    ensures Inv(Reuse(s, x))
  {
    var s' := Reuse(s, x);
    ListsFrame(s, s');
    forall u, c | 0 <= u < |s'.slots| && c in s'.confirmed ensures Covered(s', u, c.0, c.1) {
      assert Covered(s, u, c.0, c.1);
    }
  }

  lemma ScanInv(s: State, t: Tid)
    requires Inv(s)
    ensures Inv(ScanStep(s, t))
  {
    if Joined(s, t) {
      match s.scans[t]
      case NoScan =>
      case Collect(_, _, _) => CollectInv(s, t);
      case Sweep(_, _) => SweepInv(s, t);
    }
  }

  lemma RetireAndScanInv(s: State, t: Tid, x: Node)
    requires Inv(s) && MayRetire(s, t, x)
    ensures Inv(Retire(s, t, x)) && Inv(StartScan(Retire(s, t, x), t))
  {
    RetireInv(s, t, x);
    StartScanInv(Retire(s, t, x), t);
  }

  /** A scan step of `t` touches no other record, and of the nodes at most one
      that `t` has retired. */
  ghost predicate ScanKeeps(s: State, s': State, t: Tid) {
    && s'.width == s.width && s'.slots == s.slots && s'.confirmed == s.confirmed && s'.phase.Keys == s.phase.Keys
    && |s'.scans| == |s.scans| && (forall u :: 0 <= u < |s.scans| && u != t ==> s'.scans[u] == s.scans[u])
    && (forall x :: x in s.phase ==> s'.phase[x] == s.phase[x] || (s.phase[x] == Retired(t) && s'.phase[x].Reclaimed?))
  }

  lemma ScanEffects(s: State, t: Tid)
    requires Inv(s)
    ensures ScanKeeps(s, ScanStep(s, t), t) && Shape(ScanStep(s, t))
  {
    ScanInv(s, t);
    if Joined(s, t) && s.scans[t].Sweep? && s.scans[t].todo != [] {
      assert Owes(s, t, s.scans[t].todo[0]);
    }
  }

  lemma NextInv(s: State, a: Action)
    requires Inv(s)
    ensures Inv(Next(s, a))
  {
    match a
    case DoJoin => JoinInv(s);
    case DoUse(t, k, x) => UseInv(s, t, k, x);
    case DoConfirm(t, k) => ConfirmInv(s, t, k);
    case DoRetire(t, x) => if MayRetire(s, t, x) { RetireInv(s, t, x); }
    case DoStartScan(t) => StartScanInv(s, t);
    case DoScan(t) => ScanInv(s, t);
    case DoReuse(x) => ReuseInv(s, x);
  }

  lemma {:induction false} RunInv(s: State, sched: seq<Action>)
    requires Inv(s)
    ensures Inv(Run(s, sched))
    decreases |sched|
  {
    if sched == [] {
    } else {
      NextInv(s, sched[0]);
      RunInv(Next(s, sched[0]), sched[1..]);
    }
  }

  lemma InitInv(s: State)
    requires Init(s)
    ensures Inv(s)
  {
  }

  // ------------------------------------------------------------- main results

  /** In every run, with records joining and any number of scans in progress,
      no node confirmed in a slot that has not been overwritten since has been
      reclaimed. */
  lemma RunProtects(s0: State, sched: seq<Action>)
    requires Init(s0)
    ensures var s := Run(s0, sched);
      forall c :: c in s.confirmed ==>
        HasSlot(s, c.0, c.1) && s.slots[c.0][c.1] in s.phase && !s.phase[s.slots[c.0][c.1]].Reclaimed?
  {
    InitInv(s0);
    RunInv(s0, sched);
  }

  /** The promise step by step: once confirmed, a node stays confirmed and
      unreclaimed, whatever any thread does, until its own thread overwrites or
      clears the slot. */
  lemma ConfirmedUntilOverwritten(s: State, a: Action, t: Tid, k: nat)
    requires Inv(s) && (t, k) in s.confirmed
    requires !(a.DoUse? && a.t == t && a.k == k)
    ensures var s' := Next(s, a);
      && Inv(s') && (t, k) in s'.confirmed && HasSlot(s', t, k) && s'.slots[t][k] == s.slots[t][k]
      && s.slots[t][k] in s'.phase && !s'.phase[s.slots[t][k]].Reclaimed?
  {
    NextInv(s, a);
  }

  /** A node is reclaimed only by a scan of the thread that retired it, never
      while some slot holds it confirmed, and it is then on no retired list, so
      its gc function is called once per retirement. */
  lemma ReclaimIsJustified(s: State, a: Action, x: Node)
    requires Inv(s) && x in s.phase && !s.phase[x].Reclaimed?
    requires x in Next(s, a).phase && Next(s, a).phase[x].Reclaimed?
    ensures a.DoScan? && s.phase[x] == Retired(a.t)
    ensures forall c :: c in s.confirmed ==> s.slots[c.0][c.1] != x
    ensures forall t :: 0 <= t < |Next(s, a).slots| ==> !Owes(Next(s, a), t, x)
  {
    var s' := Next(s, a);
    NextInv(s, a);
    assert Owes(s, a.t, x);
    forall c | c in s.confirmed ensures s.slots[c.0][c.1] != x {
      assert Covered(s, a.t, c.0, c.1);
    }
  }

  /** Nothing retired is forgotten: it stays on its thread's list, exactly once,
      until it is reclaimed. */
  lemma RetiredNodesAreKept(s: State, x: Node)
    requires Inv(s) && x in s.phase && s.phase[x].Retired?
    ensures Joined(s, s.phase[x].owner)
    ensures multiset(Pending(s, s.phase[x].owner))[x] == 1
  {
    var t := s.phase[x].owner;
    var q := Pending(s, t);
    assert Owes(s, t, x);
    assert x in q;
    NoDupCounts(q, x);
  }

  lemma {:induction false} NoDupCounts(q: seq<Node>, x: Node)
    requires NoDup(q)
    ensures multiset(q)[x] == if x in q then 1 else 0
  {
    if q == [] {
    } else {
      var q' := q[..|q| - 1];
      NoDupCounts(q', x);
      assert q == q' + [q[|q| - 1]];
      assert x in q' ==> q[|q| - 1] != x;
    }
  }

  // ------------------------------------------------------------ in-place form

  /** The records' slots and retired lists, and the registers of the scans. */
  class Domain {
    const width: nat
    var slots: seq<seq<Node>>
    var retired: seq<seq<Node>>
    var scans: seq<Scan>
    ghost var phase: map<Node, Phase>
    ghost var confirmed: set<(Tid, nat)>

    ghost function View(): State
      reads this
    {
      State(width, phase, slots, retired, scans, confirmed)
    }

    constructor (width: nat, ghost phase: map<Node, Phase>)
      requires 0 !in phase && forall x :: x in phase ==> !phase[x].Retired?
      ensures Init(View()) && this.width == width && this.phase == phase
    {
      this.width, this.phase := width, phase;
      slots, retired, scans, confirmed := [], [], [], {};
    }

    method Enroll()
      modifies this
      ensures View() == Join(old(View()))
    {
      slots := slots + [seq(width, _ => 0)];
      retired := retired + [[]];
      scans := scans + [NoScan];
    }

    /** hazard_pointer_using, or done_using when `x` is NULL: one slot is
        overwritten, and what it protected before is protected no more. */
    method Using(t: Tid, k: nat, x: Node)
      requires HasSlot(View(), t, k)
      modifies this`slots, this`confirmed
      ensures View() == Use(old(View()), t, k, x)
      ensures slots[t] == old(slots[t])[k := x] && forall u :: 0 <= u < |slots| && u != t ==> slots[u] == old(slots[u])
      ensures confirmed == old(confirmed) - {(t, k)}
    {
      var row: seq<Node> := slots[t][k := x];
      slots := slots[t := row];
      confirmed := confirmed - {(t, k)};
    }

    /** Records that the user has seen the node in its slot not retired. */
    ghost method Check(t: Tid, k: nat)
      modifies this`confirmed
      ensures View() == Confirm(old(View()), t, k)
    {
      if HasSlot(View(), t, k) && slots[t][k] in phase && phase[slots[t][k]].Live? {
        confirmed := confirmed + {(t, k)};
      }
    }

    /** The list push of hazard_pointer_free. */
    method Free(t: Tid, x: Node)
      requires MayRetire(View(), t, x)
      modifies this`retired, this`phase
      ensures View() == Retire(old(View()), t, x)
      ensures retired[t] == [x] + old(retired[t]) && phase[x] == Retired(t)
    {
      retired := retired[t := [x] + retired[t]];
      phase := phase[x := Retired(t)];
    }

    method BeginScan(t: Tid)
      requires Joined(View(), t) && scans[t].NoScan?
      modifies this`scans
      ensures View() == StartScan(old(View()), t)
    {
      scans := scans[t := Collect(|slots| - 1, 0, {})];
    }

    /** One access of a scan: a slot read, a step to the next record, or one node
        of the old list relinked or reclaimed. */
    method ScanAccess(t: Tid)
      requires Joined(View(), t)
      modifies this`scans, this`retired, this`phase
      ensures View() == ScanStep(old(View()), t)
    {
      match scans[t]
      case NoScan =>
      case Collect(i, k, seen) =>
        if i < 0 || i >= |slots| {
          scans, retired := scans[t := Sweep(seen, retired[t])], retired[t := []];
        } else if k >= |slots[i]| {
          scans := scans[t := Collect(i - 1, 0, seen)];
        } else {
          var h := slots[i][k];
          scans := scans[t := Collect(i, k + 1, if h == 0 then seen else seen + {h})];
        }
      case Sweep(seen, todo) =>
        if todo == [] {
          scans := scans[t := NoScan];
        } else {
          if todo[0] in seen {
            retired := retired[t := [todo[0]] + retired[t]];
          } else {
            phase := phase[todo[0] := Reclaimed];
          }
          scans := scans[t := Sweep(seen, todo[1..])];
        }
    }

    /** A caller takes a reclaimed node back into use. */
    ghost method Recycle(x: Node)
      modifies this`phase
      ensures View() == Reuse(old(View()), x)
    {
      if x in phase && phase[x].Reclaimed? { phase := phase[x := Live]; }
    }
  }
}
