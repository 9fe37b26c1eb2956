/** Threads joining the hazard pointer record list, and the retire thresholds
    they keep up to date while others join. */
module HazardRecords {
  import opened Common

  /** Where a joining thread stands. Records are numbered in the order they were
      published and -1 is NULL; `head` is the head the thread linked to. */
  datatype Pc =
    | Outside
    | ReadHead                                       // cur_head = *head, ret->next = cur_head
    | Count(head: int, cur: int, threads: nat)       // ++threads, cur = cur->next
    | Cas(head: int, threshold: nat)                 // CAS(head, cur_head, ret)
    | Update(me: nat, cur: int)                      // fetch-add cur->retire_threshold, cur = cur->next
    | Joined(me: nat)

  datatype Action = Join(t: Tid) | Go(t: Tid)

  /** `next` and `threshold` are the fields of the published records. `owner` and
      `reached` are history: who published a record, and the record its owner
      will update next (-1 once it has been through the list). */
  datatype State = State(
    width: nat, head: int, next: seq<int>, threshold: seq<nat>, pcs: map<Tid, Pc>,
    owner: seq<Tid>, reached: seq<int>)

  predicate Init(s: State) {
    && s.width > 0 && s.head == -1 && s.next == [] && s.threshold == [] && s.owner == [] && s.reached == []
    && forall t :: t in s.pcs ==> s.pcs[t] == Outside
  }

  function Goto(s: State, t: Tid, pc: Pc): State {
    s.(pcs := s.pcs[t := pc])
  }

  function NextOf(s: State, i: int): int {
    if 0 <= i < |s.next| then s.next[i] else -1
  }

  /** R = 2 * N * K. */
  function Threshold(threads: nat, width: nat): nat {
    2 * Slots(threads, width)
  }

  /** The CAS on head succeeds; the record becomes visible. */
  function Publish(s: State, t: Tid, head: int, threshold: nat): State {
    var me := |s.threshold|;
    Goto(s, t, Update(me, head)).(
      head := me, next := s.next + [head], threshold := s.threshold + [threshold],
      owner := s.owner + [t], reached := s.reached + [head])
  }

  /** The update loop's body for record `cur`. */
  function Raise(s: State, t: Tid, me: nat, cur: nat): State
    requires cur < |s.threshold|
  {
    Goto(s, t, Update(me, NextOf(s, cur))).(
      threshold := s.threshold[cur := s.threshold[cur] + 2 * s.width],
      reached := if me < |s.reached| then s.reached[me := NextOf(s, cur)] else s.reached)
  }

  function GoStep(s: State, t: Tid): State
    requires t in s.pcs
  {
    match s.pcs[t]
    case ReadHead => Goto(s, t, Count(s.head, s.head, 1))
    case Count(head, cur, threads) =>
      if cur >= 0 then Goto(s, t, Count(head, NextOf(s, cur), threads + 1))
      else Goto(s, t, Cas(head, Threshold(threads, s.width)))
    case Cas(head, threshold) => if s.head == head then Publish(s, t, head, threshold) else Goto(s, t, ReadHead)
    case Update(me, cur) => if 0 <= cur < |s.threshold| then Raise(s, t, me, cur) else Goto(s, t, Joined(me))
    case _ => s
  }

  function Next(s: State, a: Action): State {
    match a
    case Join(t) => if t in s.pcs && s.pcs[t].Outside? then Goto(s, t, ReadHead) else s
    case Go(t) => if t in s.pcs then GoStep(s, t) else s
  }

  function Run(s: State, sched: seq<Action>): State
    decreases |sched|
  {
    if sched == [] then s else Run(Next(s, sched[0]), sched[1..])
  }

  // ---------------------------------------------------------------- invariant

  /** How many records published after `i` have already been through it. */
  function Passed(reached: seq<int>, i: nat): nat
  {
    if |reached| <= i + 1 then 0
    else Passed(reached[..|reached| - 1], i) + (if reached[|reached| - 1] < i then 1 else 0)
  }

  lemma {:induction false} PassedUpdate(reached: seq<int>, m: nat, i: nat)
    requires m < |reached| && 0 <= reached[m] < m
    ensures Passed(reached[m := reached[m] - 1], i) == Passed(reached, i) + (if i == reached[m] then 1 else 0)
    decreases |reached|
  {
    var last := |reached| - 1;
    var reached' := reached[m := reached[m] - 1];
    if |reached| <= i + 1 {
    } else {
      if m == last {
        assert reached'[..last] == reached[..last];
      } else {
        assert reached'[..last] == reached[..last][m := reached[m] - 1];
        PassedUpdate(reached[..last], m, i);
      }
    }
  }

  lemma PassedAppend(reached: seq<int>, i: nat)
    ensures Passed(reached + [|reached| - 1], i) == Passed(reached, i)
  {
    assert (reached + [|reached| - 1])[..|reached|] == reached;
  }

  lemma {:induction false} PassedBound(reached: seq<int>, i: nat)
    requires i < |reached|
    ensures Passed(reached, i) <= |reached| - 1 - i
    ensures (forall j :: i < j < |reached| ==> reached[j] == -1) ==> Passed(reached, i) == |reached| - 1 - i
    decreases |reached|
  {
    if |reached| <= i + 1 {
    } else {
      PassedBound(reached[..|reached| - 1], i);
    }
  }

  ghost predicate Shared(s: State) {
    && s.head == |s.threshold| - 1
    && |s.next| == |s.threshold| == |s.owner| == |s.reached|
    && (forall i :: 0 <= i < |s.next| ==> s.next[i] == i - 1)
    && (forall i :: 0 <= i < |s.reached| ==> -1 <= s.reached[i] < i)
    && (forall i :: 0 <= i < |s.reached| ==>
          s.owner[i] in s.pcs &&
          (s.pcs[s.owner[i]] == Update(i, s.reached[i]) || (s.pcs[s.owner[i]] == Joined(i) && s.reached[i] == -1)))
  }

  ghost predicate ThresholdsOk(s: State)
    requires |s.threshold| == |s.reached|
  {
    forall i {:trigger s.threshold[i]} :: 0 <= i < |s.threshold| ==>
      s.threshold[i] == Threshold(i + 1 + Passed(s.reached, i), s.width)
  }

  ghost predicate ThreadOk(s: State, t: Tid)
    requires t in s.pcs
  {
    match s.pcs[t]
    case Count(head, cur, threads) => -1 <= cur <= head < |s.threshold| && threads == 1 + head - cur
    case Cas(head, threshold) => -1 <= head < |s.threshold| && threshold == Threshold(head + 2, s.width)
    case Update(me, cur) => me < |s.reached| && me < |s.owner| && s.owner[me] == t && s.reached[me] == cur
    case Joined(me) => me < |s.reached| && me < |s.owner| && s.owner[me] == t && s.reached[me] == -1
    case _ => true
  }

  ghost predicate Inv(s: State) {
    Shared(s) && ThresholdsOk(s) && forall t :: t in s.pcs ==> ThreadOk(s, t)
  }

  lemma PublishShared(s: State, t: Tid, head: int, threshold: nat)
    requires Shared(s) && t in s.pcs && s.pcs[t] == Cas(head, threshold) && s.head == head
    ensures Shared(Publish(s, t, head, threshold))
  {
  }

  lemma PublishThresholds(s: State, t: Tid, head: int, threshold: nat)
    requires s.head == head == |s.threshold| - 1 && |s.threshold| == |s.reached| && ThresholdsOk(s)
    requires threshold == Threshold(head + 2, s.width)
    ensures var s' := Publish(s, t, head, threshold); |s'.threshold| == |s'.reached| && ThresholdsOk(s')
  {
    var s' := Publish(s, t, head, threshold);
    forall i | 0 <= i < |s'.threshold|
      ensures s'.threshold[i] == Threshold(i + 1 + Passed(s'.reached, i), s.width)
    {
      PassedAppend(s.reached, i);
    }
  }

  lemma RaiseShared(s: State, t: Tid, me: nat, cur: nat)
    requires Shared(s) && t in s.pcs && s.pcs[t] == Update(me, cur) && ThreadOk(s, t)
    ensures cur < |s.threshold| && Shared(Raise(s, t, me, cur))
  {
  }

  lemma RaiseThreshold(s: State, t: Tid, me: nat, cur: nat, i: nat)
    requires |s.threshold| == |s.reached| && me < |s.reached| && s.reached[me] == cur < me && NextOf(s, cur) == cur - 1
    requires i < |s.threshold| && s.threshold[i] == Threshold(i + 1 + Passed(s.reached, i), s.width)
    ensures var s' := Raise(s, t, me, cur);
      s'.threshold[i] == Threshold(i + 1 + Passed(s'.reached, i), s.width)
  {
    assert Raise(s, t, me, cur).reached == s.reached[me := s.reached[me] - 1];
    PassedUpdate(s.reached, me, i);
  }

  lemma RaiseThresholds(s: State, t: Tid, me: nat, cur: nat)
    requires Shared(s) && ThresholdsOk(s) && t in s.pcs && s.pcs[t] == Update(me, cur) && ThreadOk(s, t)
    ensures cur < |s.threshold|
    ensures var s' := Raise(s, t, me, cur);
      |s'.threshold| == |s'.reached| && ThresholdsOk(s')
  {
    forall i | 0 <= i < |s.threshold|
      ensures var s' := Raise(s, t, me, cur);
        s'.threshold[i] == Threshold(i + 1 + Passed(s'.reached, i), s.width)
    {
      RaiseThreshold(s, t, me, cur, i);
    }
  }

  lemma PublishThread(s: State, t: Tid, head: int, threshold: nat)
    requires |s.owner| == |s.reached| == |s.threshold|
    ensures ThreadOk(Publish(s, t, head, threshold), t)
  {
  }

  lemma PublishOther(s: State, t: Tid, head: int, threshold: nat, u: Tid)
    requires |s.owner| == |s.reached| == |s.threshold| && u != t && u in s.pcs && ThreadOk(s, u)
    ensures ThreadOk(Publish(s, t, head, threshold), u)
  {
  }

  lemma RaiseOther(s: State, t: Tid, me: nat, cur: nat, u: Tid)
    requires |s.owner| == |s.reached| == |s.threshold| && cur < |s.threshold|
    requires me < |s.owner| && s.owner[me] == t
    requires u != t && u in s.pcs && ThreadOk(s, u)
    ensures ThreadOk(Raise(s, t, me, cur), u)
  {
  }

  lemma GotoInv(s: State, t: Tid, pc: Pc)
    requires Inv(s) && t in s.pcs && ThreadOk(Goto(s, t, pc), t)
    requires forall i :: 0 <= i < |s.owner| && s.owner[i] == t ==> pc == Joined(i) && s.reached[i] == -1
    ensures Inv(Goto(s, t, pc))
  {
    var s' := Goto(s, t, pc);
    forall u | u in s.pcs && u != t ensures ThreadOk(s', u) {
      assert ThreadOk(s, u);
    }
  }

  lemma PublishInv(s: State, t: Tid, head: int, threshold: nat)
    requires Inv(s) && t in s.pcs && s.pcs[t] == Cas(head, threshold) && s.head == head
    ensures Inv(Publish(s, t, head, threshold))
  {
    assert ThreadOk(s, t);
    PublishShared(s, t, head, threshold);
    PublishThresholds(s, t, head, threshold);
    PublishThread(s, t, head, threshold);
    forall u | u in s.pcs && u != t ensures ThreadOk(Publish(s, t, head, threshold), u) {
      PublishOther(s, t, head, threshold, u);
    }
  }

  lemma RaiseInv(s: State, t: Tid, me: nat, cur: nat)
    requires Inv(s) && t in s.pcs && s.pcs[t] == Update(me, cur)
    ensures cur < |s.threshold| && Inv(Raise(s, t, me, cur))
  {
    assert ThreadOk(s, t);
    RaiseShared(s, t, me, cur);
    RaiseThresholds(s, t, me, cur);
    forall u | u in s.pcs && u != t ensures ThreadOk(Raise(s, t, me, cur), u) {
      RaiseOther(s, t, me, cur, u);
    }
  }

  /** A thread that owns a published record is updating thresholds or done. */
  lemma OwnerIsPublished(s: State, t: Tid)
    requires Shared(s) && t in s.pcs && !s.pcs[t].Update? && !s.pcs[t].Joined?
    ensures t !in s.owner
  {
  }

  lemma GoInv(s: State, t: Tid)
    requires Inv(s) && t in s.pcs
    ensures Inv(GoStep(s, t))
  {
    assert ThreadOk(s, t);
    match s.pcs[t]
    case ReadHead =>
      OwnerIsPublished(s, t);
      GotoInv(s, t, Count(s.head, s.head, 1));
    case Count(head, cur, threads) =>
      OwnerIsPublished(s, t);
      GotoInv(s, t, if cur >= 0 then Count(head, NextOf(s, cur), threads + 1)
                    else Cas(head, Threshold(threads, s.width)));
    case Cas(head, threshold) =>
      if s.head == head { PublishInv(s, t, head, threshold); } else {
        OwnerIsPublished(s, t);
        GotoInv(s, t, ReadHead);
      }
    case Update(me, cur) =>
      if cur >= 0 { RaiseInv(s, t, me, cur); } else { GotoInv(s, t, Joined(me)); }
    case _ =>
  }

  lemma NextInv(s: State, a: Action)
    requires Inv(s)
    ensures Inv(Next(s, a))
  {
    match a
    case Join(t) =>
      if t in s.pcs && s.pcs[t].Outside? {
        OwnerIsPublished(s, t);
        GotoInv(s, t, ReadHead);
      }
    case Go(t) => if t in s.pcs { GoInv(s, t); }
  }

  lemma {:induction false} RunInv(s: State, sched: seq<Action>)
    requires Inv(s)
    ensures Inv(Run(s, sched))
    decreases |sched|
  {
    if sched == [] {
    } else {
      NextInv(s, sched[0]);
      RunInv(Next(s, sched[0]), sched[1..]);
    }
  }

  lemma {:induction false} RunKeepsWidth(s: State, sched: seq<Action>)
    ensures Run(s, sched).width == s.width
    decreases |sched|
  {
    if sched == [] {
    } else {
      RunKeepsWidth(Next(s, sched[0]), sched[1..]);
    }
  }

  // ------------------------------------------------------------- main results

  /** The records a scan visits from record `i`, hazard_pointer.c's walk along
      `next`. */
  function Walk(next: seq<int>, i: int): seq<int>
    decreases if i < 0 then 0 else i + 1
  {
    if 0 <= i < |next| && next[i] < i then [i] + Walk(next, next[i]) else []
  }

  lemma {:induction false} WalkLength(next: seq<int>, i: int)
    requires forall j :: 0 <= j < |next| ==> next[j] == j - 1
    requires -1 <= i < |next|
    ensures |Walk(next, i)| == i + 1
    decreases i + 1
  {
    if i == -1 {
    } else {
      WalkLength(next, i - 1);
    }
  }

  ghost predicate AllJoined(s: State) {
    forall t :: t in s.pcs ==> !s.pcs[t].Update?
  }

  /** What record `i` says, against the `n` records there are. */
  ghost predicate RecordOk(s: State, i: nat)
    requires i < |s.threshold| == |s.reached|
  {
    && s.threshold[i] == Threshold(i + 1 + Passed(s.reached, i), s.width)
    && Threshold(i + 1, s.width) <= s.threshold[i] <= Threshold(|s.threshold|, s.width)
    && (i == s.head ==> s.threshold[i] == Threshold(|s.threshold|, s.width))
    && (AllJoined(s) ==> s.threshold[i] == Threshold(|s.threshold|, s.width))
  }

  lemma InvRecordOk(s: State, i: nat)
    requires Shared(s) && ThresholdsOk(s) && i < |s.threshold|
    ensures RecordOk(s, i)
  {
    var k := i + 1 + Passed(s.reached, i);
    assert s.threshold[i] == Threshold(k, s.width);
    PassedBound(s.reached, i);
    ThresholdMonotone(i + 1, k, s.width);
    ThresholdMonotone(k, |s.threshold|, s.width);
    if AllJoined(s) {
      forall j | i < j < |s.reached| ensures s.reached[j] == -1 {
        assert s.owner[j] in s.pcs;
      }
    }
  }

  /** In every run of any number of joining threads, at every step: the head
      record's threshold is 2 * N * K for the current list length N; any other
      record's counts the records of its own suffix and the later joiners that
      have already been through it, so it lies between its suffix's share and
      the head's; and once all joins are finished all are 2 * N * K. */
  lemma RunKeepsThresholds(s0: State, sched: seq<Action>)
    requires Init(s0)
    ensures var s := Run(s0, sched);
      && s.width == s0.width && s.head == |s.threshold| - 1 && |s.reached| == |s.threshold|
      && forall i :: 0 <= i < |s.threshold| ==> RecordOk(s, i)
  {
    InitInv(s0);
    RunInv(s0, sched);
    RunKeepsWidth(s0, sched);
    var s := Run(s0, sched);
    forall i | 0 <= i < |s.threshold| ensures RecordOk(s, i) {
      InvRecordOk(s, i);
    }
  }

  /** A scan starts from a record that was head once and reads that record's
      threshold at some later step. Whatever joined in between, half the
      threshold is room for every slot of every record it will visit. */
  lemma WalkFitsThreshold(s0: State, sched: seq<Action>, i: nat)
    requires Init(s0) && i < |Run(s0, sched).threshold|
    ensures var s := Run(s0, sched);
      |Walk(s.next, i)| == i + 1 && Threshold(|Walk(s.next, i)|, s0.width) <= s.threshold[i]
  {
    InitInv(s0);
    RunInv(s0, sched);
    RunKeepsWidth(s0, sched);
    var s := Run(s0, sched);
    WalkLength(s.next, i);
    InvRecordOk(s, i);
  }

  lemma ThresholdMonotone(a: nat, b: nat, width: nat)
    requires a <= b
    ensures Threshold(a, width) <= Threshold(b, width)
  {
    SlotsMonotone(a, b, width);
  }

  lemma InitInv(s: State)
    requires Init(s)
    ensures Inv(s)
  {
  }

  /** A join returns only with a record of its own in the list, and after going
      through every record that was there before it. */
  lemma RunJoinsAreReal(s0: State, sched: seq<Action>, t: Tid, u: Tid)
    requires Init(s0)
    ensures var s := Run(s0, sched);
      t in s.pcs && s.pcs[t].Joined? ==>
        && s.pcs[t].me < |s.threshold| && |s.owner| == |s.reached| == |s.threshold|
        && s.owner[s.pcs[t].me] == t && s.reached[s.pcs[t].me] == -1
        && (u in s.pcs && u != t && s.pcs[u].Joined? ==> s.pcs[u].me != s.pcs[t].me)
  {
    InitInv(s0);
    RunInv(s0, sched);
    var s := Run(s0, sched);
    if t in s.pcs { assert ThreadOk(s, t); }
    if u in s.pcs { assert ThreadOk(s, u); }
  }

  function Solo(s: State, t: Tid, n: nat): State
    decreases n
  {
    if n == 0 then s else Solo(Next(s, Go(t)), t, n - 1)
  }

  lemma {:induction false} CountAlone(s: State, t: Tid, head: int, cur: int, threads: nat, rest: nat)
    requires Inv(s) && t in s.pcs && s.pcs[t] == Count(head, cur, threads)
    ensures cur >= -1
    ensures Solo(s, t, cur + 2 + rest) == Solo(Goto(s, t, Cas(head, Threshold(head + 2, s.width))), t, rest)
    decreases cur + 1
  {
    assert ThreadOk(s, t);
    var s1 := Next(s, Go(t));
    assert Solo(s, t, cur + 2 + rest) == Solo(s1, t, cur + 1 + rest);
    if cur == -1 {
    } else {
      GoInv(s, t);
      CountAlone(s1, t, head, cur - 1, threads + 1, rest);
      Regoto(s, t, s1.pcs[t], Cas(head, Threshold(head + 2, s.width)));
    }
  }

  lemma Regoto(s: State, t: Tid, pc: Pc, pc': Pc)
    ensures Goto(Goto(s, t, pc), t, pc') == Goto(s, t, pc')
  {
    assert s.pcs[t := pc][t := pc'] == s.pcs[t := pc'];
  }

  /** From `s` to `s'` thread `t` has finished its join, raising the thresholds of
      the records up to `cur` for it. */
  ghost predicate Raised(s: State, s': State, t: Tid, me: nat, cur: int) {
    && Inv(s') && t in s'.pcs && s'.pcs[t] == Joined(me) && s'.head == s.head && s'.next == s.next
    && |s'.threshold| == |s.threshold|
    && forall i :: 0 <= i < |s.threshold| ==>
         s'.threshold[i] == s.threshold[i] + (if i <= cur then 2 * s.width else 0)
  }

  /** One access of the update loop. */
  lemma UpdateOne(s: State, t: Tid, me: nat, cur: int)
    requires Inv(s) && t in s.pcs && s.pcs[t] == Update(me, cur)
    ensures var s' := GoStep(s, t);
      && Inv(s') && t in s'.pcs && s'.width == s.width && s'.head == s.head && s'.next == s.next
      && -1 <= cur < |s.threshold| == |s'.threshold|
      && s'.threshold == (if cur == -1 then s.threshold else s.threshold[cur := s.threshold[cur] + 2 * s.width])
      && s'.pcs[t] == (if cur == -1 then Joined(me) else Update(me, cur - 1))
  {
    assert ThreadOk(s, t);
    GoInv(s, t);
  }

  lemma {:induction false} UpdateAlone(s: State, t: Tid, me: nat, cur: int)
    requires Inv(s) && t in s.pcs && s.pcs[t] == Update(me, cur)
    ensures cur >= -1 && Raised(s, Solo(s, t, cur + 2), t, me, cur)
    decreases cur + 1
  {
    UpdateOne(s, t, me, cur);
    var s1 := GoStep(s, t);
    SoloStep(s, t, cur + 1);
    if cur == -1 {
    } else {
      UpdateAlone(s1, t, me, cur - 1);
    }
  }

  lemma SoloStep(s: State, t: Tid, n: nat)
    requires t in s.pcs
    ensures Solo(s, t, n + 1) == Solo(GoStep(s, t), t, n)
  {
  }

  /** A list with these fields has become that of `s'` by a join of thread `t`: one
      record more, at the head, that says 2 * N * K of the longer list, and 2 * K
      more in every other. */
  ghost predicate JoinOutcome(width: nat, head: int, next: seq<int>, threshold: seq<nat>, t: Tid, s': State) {
    var n := |threshold|;
    && Inv(s') && t in s'.pcs && s'.pcs[t] == Joined(n)
    && s'.head == n && s'.next == next + [head] && |s'.threshold| == n + 1
    && s'.threshold[n] == Threshold(n + 1, width)
    && forall i :: 0 <= i < n ==> s'.threshold[i] == threshold[i] + 2 * width
  }

  /** Alone, a join needs no retry; it takes two accesses for every record there
      is and four more. */
  lemma JoinAlone(s: State, t: Tid)
    requires Inv(s) && t in s.pcs && s.pcs[t].Outside?
    ensures JoinOutcome(s.width, s.head, s.next, s.threshold, t, Solo(Next(s, Join(t)), t, 2 * |s.threshold| + 4))
  {
    NextInv(s, Join(t));
    JoinCounts(Next(s, Join(t)), t, |s.threshold|);
  }

  /** From `s` to `s'` no record has changed. */
  ghost predicate SameRecords(s: State, s': State) {
    s'.threshold == s.threshold && s'.head == s.head && s'.next == s.next && s'.width == s.width
  }

  lemma ReadsHead(s: State, t: Tid, k: nat) returns (s1: State)
    requires Inv(s) && t in s.pcs && s.pcs[t].ReadHead?
    ensures Inv(s1) && t in s1.pcs && s1.pcs[t] == Count(s1.head, s1.head, 1) && SameRecords(s, s1)
    ensures Solo(s, t, k + 1) == Solo(s1, t, k)
  {
    s1 := GoStep(s, t);
    GoInv(s, t);
    SoloStep(s, t, k);
  }

  lemma JoinCounts(s: State, t: Tid, n: nat)
    requires Inv(s) && t in s.pcs && s.pcs[t].ReadHead? && |s.threshold| == n
    ensures JoinOutcome(s.width, s.head, s.next, s.threshold, t, Solo(s, t, 2 * n + 4))
  {
    var s1 := ReadsHead(s, t, 2 * n + 3);
    JoinCompares(s1, t, n);
  }

  lemma JoinCompares(s: State, t: Tid, n: nat)
    requires Inv(s) && t in s.pcs && s.pcs[t] == Count(s.head, s.head, 1) && |s.threshold| == n
    ensures JoinOutcome(s.width, s.head, s.next, s.threshold, t, Solo(s, t, 2 * n + 3))
  {
    var s1 := CountsAll(s, t, n);
    JoinPublishes(s1, t, n);
  }

  lemma CountsAll(s: State, t: Tid, n: nat) returns (s1: State)
    requires Inv(s) && t in s.pcs && s.pcs[t] == Count(s.head, s.head, 1) && |s.threshold| == n
    ensures Inv(s1) && t in s1.pcs && s1.pcs[t] == Cas(s1.head, Threshold(s1.head + 2, s1.width)) && SameRecords(s, s1)
    ensures Solo(s, t, 2 * n + 3) == Solo(s1, t, n + 2)
  {
    s1 := Goto(s, t, Cas(s.head, Threshold(s.head + 2, s.width)));
    assert s.head + 2 + (n + 2) == 2 * n + 3;
    CountAlone(s, t, s.head, s.head, 1, n + 2);
    OwnerIsPublished(s, t);
    GotoInv(s, t, Cas(s.head, Threshold(s.head + 2, s.width)));
  }

  lemma JoinPublishes(s: State, t: Tid, n: nat)
    requires Inv(s) && t in s.pcs && s.pcs[t] == Cas(s.head, Threshold(s.head + 2, s.width)) && |s.threshold| == n
    ensures JoinOutcome(s.width, s.head, s.next, s.threshold, t, Solo(s, t, n + 2))
  {
    PublishOne(s, t);
    var s1 := GoStep(s, t);
    UpdateAlone(s1, t, n, s.head);
    SoloStep(s, t, n + 1);
    PublishedAndRaised(s, s1, Solo(s1, t, n + 1), t);
  }

  lemma PublishOne(s: State, t: Tid)
    requires Inv(s) && t in s.pcs && s.pcs[t] == Cas(s.head, Threshold(s.head + 2, s.width))
    ensures Inv(GoStep(s, t)) && Published(s, GoStep(s, t), t)
  {
    GoInv(s, t);
  }

  ghost predicate Published(s: State, s1: State, t: Tid) {
    var n := |s.threshold|;
    && s.head == n - 1 && t in s1.pcs && s1.pcs[t] == Update(n, s.head) && s1.width == s.width
    && s1.head == n && s1.next == s.next + [s.head] && s1.threshold == s.threshold + [Threshold(n + 1, s.width)]
  }

  lemma PublishedAndRaised(s: State, s1: State, s': State, t: Tid)
    requires Published(s, s1, t) && Raised(s1, s', t, |s.threshold|, s.head)
    ensures JoinOutcome(s.width, s.head, s.next, s.threshold, t, s')
  {
  }

  // ------------------------------------------------------------ in-place form

  class RecordList {
    const width: nat
    var head: int
    var next: seq<int>
    var threshold: seq<nat>
    var pcs: map<Tid, Pc>
    ghost var owner: seq<Tid>
    ghost var reached: seq<int>

    ghost function View(): State
      reads this
    {
      State(width, head, next, threshold, pcs, owner, reached)
    }

    constructor (width: nat, threads: set<Tid>)
      requires width > 0
      ensures Init(View()) && this.width == width && pcs.Keys == threads
    {
      this.width := width;
      head, next, threshold := -1, [], [];
      pcs := map t | t in threads :: Outside;
      owner, reached := [], [];
    }

    /** One access of thread `t`'s create_and_push. */
    method JoinAccess(t: Tid)
      requires t in pcs
      modifies this
      ensures View() == GoStep(old(View()), t)
    {
      match pcs[t]
      case ReadHead => pcs := pcs[t := Count(head, head, 1)];
      case Count(h, cur, threads) =>
        if cur >= 0 {
          pcs := pcs[t := Count(h, if cur < |next| then next[cur] else -1, threads + 1)];
        } else {
          SlotsIsProduct(threads, width);
          pcs := pcs[t := Cas(h, 2 * (threads * width))];
        }
      case Cas(h, limit) =>
        if head == h {
          var me := |threshold|;
          head, next, threshold := me, next + [h], threshold + [limit];
          owner, reached := owner + [t], reached + [h];
          pcs := pcs[t := Update(me, h)];
        } else {
          pcs := pcs[t := ReadHead];
        }
      case Update(me, cur) =>
        if 0 <= cur < |threshold| {
          threshold := threshold[cur := threshold[cur] + 2 * width];
          var after := if cur < |next| then next[cur] else -1;
          reached := if me < |reached| then reached[me := after] else reached;
          pcs := pcs[t := Update(me, after)];
        } else {
          pcs := pcs[t := Joined(me)];
        }
      case _ =>
    }

    /** Any interleaving of joining threads, performed in place. */
    method Interleave(sched: seq<Action>)
      requires Inv(View())
      modifies this
      ensures View() == Run(old(View()), sched) && Inv(View())
    {
      for i := 0 to |sched|
        invariant Inv(View())
        invariant Run(old(View()), sched) == Run(View(), sched[i..])
      {
        ghost var before := View();
        match sched[i] {
          case Join(t) => if t in pcs && pcs[t].Outside? { pcs := pcs[t := ReadHead]; }
          case Go(t) => if t in pcs { JoinAccess(t); }
        }
        assert View() == Next(before, sched[i]);
        NextInv(before, sched[i]);
        assert sched[i..][1..] == sched[i + 1..];
      }
    }
  }
}
