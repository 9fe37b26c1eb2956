/** The scan of HazardScan, which works on linked nodes and a sorted array,
    refines the scan of the protocol's step machine, whatever other threads do
    while it runs. */
module HazardRefinement {
  import opened Common
  import opened HazardScan
  import HP = HazardProtocol

  function Addresses(s: seq<Node>): (r: seq<nat>)
    ensures |r| == |s|
  {
    if s == [] then [] else [s[0].addr] + Addresses(s[1..])
  }

  lemma {:induction false} ReversedOfSum<T>(a: seq<T>, b: seq<T>)
    ensures Reversed(a + b) == Reversed(b) + Reversed(a)
    decreases |b|
  {
    if b == [] {
      assert a + b == a;
    } else {
      ReversedOfSum(a, b[..|b| - 1]);
      assert (a + b)[..|a + b| - 1] == a + b[..|b| - 1];
    }
  }

  lemma {:induction false} KeptOfSum(a: seq<Node>, b: seq<Node>, hazards: seq<nat>)
    ensures Kept(a + b, hazards) == Kept(a, hazards) + Kept(b, hazards)
    decreases |b|
  {
    if b == [] {
      assert a + b == a;
    } else {
      KeptOfSum(a, b[..|b| - 1], hazards);
      assert (a + b)[..|a + b| - 1] == a + b[..|b| - 1];
    }
  }

  lemma {:induction false} DroppedOfSum(a: seq<Node>, b: seq<Node>, hazards: seq<nat>)
    ensures Dropped(a + b, hazards) == Dropped(a, hazards) + Dropped(b, hazards)
    decreases |b|
  {
    if b == [] {
      assert a + b == a;
    } else {
      DroppedOfSum(a, b[..|b| - 1], hazards);
      assert (a + b)[..|a + b| - 1] == a + b[..|b| - 1];
    }
  }

  /** Deciding the first node first makes no difference. */
  lemma FirstKept(s: seq<Node>, hazards: seq<nat>)
    requires s != []
    ensures Kept(s, hazards) == (if s[0].addr in hazards then [s[0]] else []) + Kept(s[1..], hazards)
    ensures Dropped(s, hazards) == (if s[0].addr in hazards then [] else [s[0]]) + Dropped(s[1..], hazards)
  {
    assert s == [s[0]] + s[1..] && [s[0]][..0] == [];
    KeptOfSum([s[0]], s[1..], hazards);
    DroppedOfSum([s[0]], s[1..], hazards);
  }

  lemma RelinkOne<T>(x: T, rest: seq<T>, kept: seq<T>)
    ensures Reversed([x] + rest) + kept == Reversed(rest) + ([x] + kept)
  {
    ReversedOfSum([x], rest);
    assert [x][..0] == [];
    assert Reversed([x]) == [x];
  }

  lemma KeptJoins(todo: seq<Node>, kept: seq<Node>, hazards: seq<nat>)
    requires todo != []
    ensures Reversed(Kept(todo, hazards)) + kept ==
            Reversed(Kept(todo[1..], hazards)) + (if todo[0].addr in hazards then [todo[0]] + kept else kept)
  {
    FirstKept(todo, hazards);
    RelinkOne(todo[0], Kept(todo[1..], hazards), kept);
    assert [] + Kept(todo[1..], hazards) == Kept(todo[1..], hazards);
  }

  lemma AddressesOfCons(node: Node, rest: seq<Node>)
    ensures Addresses([node] + rest) == [node.addr] + Addresses(rest)
  {
    assert ([node] + rest)[1..] == rest;
  }

  lemma DroppedJoins(todo: seq<Node>, hazards: seq<nat>)
    requires todo != []
    ensures Addresses(Dropped(todo, hazards)) ==
            (if todo[0].addr in hazards then [] else [todo[0].addr]) + Addresses(Dropped(todo[1..], hazards))
  {
    FirstKept(todo, hazards);
    AddressesOfCons(todo[0], Dropped(todo[1..], hazards));
    assert [] + Dropped(todo[1..], hazards) == Dropped(todo[1..], hazards);
  }

  // -------------------------------------------- what a scan does during a run

  /** The next access of `t`'s scan reads a hazard slot. */
  predicate ReadsSlot(p: HP.State, t: Tid) {
    HP.Joined(p, t) && p.scans[t].Collect? && 0 <= p.scans[t].i < |p.slots| && p.scans[t].k < |p.slots[p.scans[t].i]|
  }

  predicate EndsRow(p: HP.State, t: Tid) {
    HP.Joined(p, t) && p.scans[t].Collect? && 0 <= p.scans[t].i < |p.slots| && p.scans[t].k >= |p.slots[p.scans[t].i]|
  }

  /** The values `t`'s scan reads along a schedule, each at its own moment, one
      row per record visited. `rows` are complete and `row` is being read. */
  function RowsRead(p: HP.State, t: Tid, sched: seq<HP.Action>, rows: seq<seq<nat>>, row: seq<nat>): seq<seq<nat>>
    decreases |sched|
  {
    if sched == [] then rows
    else
      var p', rest := HP.Next(p, sched[0]), sched[1..];
      if sched[0] != HP.DoScan(t) then RowsRead(p', t, rest, rows, row)
      else if ReadsSlot(p, t) then RowsRead(p', t, rest, rows, row + [p.slots[p.scans[t].i][p.scans[t].k]])
      else if EndsRow(p, t) then RowsRead(p', t, rest, rows + [row], [])
      else RowsRead(p', t, rest, rows, row)
  }

  /** The node, if any, that the next access of `t`'s scan hands to gc_function. */
  function FreedNext(p: HP.State, t: Tid): seq<nat> {
    if HP.Joined(p, t) && p.scans[t].Sweep? && p.scans[t].todo != [] && p.scans[t].todo[0] !in p.scans[t].seen
    then [p.scans[t].todo[0]] else []
  }

  /** The nodes that `t`'s scan hands to gc_function along a schedule, in order. */
  function Frees(p: HP.State, t: Tid, sched: seq<HP.Action>): seq<nat>
    decreases |sched|
  {
    if sched == [] then []
    else (if sched[0] == HP.DoScan(t) then FreedNext(p, t) else []) + Frees(HP.Next(p, sched[0]), t, sched[1..])
  }

  /** `t` is inside a scan before every action of the schedule. */
  predicate Scanning(p: HP.State, t: Tid, sched: seq<HP.Action>)
    decreases |sched|
  {
    sched == [] || (HP.Joined(p, t) && !p.scans[t].NoScan? && Scanning(HP.Next(p, sched[0]), t, sched[1..]))
  }

  /** The schedule takes `t` from inside a scan to its end. */
  ghost predicate Completes(p: HP.State, t: Tid, sched: seq<HP.Action>) {
    Scanning(p, t, sched) && HP.Joined(HP.Run(p, sched), t) && HP.Run(p, sched).scans[t].NoScan?
  }

  /** What `FreedNext` names is what the protocol reclaims at that access. */
  lemma FreedNextIsReclaimed(p: HP.State, t: Tid, x: nat)
    requires HP.Inv(p) && x in p.phase
    ensures x in HP.Next(p, HP.DoScan(t)).phase
    ensures x in FreedNext(p, t) <==>
              !p.phase[x].Reclaimed? && HP.Next(p, HP.DoScan(t)).phase[x].Reclaimed?
  {
    if FreedNext(p, t) != [] {
      assert HP.Owes(p, t, FreedNext(p, t)[0]);
    }
  }

  /** No action of anyone else touches a scan in progress. */
  lemma OthersKeepScan(p: HP.State, t: Tid, a: HP.Action)
    requires HP.Shape(p) && HP.Joined(p, t) && !p.scans[t].NoScan? && a != HP.DoScan(t)
    ensures var p' := HP.Next(p, a);
      HP.Joined(p', t) && p'.scans[t] == p.scans[t] && p'.retired[t] == p.retired[t] && |p.slots| <= |p'.slots|
  {
  }

  /** Thread `t` is sweeping `todo` with `kept` already relinked. */
  ghost predicate Sweeping(p: HP.State, t: Tid, todo: seq<Node>, kept: seq<Node>, seen: set<nat>) {
    HP.Joined(p, t) && p.scans[t] == HP.Sweep(seen, Addresses(todo)) && p.retired[t] == Addresses(kept)
  }

  lemma SweepOne(p: HP.State, t: Tid, todo: seq<Node>, kept: seq<Node>, seen: set<nat>)
    requires Sweeping(p, t, todo, kept, seen) && todo != []
    ensures var hit := todo[0].addr in seen;
      && Sweeping(HP.ScanStep(p, t), t, todo[1..], if hit then [todo[0]] + kept else kept, seen)
      && FreedNext(p, t) == if hit then [] else [todo[0].addr]
  {
    assert Addresses(todo)[1..] == Addresses(todo[1..]);
    assert ([todo[0]] + kept)[1..] == kept;
  }

  /** `t`'s scan has ended with `kept` retired and `freed` handed over. */
  ghost predicate Ended(p: HP.State, t: Tid, sched: seq<HP.Action>, kept: seq<Node>, freed: seq<Node>) {
    var p' := HP.Run(p, sched);
    && HP.Joined(p', t) && p'.scans[t].NoScan?
    && p'.retired[t] == Addresses(kept) && Frees(p, t, sched) == Addresses(freed)
  }

  /** Whatever happens meanwhile, a sweep relinks the hazardous nodes in reverse
      and frees the others in order. */
  lemma {:induction false} SweepMatches(
      p: HP.State, t: Tid, todo: seq<Node>, kept: seq<Node>, seen: set<nat>, hazards: seq<nat>, sched: seq<HP.Action>)
    requires HP.Inv(p) && Sweeping(p, t, todo, kept, seen)
    requires forall n :: n in todo ==> (n.addr in seen <==> n.addr in hazards)
    requires Completes(p, t, sched)
    ensures Ended(p, t, sched, Reversed(Kept(todo, hazards)) + kept, Dropped(todo, hazards))
    decreases |sched|
  {
    var a, rest := sched[0], sched[1..];
    HP.NextInv(p, a);
    if a != HP.DoScan(t) {
      OthersKeepScan(p, t, a);
      SweepMatches(HP.Next(p, a), t, todo, kept, seen, hazards, rest);
    } else if todo == [] {
      assert Scanning(HP.Next(p, a), t, rest) && HP.Next(p, a).scans[t].NoScan?;
      assert rest == [];
      assert Reversed(Kept(todo, hazards)) + kept == kept;
    } else {
      SweepOne(p, t, todo, kept, seen);
      SweepMatches(HP.Next(p, a), t, todo[1..], if todo[0].addr in seen then [todo[0]] + kept else kept,
                   seen, hazards, rest);
      KeptJoins(todo, kept, hazards);
      DroppedJoins(todo, hazards);
    }
  }

  /** Thread `t` is collecting: it has read `rows` and the first slots, `row`,
      of record `i`. */
  ghost predicate Collecting(
      p: HP.State, t: Tid, nodes: seq<Node>, rows: seq<seq<nat>>, row: seq<nat>, records: nat)
  {
    && HP.Joined(p, t) && p.scans[t].Collect? && p.retired[t] == Addresses(nodes)
    && -1 <= p.scans[t].i < |p.slots| && |rows| + p.scans[t].i + 1 == records
    && |row| == p.scans[t].k <= p.width && (p.scans[t].i == -1 ==> row == [])
    && AllRows(rows, p.width)
    && forall x :: x in p.scans[t].seen <==> x in Collected(rows + [row])
  }

  lemma CollectedOneMore(rows: seq<seq<nat>>, row: seq<nat>, h: nat, x: nat)
    ensures x in Collected(rows + [row + [h]]) <==> x in Collected(rows + [row]) || (x == h && h != 0)
  {
    assert (rows + [row])[..|rows|] == rows && (rows + [row + [h]])[..|rows|] == rows;
    assert (row + [h])[..|row|] == row;
  }

  lemma CollectedEmptyRow(rows: seq<seq<nat>>)
    ensures Collected(rows + [[]]) == Collected(rows)
  {
    assert (rows + [[]])[..|rows|] == rows;
  }

  lemma CollectSlot(p: HP.State, t: Tid, nodes: seq<Node>, rows: seq<seq<nat>>, row: seq<nat>, records: nat)
    requires HP.Shape(p) && Collecting(p, t, nodes, rows, row, records) && ReadsSlot(p, t)
    ensures var h := p.slots[p.scans[t].i][p.scans[t].k];
      Collecting(HP.ScanStep(p, t), t, nodes, rows, row + [h], records)
  {
    var h := p.slots[p.scans[t].i][p.scans[t].k];
    forall x: nat ensures x in HP.ScanStep(p, t).scans[t].seen <==> x in Collected(rows + [row + [h]]) {
      CollectedOneMore(rows, row, h, x);
    }
  }

  lemma CollectRowEnd(p: HP.State, t: Tid, nodes: seq<Node>, rows: seq<seq<nat>>, row: seq<nat>, records: nat)
    requires HP.Shape(p) && Collecting(p, t, nodes, rows, row, records) && EndsRow(p, t)
    ensures Collecting(HP.ScanStep(p, t), t, nodes, rows + [row], [], records)
  {
    CollectedEmptyRow(rows + [row]);
  }

  /** Whatever happens meanwhile, a scan ends as HazardScan's does on the values
      it read. */
  lemma {:induction false} CollectMatches(
      p: HP.State, t: Tid, nodes: seq<Node>, rows: seq<seq<nat>>, row: seq<nat>, records: nat, sched: seq<HP.Action>)
    requires HP.Inv(p) && Collecting(p, t, nodes, rows, row, records)
    requires Completes(p, t, sched)
    ensures var slots := RowsRead(p, t, sched, rows, row);
      && |slots| == records && AllRows(slots, p.width)
      && Ended(p, t, sched, Reversed(Kept(nodes, Collected(slots))), Dropped(nodes, Collected(slots)))
    decreases |sched|
  {
    var a, rest := sched[0], sched[1..];
    var p' := HP.Next(p, a);
    HP.NextInv(p, a);
    if a != HP.DoScan(t) {
      OthersKeepScan(p, t, a);
      OthersKeepWidth(p, a);
      CollectMatches(p', t, nodes, rows, row, records, rest);
    } else if ReadsSlot(p, t) {
      CollectSlot(p, t, nodes, rows, row, records);
      CollectMatches(p', t, nodes, rows, row + [p.slots[p.scans[t].i][p.scans[t].k]], records, rest);
    } else if EndsRow(p, t) {
      CollectRowEnd(p, t, nodes, rows, row, records);
      CollectMatches(p', t, nodes, rows + [row], [], records, rest);
    } else {
      CollectedEmptyRow(rows);
      SweepMatches(p', t, nodes, [], p.scans[t].seen, Collected(rows), rest);
      RowsAreRead(p', t, rest, rows, row);
      var kept := Reversed(Kept(nodes, Collected(rows)));
      assert kept + [] == kept;
    }
  }

  lemma OthersKeepWidth(p: HP.State, a: HP.Action)
    ensures HP.Next(p, a).width == p.width
  {
  }

  /** Once sweeping, a scan reads no more slots. */
  lemma {:induction false} RowsAreRead(p: HP.State, t: Tid, sched: seq<HP.Action>, rows: seq<seq<nat>>, row: seq<nat>)
    requires HP.Shape(p) && HP.Joined(p, t) && p.scans[t].Sweep? && HP.Inv(p) && Scanning(p, t, sched)
    ensures RowsRead(p, t, sched, rows, row) == rows
    decreases |sched|
  {
    if sched == [] {
    } else {
      HP.NextInv(p, sched[0]);
      if sched[0] != HP.DoScan(t) { OthersKeepScan(p, t, sched[0]); }
      if sched[1..] != [] {
        RowsAreRead(HP.Next(p, sched[0]), t, sched[1..], rows, row);
      }
    }
  }

  // ------------------------------------------------------------- main results

  /** HazardScan.Record.Scan refines the scan of the protocol: take any run from
      the start of `t`'s scan to its end, with others using, confirming,
      retiring, scanning, joining and reusing in between. With the values the
      scan read, each at its own moment and one row of K for every record that
      was there at the start, the retired list and the nodes handed to
      gc_function are those that HazardScan's scan computes. */
  lemma ScanMatches(p: HP.State, t: Tid, nodes: seq<Node>, sched: seq<HP.Action>)
    requires HP.Inv(p) && HP.Joined(p, t) && p.scans[t].NoScan? && p.retired[t] == Addresses(nodes)
    requires Completes(HP.StartScan(p, t), t, sched)
    ensures var p0 := HP.StartScan(p, t);
      var slots := RowsRead(p0, t, sched, [], []);
      && |slots| == |p.slots| && AllRows(slots, p.width)
      && Ended(p0, t, sched, Reversed(Kept(nodes, Collected(slots))), Dropped(nodes, Collected(slots)))
  {
    HP.StartScanInv(p, t);
    CollectedEmptyRow([]);
    CollectMatches(HP.StartScan(p, t), t, nodes, [], [], |p.slots|, sched);
  }

  // A scan that nobody interferes with.

  function Alone(t: Tid, n: nat): seq<HP.Action> {
    if n == 0 then [] else [HP.DoScan(t)] + Alone(t, n - 1)
  }

  lemma AloneStep(p: HP.State, t: Tid, n: nat)
    requires n > 0
    ensures Alone(t, n)[0] == HP.DoScan(t) && Alone(t, n)[1..] == Alone(t, n - 1)
    ensures HP.Run(p, Alone(t, n)) == HP.Run(HP.ScanStep(p, t), Alone(t, n - 1))
  {
  }

  lemma {:induction false} AloneSweeps(p: HP.State, t: Tid)
    requires HP.Joined(p, t) && p.scans[t].Sweep?
    ensures Completes(p, t, Alone(t, |p.scans[t].todo| + 1))
    decreases |p.scans[t].todo|
  {
    var n := |p.scans[t].todo|;
    AloneStep(p, t, n + 1);
    if n == 0 {
      assert Alone(t, 0) == [];
    } else {
      AloneSweeps(HP.ScanStep(p, t), t);
    }
  }

  /** The part of record `i` that a walk at slot `k` of it has behind it. */
  ghost predicate ReadSoFar(p: HP.State, t: Tid, row: seq<nat>)
    requires HP.Joined(p, t) && p.scans[t].Collect?
  {
    var i, k := p.scans[t].i, p.scans[t].k;
    if 0 <= i < |p.slots| then k <= |p.slots[i]| && row == p.slots[i][..k] else row == []
  }

  /** One step of a walk that is not over: to the next slot or to the next row. */
  lemma WalkOne(p: HP.State, t: Tid, row: seq<nat>)
    requires HP.Shape(p) && HP.Joined(p, t) && p.scans[t].Collect? && 0 <= p.scans[t].i < |p.slots|
    requires ReadSoFar(p, t, row)
    ensures var i, k, p' := p.scans[t].i, p.scans[t].k, HP.ScanStep(p, t);
      && HP.Shape(p') && HP.Joined(p', t) && p'.slots == p.slots && p'.width == p.width && p'.scans[t].Collect?
      && |row| == k <= p.width == |p.slots[i]|
      && (if ReadsSlot(p, t) then p'.scans[t].i == i && k < p.width && ReadSoFar(p', t, row + [p.slots[i][k]])
          else p'.scans[t].i == i - 1 && row == p.slots[i] && EndsRow(p, t) && ReadSoFar(p', t, []))
  {
    var i, k := p.scans[t].i, p.scans[t].k;
    if k < |p.slots[i]| {
      assert p.slots[i][..k] + [p.slots[i][k]] == p.slots[i][..k + 1];
    } else if i > 0 {
      assert p.slots[i - 1][..0] == [];
    }
  }

  lemma {:induction false} AloneCollects(p: HP.State, t: Tid, rows: seq<seq<nat>>, row: seq<nat>) returns (n: nat)
    requires HP.Shape(p) && HP.Joined(p, t) && p.scans[t].Collect? && -1 <= p.scans[t].i < |p.slots|
    requires ReadSoFar(p, t, row)
    ensures Completes(p, t, Alone(t, n))
    ensures RowsRead(p, t, Alone(t, n), rows, row) == rows + Reversed(p.slots[..p.scans[t].i + 1])
    decreases p.scans[t].i + 1, p.width - |row|
  {
    if p.scans[t].i < 0 {
      n := AloneEndsWalk(p, t, rows);
      assert rows + [] == rows;
    } else if ReadsSlot(p, t) {
      WalkOne(p, t, row);
      var m := AloneCollects(HP.ScanStep(p, t), t, rows, row + [p.slots[p.scans[t].i][p.scans[t].k]]);
      n := m + 1;
      AloneReads(p, t, n, rows, row);
    } else {
      WalkOne(p, t, row);
      var m := AloneCollects(HP.ScanStep(p, t), t, rows + [row], []);
      n := m + 1;
      AloneEndsRow(p, t, n, rows, row);
      RowsReversed(p.slots, p.scans[t].i, rows);
    }
  }

  lemma AloneReads(p: HP.State, t: Tid, n: nat, rows: seq<seq<nat>>, row: seq<nat>)
    requires n > 0 && ReadsSlot(p, t) && Completes(HP.ScanStep(p, t), t, Alone(t, n - 1))
    ensures Completes(p, t, Alone(t, n))
    ensures RowsRead(p, t, Alone(t, n), rows, row) ==
            RowsRead(HP.ScanStep(p, t), t, Alone(t, n - 1), rows, row + [p.slots[p.scans[t].i][p.scans[t].k]])
  {
    AloneStep(p, t, n);
  }

  lemma AloneEndsRow(p: HP.State, t: Tid, n: nat, rows: seq<seq<nat>>, row: seq<nat>)
    requires n > 0 && EndsRow(p, t) && Completes(HP.ScanStep(p, t), t, Alone(t, n - 1))
    ensures Completes(p, t, Alone(t, n))
    ensures RowsRead(p, t, Alone(t, n), rows, row) ==
            RowsRead(HP.ScanStep(p, t), t, Alone(t, n - 1), rows + [row], [])
  {
    AloneStep(p, t, n);
  }

  lemma AloneEndsWalk(p: HP.State, t: Tid, rows: seq<seq<nat>>) returns (n: nat)
    requires HP.Joined(p, t) && p.scans[t].Collect? && p.scans[t].i == -1
    ensures Completes(p, t, Alone(t, n)) && RowsRead(p, t, Alone(t, n), rows, []) == rows
  {
    var p' := HP.ScanStep(p, t);
    AloneSweeps(p', t);
    n := |p'.scans[t].todo| + 2;
    AloneStep(p, t, n);
    AloneReadsNoMore(p', t, n - 1, rows);
  }

  lemma {:induction false} AloneReadsNoMore(p: HP.State, t: Tid, n: nat, rows: seq<seq<nat>>)
    requires HP.Joined(p, t) && !p.scans[t].Collect?
    ensures RowsRead(p, t, Alone(t, n), rows, []) == rows
    decreases n
  {
    if n == 0 {
    } else {
      AloneStep(p, t, n);
      AloneReadsNoMore(HP.ScanStep(p, t), t, n - 1, rows);
    }
  }

  lemma RowsReversed(slots: seq<seq<nat>>, i: nat, rows: seq<seq<nat>>)
    requires i < |slots|
    ensures (rows + [slots[i]]) + Reversed(slots[..i]) == rows + Reversed(slots[..i + 1])
  {
    assert slots[..i + 1][..i] == slots[..i];
  }

  /** Left alone, a scan ends, having read the slots as they are, the newest
      record first. */
  lemma ScanAloneMatches(p: HP.State, t: Tid, nodes: seq<Node>) returns (n: nat)
    requires HP.Inv(p) && HP.Joined(p, t) && p.scans[t].NoScan? && p.retired[t] == Addresses(nodes)
    ensures var p0, hazards := HP.StartScan(p, t), Collected(Reversed(p.slots));
      Ended(p0, t, Alone(t, n), Reversed(Kept(nodes, hazards)), Dropped(nodes, hazards))
  {
    var p0 := HP.StartScan(p, t);
    HP.StartScanInv(p, t);
    n := AloneCollects(p0, t, [], []);
    assert p0.slots[..|p0.slots|] == p0.slots && p0.slots[|p0.slots| - 1][..0] == [];
    assert [] + Reversed(p.slots) == Reversed(p.slots);
    ScanMatches(p, t, nodes, Alone(t, n));
  }
}
