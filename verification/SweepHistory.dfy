/** Lock maintenance over the whole life of a lock server: any history of requests,
    releases, sweeps and removals on one lock map, with one clock. */
module SweepHistory {
  import opened Quorum
  import opened UidServer
  import opened Maintenance

  /** A sweep carries the readings it takes for each entry, all between `from` and `to`. */
  datatype Op =
    | Take(mode: Mode, name: string, uid: string, now: int)
    | Drop(mode: Mode, name: string, uid: string)
    | Sweep(interval: int, from: int, to: int, rs: map<string, seq<Reading>>)
    | Remove(name: string, uid: string)

  predicate Fits(m: LockMap, op: Op) {
    op.Sweep? ==>
      && ReadingsFor(m, op.rs)
      && op.from <= op.to
      && forall r, i :: r in m && 0 <= i < |m[r]| ==> op.from <= op.rs[r][i].since <= op.rs[r][i].now <= op.to
  }

  function Step(m: LockMap, op: Op): LockMap
    requires Fits(m, op)
  {
    match op
    case Take(mode, name, uid, now) => Acquire(m, mode, name, uid, now).0
    case Drop(mode, name, uid) => Release(m, mode, name, uid).0
    case Sweep(interval, _, _, rs) => Swept(m, interval, rs)
    case Remove(name, uid) => RemoveEntryIfExists(m, name, uid)
  }

  predicate Feasible(ops: seq<Op>)
    decreases |ops|, 0
  {
    ops == [] || (Feasible(ops[..|ops| - 1]) && Fits(MapAfter(ops[..|ops| - 1]), ops[|ops| - 1]))
  }

  /** The lock map of a server, which starts empty. */
  function MapAfter(ops: seq<Op>): LockMap
    requires Feasible(ops)
    decreases |ops|, 1
  {
    if ops == [] then map[] else Step(MapAfter(ops[..|ops| - 1]), ops[|ops| - 1])
  }

  lemma OneMore(ops: seq<Op>, op: Op)
    requires Feasible(ops) && Fits(MapAfter(ops), op)
    ensures Feasible(ops + [op]) && MapAfter(ops + [op]) == Step(MapAfter(ops), op)
  {
    assert (ops + [op])[..|ops|] == ops;
  }

  // ---------------------------------------------------------------- the clock

  predicate Timed(op: Op) {
    op.Take? || op.Sweep?
  }

  function Begins(op: Op): int
    requires Timed(op)
  {
    if op.Take? then op.now else op.from
  }

  function Ends(op: Op): int
    requires Timed(op)
  {
    if op.Take? then op.now else op.to
  }

  /** The clock never runs backwards. */
  predicate Ticking(ops: seq<Op>) {
    forall j, k :: 0 <= j < k < |ops| && Timed(ops[j]) && Timed(ops[k]) ==> Ends(ops[j]) <= Begins(ops[k])
  }

  predicate Until(ops: seq<Op>, now: int) {
    forall k :: 0 <= k < |ops| && Timed(ops[k]) ==> Ends(ops[k]) <= now
  }

  // ---------------------------------------------------------------- reports

  /** This sweep reports the i-th entry of the resource. */
  predicate ReportsAt(m: LockMap, op: Op, name: string, i: nat)
    requires Fits(m, op)
  {
    op.Sweep? && name in m && i < |m[name]| && Overdue(m[name][i], op.interval, op.rs[name][i])
  }

  /** It is what the sweep hands back, whatever the order in which it walks the map. */
  lemma ReportIsHandedBack(m: LockMap, op: Op, order: seq<string>, name: string, uid: string)
    requires Fits(m, op) && op.Sweep? && forall r :: r in order <==> r in m
    ensures (exists p :: p in ReportAll(m, order, op.interval, op.rs) && p.name == name && p.lri.uid == uid)
       <==> (exists i: nat :: ReportsAt(m, op, name, i) && m[name][i].uid == uid)
  {
    if i: nat :| ReportsAt(m, op, name, i) && m[name][i].uid == uid {
      SweepReportsOverdue(m, order, op.interval, op.rs, Pair(name, m[name][i]));
      assert Pair(name, m[name][i]) in ReportAll(m, order, op.interval, op.rs);
    }
    if p :| p in ReportAll(m, order, op.interval, op.rs) && p.name == name && p.lri.uid == uid {
      SweepReportsOverdue(m, order, op.interval, op.rs, p);
      var i :| 0 <= i < |m[name]| && m[name][i] == p.lri && Overdue(p.lri, op.interval, op.rs[name][i]);
      assert ReportsAt(m, op, name, i);
    }
  }

  /** Operation k is a sweep and reports the i-th entry of the resource. */
  predicate Reported(ops: seq<Op>, k: nat, name: string, i: nat) {
    && k < |ops| && Feasible(ops[..k]) && Fits(MapAfter(ops[..k]), ops[k])
    && ReportsAt(MapAfter(ops[..k]), ops[k], name, i)
  }

  // ---------------------------------------------------------------- the life of an entry

  predicate Keeps(m: LockMap, name: string, i: nat) {
    name in m && i < |m[name]|
  }

  /** The position of the first entry with this UID, or the length if there is none. */
  function FirstWith(lri: seq<Entry>, uid: string): (k: nat)
    ensures k <= |lri| && (k < |lri| ==> lri[k].uid == uid)
    ensures forall i :: 0 <= i < k ==> lri[i].uid != uid
  {
    if lri == [] || lri[0].uid == uid then 0 else 1 + FirstWith(lri[1..], uid)
  }

  /** Before the removal of the first entry with this UID the entry was here. */
  function Unspliced(before: seq<Entry>, after: seq<Entry>, uid: string, i: nat): nat {
    if |after| < |before| && FirstWith(before, uid) <= i then i + 1 else i
  }

  /** Where the entry that is now at i was before the operation; -1 if it is new. */
  function Was(m: LockMap, op: Op, name: string, i: nat): (w: int)
    requires Fits(m, op) && Keeps(Step(m, op), name, i)
    ensures w < 0 ==> op.Take?
    ensures w >= 0 ==> Keeps(m, name, w)
  {
    match op
    case Take(_, _, _, _) => if Keeps(m, name, i) then i else -1
    case Sweep(_, _, _, _) => i
    case Drop(_, _, uid) => Unspliced(m[name], Step(m, op)[name], uid, i)
    case Remove(_, uid) => Unspliced(m[name], Step(m, op)[name], uid, i)
  }

  lemma SplicedFrom(m: LockMap, op: Op, name: string, i: nat)
    requires (op.Drop? || op.Remove?) && Keeps(Step(m, op), name, i)
    ensures Step(m, op)[name][i] == m[name][Was(m, op, name, i)]
  {
    var k := FirstWith(m[name], op.uid);
    if k < |m[name]| {
      RemoveFirstAt(m[name], op.uid, k);
    }
  }

  /** An entry is new with the time of its grant, or it was there and only a sweep that
      reports it has changed it. */
  lemma EntryStep(m: LockMap, op: Op, name: string, i: nat)
    requires Fits(m, op) && Keeps(Step(m, op), name, i)
    ensures var w, e := Was(m, op, name, i), Step(m, op)[name][i];
      if w < 0 then op.name == name && e.uid == op.uid && e.timeLastCheck == op.now
      else if ReportsAt(m, op, name, w) then w == i && e == m[name][w].(timeLastCheck := op.rs[name][w].now)
      else e == m[name][w]
  {
    if op.Drop? || op.Remove? {
      SplicedFrom(m, op, name, i);
    }
  }

  /** Where the entry that is at i after the history was after its first j operations;
      -1 if it was not there yet. */
  function Follow(ops: seq<Op>, name: string, i: nat, j: nat): (w: int)
    requires Feasible(ops) && Keeps(MapAfter(ops), name, i) && j <= |ops|
    decreases |ops|
  {
    if j == |ops| then i
    else
      var w := Was(MapAfter(ops[..|ops| - 1]), ops[|ops| - 1], name, i);
      if w < 0 then -1 else Follow(ops[..|ops| - 1], name, w, j)
  }

  /** The marks of an entry: when it was granted, and when it was reported since. */
  predicate Marked(ops: seq<Op>, name: string, i: nat, t: int)
    requires Feasible(ops) && Keeps(MapAfter(ops), name, i)
    decreases |ops|
  {
    ops != [] &&
    var prev, op := ops[..|ops| - 1], ops[|ops| - 1];
    var w := Was(MapAfter(prev), op, name, i);
    if w < 0 then t == op.now
    else (ReportsAt(MapAfter(prev), op, name, w) && t == op.rs[name][w].now) || Marked(prev, name, w, t)
  }

  ghost function Marks(ops: seq<Op>, name: string, i: nat): iset<int>
    requires Feasible(ops) && Keeps(MapAfter(ops), name, i)
  {
    iset t | Marked(ops, name, i, t)
  }

  // ---------------------------------------------------------------- the time of the last check

  lemma {:induction false} MarksArePast(ops: seq<Op>, name: string, i: nat, t: int, now: int)
    requires Feasible(ops) && Keeps(MapAfter(ops), name, i) && Marked(ops, name, i, t) && Until(ops, now)
    ensures t <= now
    decreases |ops|
  {
    var k := |ops| - 1;
    var w := Was(MapAfter(ops[..k]), ops[k], name, i);
    if Timed(ops[k]) {
      assert Ends(ops[k]) <= now;
    }
    if w >= 0 && Marked(ops[..k], name, w, t) {
      MarksArePast(ops[..k], name, w, t, now);
    }
  }

  /** The time of the last check is a mark of the entry, through any appends, splices of
      its neighbours and sweeps. */
  lemma {:induction false} LastCheckIsAMark(ops: seq<Op>, name: string, i: nat)
    requires Feasible(ops) && Keeps(MapAfter(ops), name, i)
    ensures Marked(ops, name, i, MapAfter(ops)[name][i].timeLastCheck)
    decreases |ops|
  {
    var prev, op := ops[..|ops| - 1], ops[|ops| - 1];
    var w := Was(MapAfter(prev), op, name, i);
    EntryStep(MapAfter(prev), op, name, i);
    if w >= 0 {
      LastCheckIsAMark(prev, name, w);
    }
  }

  lemma TickingBefore(ops: seq<Op>, k: nat)
    requires Ticking(ops) && k < |ops|
    ensures Ticking(ops[..k]) && (Timed(ops[k]) ==> Until(ops[..k], Begins(ops[k])))
  {
  }

  lemma {:induction false} LastCheckIsLatest(ops: seq<Op>, name: string, i: nat, t: int)
    requires Feasible(ops) && Ticking(ops) && Keeps(MapAfter(ops), name, i) && Marked(ops, name, i, t)
    ensures t <= MapAfter(ops)[name][i].timeLastCheck
    decreases |ops|
  {
    var prev, op := ops[..|ops| - 1], ops[|ops| - 1];
    var w := Was(MapAfter(prev), op, name, i);
    EntryStep(MapAfter(prev), op, name, i);
    TickingBefore(ops, |ops| - 1);
    if w >= 0 && Marked(prev, name, w, t) {
      if ReportsAt(MapAfter(prev), op, name, w) {
        MarksArePast(prev, name, w, t, Begins(op));
      } else {
        LastCheckIsLatest(prev, name, w, t);
      }
    }
  }

  ghost predicate IsLatest(marks: iset<int>, last: int) {
    last in marks && forall t :: t in marks ==> t <= last
  }

  /** The stored time is the latest mark of the entry, in every history. */
  lemma LastCheckIsTheLatestMark(ops: seq<Op>, name: string, i: nat)
    requires Feasible(ops) && Ticking(ops) && Keeps(MapAfter(ops), name, i)
    ensures IsLatest(Marks(ops, name, i), MapAfter(ops)[name][i].timeLastCheck)
  {
    LastCheckIsAMark(ops, name, i);
    forall t | t in Marks(ops, name, i) ensures t <= MapAfter(ops)[name][i].timeLastCheck {
      LastCheckIsLatest(ops, name, i, t);
    }
  }

  /** All marks are old enough exactly if the latest one is. */
  lemma OldEnough(marks: iset<int>, last: int, now: int, interval: int)
    requires IsLatest(marks, last)
    ensures now - last >= interval <==> forall t :: t in marks ==> now - t >= interval
  {
  }

  // ---------------------------------------------------------------- the guarantees per entry

  /** A sweep reports exactly what is due: an entry it meets is reported if and only if
      its grant and each of its earlier reports are at least `interval` old. */
  lemma ReportedExactlyWhenDue(ops: seq<Op>, op: Op, name: string, i: nat)
    requires Feasible(ops) && Ticking(ops) && Fits(MapAfter(ops), op) && op.Sweep? && Keeps(MapAfter(ops), name, i)
    ensures ReportsAt(MapAfter(ops), op, name, i) <==>
      forall t :: t in Marks(ops, name, i) ==> op.rs[name][i].since - t >= op.interval
  {
    LastCheckIsTheLatestMark(ops, name, i);
    OldEnough(Marks(ops, name, i), MapAfter(ops)[name][i].timeLastCheck, op.rs[name][i].since, op.interval);
  }

  /** What an entry was at an earlier moment: the same UID; and its report then is one
      of its marks now. */
  lemma {:induction false} FollowKeeps(ops: seq<Op>, name: string, i: nat, j: nat)
    requires Feasible(ops) && Keeps(MapAfter(ops), name, i) && j <= |ops| && Follow(ops, name, i, j) >= 0
    ensures var w := Follow(ops, name, i, j);
      && Feasible(ops[..j]) && Keeps(MapAfter(ops[..j]), name, w)
      && MapAfter(ops[..j])[name][w].uid == MapAfter(ops)[name][i].uid
      && (Reported(ops, j, name, w) ==> Marked(ops, name, i, ops[j].rs[name][w].now))
    decreases |ops|
  {
    if j == |ops| {
      assert ops[..j] == ops;
    } else {
      var prev, op := ops[..|ops| - 1], ops[|ops| - 1];
      EntryStep(MapAfter(prev), op, name, i);
      FollowKeeps(prev, name, Was(MapAfter(prev), op, name, i), j);
      assert prev[..j] == ops[..j];
    }
  }

  /** An entry granted after a sweep was checked after it. */
  lemma {:induction false} YoungerIsLater(ops: seq<Op>, name: string, i: nat, j: nat)
    requires Feasible(ops) && Ticking(ops) && Keeps(MapAfter(ops), name, i)
    requires j < |ops| && ops[j].Sweep? && Follow(ops, name, i, j) < 0
    ensures MapAfter(ops)[name][i].timeLastCheck >= ops[j].to
    decreases |ops|
  {
    var k := |ops| - 1;
    var prev, op := ops[..k], ops[k];
    var w := Was(MapAfter(prev), op, name, i);
    EntryStep(MapAfter(prev), op, name, i);
    TickingBefore(ops, k);
    if j < k {
      assert Timed(op) ==> Ends(ops[j]) <= Begins(op);
      if w >= 0 {
        YoungerIsLater(prev, name, w, j);
      }
    }
  }

  predicate Spaced(ops: seq<Op>, j: nat, k: nat, name: string, i: nat, i': nat)
    requires Reported(ops, j, name, i) && Reported(ops, k, name, i')
  {
    ops[k].rs[name][i'].since - ops[j].rs[name][i].now >= ops[k].interval
  }

  lemma PrefixesNest(ops: seq<Op>, j: nat, k: nat)
    requires j < k <= |ops|
    ensures ops[..k][..j] == ops[..j] && ops[..k][j] == ops[j]
  {
  }

  /** Any two reports of one entry, in any history, are at least the interval apart. */
  lemma EntryReportsAreSpaced(ops: seq<Op>, j: nat, k: nat, name: string, i: nat, i': nat)
    requires Ticking(ops) && j < k && Reported(ops, j, name, i) && Reported(ops, k, name, i')
    requires Follow(ops[..k], name, i', j) == i
    ensures Spaced(ops, j, k, name, i, i')
  {
    TickingBefore(ops, k);
    PrefixesNest(ops, j, k);
    FollowKeeps(ops[..k], name, i', j);
    LastCheckIsLatest(ops[..k], name, i', ops[j].rs[name][i].now);
  }
}
