/** What maintenance promises per UID rather than per entry. The read handler grants a
    resource to one UID any number of times, so this depends on how many entries the
    server keeps for it, exactly. */
module UidSpacing {
  import opened Quorum
  import opened UidServer
  import opened Maintenance
  import opened SweepHistory

  predicate SingleIn(lri: seq<Entry>, uid: string) {
    forall i, j :: 0 <= i < j < |lri| ==> !(lri[i].uid == uid == lri[j].uid)
  }

  /** The server keeps at most one entry of this resource and UID. */
  predicate Single(m: LockMap, name: string, uid: string) {
    name in m ==> SingleIn(m[name], uid)
  }

  // ---------------------------------------------------------------- sufficient

  /** If the first of two sweeps meets a single entry of this resource and UID, they are
      spaced, whatever happens in between: released and taken again, or taken twice. */
  lemma SweepsAreSpaced(ops: seq<Op>, j: nat, k: nat, name: string, i: nat, i': nat)
    requires Ticking(ops) && j < k && Reported(ops, j, name, i) && Reported(ops, k, name, i')
    requires MapAfter(ops[..j])[name][i].uid == MapAfter(ops[..k])[name][i'].uid
    requires Single(MapAfter(ops[..j]), name, MapAfter(ops[..j])[name][i].uid)
    ensures Spaced(ops, j, k, name, i, i') && ops[k].to - ops[j].from >= ops[k].interval
  {
    TickingBefore(ops, k);
    PrefixesNest(ops, j, k);
    var w := Follow(ops[..k], name, i', j);
    if w < 0 {
      YoungerIsLater(ops[..k], name, i', j);
    } else {
      FollowKeeps(ops[..k], name, i', j);
      assert w == i;
      EntryReportsAreSpaced(ops, j, k, name, i, i');
    }
  }

  // ---------------------------------------------------------------- and necessary

  /** The entries of a resource are read in their order. */
  predicate InOrder(op: Op)
    requires op.Sweep?
  {
    forall r, a, b :: r in op.rs && 0 <= a < b < |op.rs[r]| ==> op.rs[r][a].now <= op.rs[r][b].since
  }

  /** Sweeps j and k of this history, with the same interval, report the UID. */
  predicate TwoReports(ops: seq<Op>, j: nat, k: nat, name: string, uid: string, i: nat, i': nat) {
    && Feasible(ops) && Ticking(ops) && j < k
    && Reported(ops, j, name, i) && Reported(ops, k, name, i')
    && MapAfter(ops[..j])[name][i].uid == uid == MapAfter(ops[..k])[name][i'].uid
    && InOrder(ops[j]) && InOrder(ops[k]) && ops[j].interval == ops[k].interval > 0
  }

  /** However the history goes on, a sweep that comes next and any later one with the
      same interval are spaced if both report the UID. */
  ghost predicate AlwaysSpaced(ops: seq<Op>, name: string, uid: string) {
    forall h, k, i, i' :: TwoReports(h, |ops|, k, name, uid, i, i') && h[..|ops|] == ops ==>
      Spaced(h, |ops|, k, name, i, i')
  }

  lemma {:induction false} Horizon(ops: seq<Op>) returns (now: int)
    ensures Until(ops, now)
  {
    if ops == [] {
      now := 0;
    } else {
      var last := ops[|ops| - 1];
      now := Horizon(ops[..|ops| - 1]);
      if Timed(last) && Ends(last) > now {
        now := Ends(last);
      }
    }
  }

  lemma CheckedBefore(ops: seq<Op>, name: string, i: nat, now: int)
    requires Feasible(ops) && Keeps(MapAfter(ops), name, i) && Until(ops, now)
    ensures MapAfter(ops)[name][i].timeLastCheck <= now
  {
    LastCheckIsAMark(ops, name, i);
    MarksArePast(ops, name, i, MapAfter(ops)[name][i].timeLastCheck, now);
  }

  /** Readings of a sweep at `now`, and one later from position a of the resource on. */
  function ReadingsFrom(m: LockMap, name: string, a: nat, now: int): map<string, seq<Reading>> {
    map r | r in m :: seq(|m[r]|, k => if r == name && k < a then Reading(now, now) else Reading(now + 1, now + 1))
  }

  /** A sweep that reports entry a but not entry b, checked no earlier. */
  lemma ReportOnlyOne(m: LockMap, name: string, a: nat, b: nat, now: int)
    requires Keeps(m, name, a) && Keeps(m, name, b) && a != b
    requires var c, d := m[name][a].timeLastCheck, m[name][b].timeLastCheck;
      c <= d <= now && (c == d ==> b < a)
    ensures var one := Sweep(now + 1 - m[name][a].timeLastCheck, now, now + 1, ReadingsFrom(m, name, a, now));
      && Fits(m, one) && InOrder(one) && ReportsAt(m, one, name, a)
      && one.rs[name][a].now == now + 1
      && Keeps(Step(m, one), name, b) && Step(m, one)[name][b] == m[name][b]
      && (forall r :: r in Step(m, one) <==> r in m)
      && (forall r :: r in m ==> |Step(m, one)[r]| == |m[r]|)
  {
  }

  function ReadingsAt(m: LockMap, now: int): map<string, seq<Reading>> {
    map r | r in m :: seq(|m[r]|, k => Reading(now, now))
  }

  lemma ReportAt(m: LockMap, name: string, b: nat, now: int, interval: int)
    requires Keeps(m, name, b) && now - m[name][b].timeLastCheck >= interval
    ensures var two := Sweep(interval, now, now, ReadingsAt(m, now));
      Fits(m, two) && InOrder(two) && ReportsAt(m, two, name, b) && two.rs[name][b].since == now
  {
  }

  lemma TickingMore(ops: seq<Op>, op: Op)
    requires Ticking(ops) && op.Sweep? && Until(ops, op.from)
    ensures Ticking(ops + [op])
  {
  }

  /** Two more operations at the end of a history. */
  lemma TwoMore(ops: seq<Op>, one: Op, two: Op)
    requires Feasible(ops) && Ticking(ops) && one.Sweep? && two.Sweep? && Until(ops, one.from)
    requires Fits(MapAfter(ops), one) && Fits(Step(MapAfter(ops), one), two) && one.to <= two.from
    ensures var h, j := ops + [one] + [two], |ops|;
      && Feasible(h) && Ticking(h)
      && h[..j] == ops && h[j] == one && h[j + 1] == two
      && Feasible(h[..j + 1]) && MapAfter(h[..j + 1]) == Step(MapAfter(ops), one)
  {
    OneMore(ops, one);
    OneMore(ops + [one], two);
    TickingMore(ops, one);
    TickingMore(ops + [one], two);
    assert (ops + [one] + [two])[..|ops| + 1] == ops + [one];
  }

  lemma TooSoonAfter(ops: seq<Op>, one: Op, two: Op, name: string, uid: string, a: nat, b: nat)
    requires Feasible(ops) && Ticking(ops) && one.Sweep? && two.Sweep? && Until(ops, one.from)
    requires Fits(MapAfter(ops), one) && Fits(Step(MapAfter(ops), one), two) && one.to <= two.from
    requires ReportsAt(MapAfter(ops), one, name, a) && MapAfter(ops)[name][a].uid == uid
    requires ReportsAt(Step(MapAfter(ops), one), two, name, b) && Step(MapAfter(ops), one)[name][b].uid == uid
    requires InOrder(one) && InOrder(two) && one.interval == two.interval > 0
    requires two.rs[name][b].since - one.rs[name][a].now < two.interval
    ensures !AlwaysSpaced(ops, name, uid)
  {
    TwoMore(ops, one, two);
    var h := ops + [one] + [two];
    assert TwoReports(h, |ops|, |ops| + 1, name, uid, a, b);
    assert !Spaced(h, |ops|, |ops| + 1, name, a, b);
  }

  /** With two entries under the UID, two sweeps come that are not spaced. */
  lemma TwoEntriesTooSoon(ops: seq<Op>, name: string, uid: string, a: nat, b: nat)
    requires Feasible(ops) && Ticking(ops) && Keeps(MapAfter(ops), name, a) && Keeps(MapAfter(ops), name, b) && a != b
    requires MapAfter(ops)[name][a].uid == uid == MapAfter(ops)[name][b].uid
    requires var c, d := MapAfter(ops)[name][a].timeLastCheck, MapAfter(ops)[name][b].timeLastCheck;
      c <= d && (c == d ==> b < a)
    ensures !AlwaysSpaced(ops, name, uid)
  {
    var m: LockMap := MapAfter(ops);
    var now := Horizon(ops);
    CheckedBefore(ops, name, b, now);
    var interval := now + 1 - m[name][a].timeLastCheck;
    var later := now + 1 + m[name][b].timeLastCheck - m[name][a].timeLastCheck;
    var one := Sweep(interval, now, now + 1, ReadingsFrom(m, name, a, now));
    ReportOnlyOne(m, name, a, b, now);
    var m1 := Step(m, one);
    var two := Sweep(interval, later, later, ReadingsAt(m1, later));
    ReportAt(m1, name, b, later, interval);
    TooSoonAfter(ops, one, two, name, uid, a, b);
  }

  /** The exact condition: after any history, sweeps that report a resource and UID will
      be spaced if and only if the server keeps at most one entry of them. */
  lemma SpacedExactlyIfSingle(ops: seq<Op>, name: string, uid: string)
    requires Feasible(ops) && Ticking(ops)
    ensures AlwaysSpaced(ops, name, uid) <==> Single(MapAfter(ops), name, uid)
  {
    var m := MapAfter(ops);
    if Single(m, name, uid) {
      forall h, k, i, i' | TwoReports(h, |ops|, k, name, uid, i, i') && h[..|ops|] == ops
        ensures Spaced(h, |ops|, k, name, i, i')
      {
        SweepsAreSpaced(h, |ops|, k, name, i, i');
      }
    } else {
      var i, j :| 0 <= i < j < |m[name]| && m[name][i].uid == uid == m[name][j].uid;
      if m[name][i].timeLastCheck < m[name][j].timeLastCheck {
        TwoEntriesTooSoon(ops, name, uid, i, j);
      } else {
        TwoEntriesTooSoon(ops, name, uid, j, i);
      }
    }
  }

  // ---------------------------------------------------------------- one entry each

  /** Whoever is granted the resource has no entry for it yet. */
  predicate Fresh(m: LockMap, op: Op) {
    op.Take? && op.name in m && Acquire(m, op.mode, op.name, op.uid, op.now).1 ==> !HasUid(m[op.name], op.uid)
  }

  predicate OneEach(ops: seq<Op>)
    requires Feasible(ops)
  {
    ops == [] || (OneEach(ops[..|ops| - 1]) && Fresh(MapAfter(ops[..|ops| - 1]), ops[|ops| - 1]))
  }

  lemma OneEachMore(ops: seq<Op>, op: Op)
    requires Feasible(ops) && Fits(MapAfter(ops), op)
    ensures Feasible(ops + [op]) && (OneEach(ops + [op]) <==> OneEach(ops) && Fresh(MapAfter(ops), op))
  {
    OneMore(ops, op);
    assert (ops + [op])[..|ops|] == ops;
  }

  /** Entries that are both old were apart before. */
  lemma SingleKept(m: LockMap, op: Op, name: string, uid: string)
    requires Fits(m, op) && Fresh(m, op) && Single(m, name, uid)
    ensures Single(Step(m, op), name, uid)
  {
    if op.Drop? || op.Remove? {
      if name in Step(m, op) {
        SpliceKeepsSingle(m, op, name, uid);
      }
    }
  }

  lemma SpliceKeepsSingle(m: LockMap, op: Op, name: string, uid: string)
    requires (op.Drop? || op.Remove?) && name in Step(m, op) && Single(m, name, uid)
    ensures Single(Step(m, op), name, uid)
  {
    var after := Step(m, op)[name];
    forall i: nat, j: nat | i < j < |after| ensures !(after[i].uid == uid == after[j].uid) {
      SplicedFrom(m, op, name, i);
      SplicedFrom(m, op, name, j);
      assert Was(m, op, name, i) < Was(m, op, name, j);
    }
  }

  /** A server that grants each UID a resource once at a time keeps it so. */
  lemma {:induction false} OneEachIsSingle(ops: seq<Op>, name: string, uid: string)
    requires Feasible(ops) && OneEach(ops)
    ensures Single(MapAfter(ops), name, uid)
  {
    if ops != [] {
      OneEachIsSingle(ops[..|ops| - 1], name, uid);
      SingleKept(MapAfter(ops[..|ops| - 1]), ops[|ops| - 1], name, uid);
    }
  }

  // ---------------------------------------------------------------- all grants and reports of a UID

  /** At time t the resource was granted under this UID, or an entry of it was reported. */
  ghost predicate UidMarkedBy(m: LockMap, op: Op, name: string, uid: string, t: int)
    requires Fits(m, op)
  {
    match op
    case Take(mode, nm, u, now) => nm == name && u == uid && t == now && Acquire(m, mode, nm, u, now).1
    case Sweep(_, _, _, rs) =>
      exists i: nat :: ReportsAt(m, op, name, i) && m[name][i].uid == uid && t == rs[name][i].now
    case _ => false
  }

  ghost predicate UidMarked(ops: seq<Op>, name: string, uid: string, t: int)
    requires Feasible(ops)
  {
    ops != [] &&
    (UidMarkedBy(MapAfter(ops[..|ops| - 1]), ops[|ops| - 1], name, uid, t)
     || UidMarked(ops[..|ops| - 1], name, uid, t))
  }

  ghost function UidMarks(ops: seq<Op>, name: string, uid: string): iset<int>
    requires Feasible(ops)
  {
    iset t | UidMarked(ops, name, uid, t)
  }

  /** Since its grant the entry has been the only one of its resource and UID. */
  predicate AloneSince(ops: seq<Op>, name: string, i: nat)
    requires Feasible(ops) && Keeps(MapAfter(ops), name, i)
    decreases |ops|
  {
    && Single(MapAfter(ops), name, MapAfter(ops)[name][i].uid)
    && (ops != [] ==>
          var w := Was(MapAfter(ops[..|ops| - 1]), ops[|ops| - 1], name, i);
          w >= 0 ==> AloneSince(ops[..|ops| - 1], name, w))
  }

  lemma {:induction false} OneEachIsAlone(ops: seq<Op>, name: string, i: nat)
    requires Feasible(ops) && OneEach(ops) && Keeps(MapAfter(ops), name, i)
    ensures AloneSince(ops, name, i)
    decreases |ops|
  {
    OneEachIsSingle(ops, name, MapAfter(ops)[name][i].uid);
    if ops != [] {
      var w := Was(MapAfter(ops[..|ops| - 1]), ops[|ops| - 1], name, i);
      if w >= 0 {
        OneEachIsAlone(ops[..|ops| - 1], name, w);
      }
    }
  }

  lemma {:induction false} UidMarksArePast(ops: seq<Op>, name: string, uid: string, t: int, now: int)
    requires Feasible(ops) && UidMarked(ops, name, uid, t) && Until(ops, now)
    ensures t <= now
  {
    var k := |ops| - 1;
    if UidMarkedBy(MapAfter(ops[..k]), ops[k], name, uid, t) {
      assert Timed(ops[k]) && Ends(ops[k]) <= now;
    } else {
      UidMarksArePast(ops[..k], name, uid, t, now);
    }
  }

  lemma {:induction false} MarkIsUidMark(ops: seq<Op>, name: string, i: nat, t: int)
    requires Feasible(ops) && Keeps(MapAfter(ops), name, i) && Marked(ops, name, i, t)
    ensures UidMarked(ops, name, MapAfter(ops)[name][i].uid, t)
    decreases |ops|
  {
    var prev, op := ops[..|ops| - 1], ops[|ops| - 1];
    var w := Was(MapAfter(prev), op, name, i);
    EntryStep(MapAfter(prev), op, name, i);
    if w >= 0 && Marked(prev, name, w, t) {
      MarkIsUidMark(prev, name, w, t);
    }
  }

  /** A mark that an operation sets on a single entry is that entry's. */
  lemma NewMarkIsOwn(m: LockMap, op: Op, name: string, i: nat, t: int)
    requires Fits(m, op) && Keeps(Step(m, op), name, i)
    requires var uid := Step(m, op)[name][i].uid;
      Single(m, name, uid) && Single(Step(m, op), name, uid) && UidMarkedBy(m, op, name, uid, t)
    ensures Step(m, op)[name][i].timeLastCheck == t
  {
    EntryStep(m, op, name, i);
    var uid := Step(m, op)[name][i].uid;
    if op.Sweep? {
      var j: nat :| ReportsAt(m, op, name, j) && m[name][j].uid == uid && t == op.rs[name][j].now;
      assert i == j;
    } else {
      var last := |Step(m, op)[name]| - 1;
      assert Step(m, op)[name][last].uid == uid;
      assert i == last;
    }
  }

  lemma {:induction false} LatestOfUid(ops: seq<Op>, name: string, i: nat, t: int)
    requires Feasible(ops) && Ticking(ops) && Keeps(MapAfter(ops), name, i) && AloneSince(ops, name, i)
    requires UidMarked(ops, name, MapAfter(ops)[name][i].uid, t)
    ensures t <= MapAfter(ops)[name][i].timeLastCheck
    decreases |ops|
  {
    var prev, op := ops[..|ops| - 1], ops[|ops| - 1];
    var m := MapAfter(prev);
    var w, uid := Was(m, op, name, i), MapAfter(ops)[name][i].uid;
    EntryStep(m, op, name, i);
    TickingBefore(ops, |ops| - 1);
    if UidMarked(prev, name, uid, t) {
      if w < 0 || ReportsAt(m, op, name, w) {
        UidMarksArePast(prev, name, uid, t, Begins(op));
      } else {
        LatestOfUid(prev, name, w, t);
      }
    } else if w >= 0 {
      NewMarkIsOwn(m, op, name, i, t);
    }
  }

  lemma LatestIfAlone(ops: seq<Op>, name: string, i: nat)
    requires Feasible(ops) && Ticking(ops) && Keeps(MapAfter(ops), name, i) && AloneSince(ops, name, i)
    ensures IsLatest(UidMarks(ops, name, MapAfter(ops)[name][i].uid), MapAfter(ops)[name][i].timeLastCheck)
  {
    LastCheckIsUidMark(ops, name, i);
    forall t | t in UidMarks(ops, name, MapAfter(ops)[name][i].uid) ensures t <= MapAfter(ops)[name][i].timeLastCheck {
      LatestOfUid(ops, name, i, t);
    }
  }

  lemma LastCheckIsUidMark(ops: seq<Op>, name: string, i: nat)
    requires Feasible(ops) && Keeps(MapAfter(ops), name, i)
    ensures MapAfter(ops)[name][i].timeLastCheck in UidMarks(ops, name, MapAfter(ops)[name][i].uid)
  {
    LastCheckIsAMark(ops, name, i);
    MarkIsUidMark(ops, name, i, MapAfter(ops)[name][i].timeLastCheck);
  }

  /** Whatever sweep comes next, it reports the entry if and only if all these times are
      at least the interval old. */
  ghost predicate DueByMarks(m: LockMap, name: string, i: nat, marks: iset<int>)
    requires Keeps(m, name, i)
  {
    forall op: Op :: op.Sweep? && Fits(m, op) ==>
      (ReportsAt(m, op, name, i) <==> forall t :: t in marks ==> op.rs[name][i].since - t >= op.interval)
  }

  lemma DueExactlyIfLatest(m: LockMap, name: string, i: nat, marks: iset<int>)
    requires Keeps(m, name, i) && m[name][i].timeLastCheck in marks
    ensures DueByMarks(m, name, i, marks) <==> IsLatest(marks, m[name][i].timeLastCheck)
  {
    var last := m[name][i].timeLastCheck;
    if IsLatest(marks, last) {
      forall op: Op | op.Sweep? && Fits(m, op)
        ensures ReportsAt(m, op, name, i) <==> forall t :: t in marks ==> op.rs[name][i].since - t >= op.interval
      {
        OldEnough(marks, last, op.rs[name][i].since, op.interval);
      }
    } else {
      var t :| t in marks && t > last;
      ReportAt(m, name, i, t, t - last);
    }
  }

  /** Reports go by the UID, that is, by every grant and every report of the resource and
      UID in the whole history of the server, exactly for an entry whose last check is
      the latest of these. An entry that has been alone since its grant is such a one. */
  lemma UidReportedExactlyWhenDue(ops: seq<Op>, name: string, i: nat)
    requires Feasible(ops) && Ticking(ops) && Keeps(MapAfter(ops), name, i)
    ensures var e := MapAfter(ops)[name][i];
      && (DueByMarks(MapAfter(ops), name, i, UidMarks(ops, name, e.uid)) <==>
            forall t :: t in UidMarks(ops, name, e.uid) ==> t <= e.timeLastCheck)
      && (AloneSince(ops, name, i) ==> DueByMarks(MapAfter(ops), name, i, UidMarks(ops, name, e.uid)))
  {
    var e := MapAfter(ops)[name][i];
    LastCheckIsUidMark(ops, name, i);
    DueExactlyIfLatest(MapAfter(ops), name, i, UidMarks(ops, name, e.uid));
    if AloneSince(ops, name, i) {
      LatestIfAlone(ops, name, i);
    }
  }

  // ---------------------------------------------------------------- a UID used twice

  const FIRST := Take(Read, "r", "u", 0)
  const SECOND := Take(Read, "r", "u", 5)

  function SweepAt(now: int): Op {
    Sweep(10, now, now, map["r" := [Reading(now, now), Reading(now, now)]])
  }

  lemma TwoReaders()
    ensures Feasible([FIRST] + [SECOND]) && !OneEach([FIRST] + [SECOND])
    ensures MapAfter([FIRST] + [SECOND]) == map["r" := [Entry(false, "u", 0, 0), Entry(false, "u", 5, 5)]]
  {
    OneMore([], FIRST);
    assert [] + [FIRST] == [FIRST];
    assert Feasible([FIRST]) && MapAfter([FIRST]) == map["r" := [Entry(false, "u", 0, 0)]];
    assert HasUid(MapAfter([FIRST])["r"], "u") by {
      assert MapAfter([FIRST])["r"][0].uid == "u";
    }
    OneMore([FIRST], SECOND);
    OneEachMore([FIRST], SECOND);
    assert Step(MapAfter([FIRST]), SECOND)["r"] == [Entry(false, "u", 0, 0), Entry(false, "u", 5, 5)];
  }

  /** An instance: with two read entries under one UID, two sweeps five apart both report
      that UID although the interval is ten. */
  lemma SharedUidIsReportedTwice()
    ensures var ops := [FIRST] + [SECOND] + [SweepAt(10)] + [SweepAt(15)];
      && Feasible(ops) && Ticking(ops) && !OneEach(ops)
      && Reported(ops, 2, "r", 0) && Reported(ops, 3, "r", 1)
      && MapAfter(ops[..2])["r"][0].uid == MapAfter(ops[..3])["r"][1].uid
      && ops[3].to - ops[2].from < ops[3].interval
  {
    var two := [FIRST] + [SECOND];
    var three := two + [SweepAt(10)];
    var ops := three + [SweepAt(15)];
    TwoReaders();
    OneMore(two, SweepAt(10));
    OneEachMore(two, SweepAt(10));
    assert MapAfter(three)["r"] == [Entry(false, "u", 0, 10), Entry(false, "u", 5, 5)];
    OneMore(three, SweepAt(15));
    OneEachMore(three, SweepAt(15));
    assert ops[..2] == two && ops[..3] == three;
  }
}
