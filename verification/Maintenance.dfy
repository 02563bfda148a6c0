/** Lock maintenance (chaos/lock-rpc-server.go:140-178): the sweep that reports
    entries not checked for some time, and the later removal of reported entries
    whose owner turns out to hold nothing. */
module Maintenance {
  import opened Quorum
  import opened UidServer
  import opened Collector
  import opened Protocol
  import opened Backing

  /** The two clock readings of one check: for `time.Since`, then for `time.Now`. */
  datatype Reading = Reading(since: int, now: int)

  datatype Pair = Pair(name: string, lri: Entry)

  predicate Overdue(e: Entry, interval: int, r: Reading) {
    r.since - e.timeLastCheck >= interval
  }

  function Checked(e: Entry, interval: int, r: Reading): Entry {
    if Overdue(e, interval, r) then e.(timeLastCheck := r.now) else e
  }

  function CheckedList(lri: seq<Entry>, interval: int, rs: seq<Reading>): (res: seq<Entry>)
    requires |rs| == |lri|
    ensures |res| == |lri|
  {
    seq(|lri|, i requires 0 <= i < |lri| => Checked(lri[i], interval, rs[i]))
  }

  /** What is reported for one resource: its overdue entries, in order. */
  function ReportOf(name: string, lri: seq<Entry>, interval: int, rs: seq<Reading>): seq<Pair>
    requires |rs| == |lri|
  {
    if lri == [] then []
    else
      var k := |lri| - 1;
      ReportOf(name, lri[..k], interval, rs[..k])
      + (if Overdue(lri[k], interval, rs[k]) then [Pair(name, lri[k])] else [])
  }

  predicate ReadingsFor(m: LockMap, rs: map<string, seq<Reading>>) {
    forall r :: r in m ==> r in rs && |rs[r]| == |m[r]|
  }

  function Swept(m: LockMap, interval: int, rs: map<string, seq<Reading>>): LockMap
    requires ReadingsFor(m, rs)
  {
    map r | r in m :: CheckedList(m[r], interval, rs[r])
  }

  /** The whole report, for the order in which the map is walked. */
  function ReportAll(m: LockMap, order: seq<string>, interval: int, rs: map<string, seq<Reading>>): seq<Pair>
    requires ReadingsFor(m, rs) && forall k :: 0 <= k < |order| ==> order[k] in m
  {
    if order == [] then []
    else
      var k := |order| - 1;
      ReportAll(m, order[..k], interval, rs) + ReportOf(order[k], m[order[k]], interval, rs[order[k]])
  }

  /** One resource: the inner loop, which updates the slice in place. */
  method SweepResource(name: string, lriArray: array<Entry>, interval: int, rs: seq<Reading>) returns (rslt: seq<Pair>)
    requires |rs| == lriArray.Length
    modifies lriArray
    ensures lriArray[..] == CheckedList(old(lriArray[..]), interval, rs)
    ensures rslt == ReportOf(name, old(lriArray[..]), interval, rs)
  {
    rslt := [];
    ghost var before := lriArray[..];
    for idx := 0 to lriArray.Length
      invariant rslt == ReportOf(name, before[..idx], interval, rs[..idx])
      invariant forall i :: 0 <= i < idx ==> lriArray[i] == Checked(before[i], interval, rs[i])
      invariant forall i :: idx <= i < lriArray.Length ==> lriArray[i] == before[i]
    {
      assert before[..idx + 1][..idx] == before[..idx] && rs[..idx + 1][..idx] == rs[..idx];
      if rs[idx].since - lriArray[idx].timeLastCheck >= interval {
        rslt := rslt + [Pair(name, lriArray[idx])];
        lriArray[idx] := lriArray[idx].(timeLastCheck := rs[idx].now);
      }
    }
    assert before[..lriArray.Length] == before && rs[..lriArray.Length] == rs;
  }

  method SweepEntries(name: string, lri: seq<Entry>, interval: int, rs: seq<Reading>)
    returns (lri': seq<Entry>, rslt: seq<Pair>)
    requires |rs| == |lri|
    ensures lri' == CheckedList(lri, interval, rs)
    ensures rslt == ReportOf(name, lri, interval, rs)
  {
    var lriArray := new Entry[|lri|](i requires 0 <= i < |lri| => lri[i]);
    assert lriArray[..] == lri;
    rslt := SweepResource(name, lriArray, interval, rs);
    lri' := lriArray[..];
  }

  predicate NoRepeats(order: seq<string>) {
    forall j, k :: 0 <= j < k < |order| ==> order[j] != order[k]
  }

  lemma OnceMore(order: seq<string>, name: string)
    requires NoRepeats(order) && name !in order
    ensures NoRepeats(order + [name])
  {
  }

  /** getLongLivedLocks: walks the map in some order. */
  method GetLongLivedLocks(m: LockMap, interval: int, rs: map<string, seq<Reading>>)
    returns (rslt: seq<Pair>, m': LockMap, order: seq<string>)
    requires ReadingsFor(m, rs)
    ensures m' == Swept(m, interval, rs)
    ensures (forall r :: r in order <==> r in m) && |order| == |m|
    ensures NoRepeats(order)
    ensures rslt == ReportAll(m, order, interval, rs)
    ensures forall p :: multiset(rslt)[p] == TimesOverdue(m, interval, rs, p)
  {
    rslt, m', order := [], m, [];
    var todo := m.Keys;
    while todo != {}
      invariant todo <= m.Keys == m'.Keys
      invariant forall r :: r in order <==> r in m && r !in todo
      invariant |order| + |todo| == |m.Keys|
      invariant NoRepeats(order)
      invariant forall r :: r in m && r !in todo ==> m'[r] == CheckedList(m[r], interval, rs[r])
      invariant rslt == ReportAll(m, order, interval, rs)
      decreases |todo|
    {
      var name :| name in todo;
      var lri, reported := SweepEntries(name, m[name], interval, rs[name]);
      ReportOneMore(m, order, name, interval, rs);
      OnceMore(order, name);
      rslt := rslt + reported;
      m' := m'[name := lri];
      todo := todo - {name};
      order := order + [name];
    }
    assert m' == Swept(m, interval, rs);
    ReportedOnceEach(m, order, interval, rs);
  }

  lemma ReportOneMore(m: LockMap, order: seq<string>, name: string, interval: int, rs: map<string, seq<Reading>>)
    requires ReadingsFor(m, rs) && name in m && forall r :: r in order ==> r in m
    ensures forall r :: r in order + [name] ==> r in m
    ensures ReportAll(m, order + [name], interval, rs)
         == ReportAll(m, order, interval, rs) + ReportOf(name, m[name], interval, rs[name])
  {
    assert (order + [name])[..|order|] == order;
  }

  // ---------------------------------------------------------------- what a sweep reports

  lemma {:induction false} ReportIsOverdue(name: string, lri: seq<Entry>, interval: int, rs: seq<Reading>, p: Pair)
    requires |rs| == |lri|
    ensures p in ReportOf(name, lri, interval, rs) <==>
      p.name == name && exists i :: 0 <= i < |lri| && lri[i] == p.lri && Overdue(lri[i], interval, rs[i])
  {
    if lri != [] {
      var k := |lri| - 1;
      ReportIsOverdue(name, lri[..k], interval, rs[..k], p);
      assert forall i :: 0 <= i < k ==> lri[..k][i] == lri[i] && rs[..k][i] == rs[i];
    }
  }

  /** A sweep reports exactly the overdue entries, whatever the walk. */
  lemma {:induction false} SweepReportsOverdue(m: LockMap, order: seq<string>, interval: int,
                                               rs: map<string, seq<Reading>>, p: Pair)
    requires ReadingsFor(m, rs) && forall k :: 0 <= k < |order| ==> order[k] in m
    ensures p in ReportAll(m, order, interval, rs) <==>
      && p.name in order
      && exists i :: 0 <= i < |m[p.name]| && m[p.name][i] == p.lri && Overdue(p.lri, interval, rs[p.name][i])
  {
    if order != [] {
      var k := |order| - 1;
      SweepReportsOverdue(m, order[..k], interval, rs, p);
      ReportIsOverdue(order[k], m[order[k]], interval, rs[order[k]], p);
      assert order == order[..k] + [order[k]];
    }
  }

  /** The positions at which this entry stands overdue. */
  function OverduePositions(lri: seq<Entry>, interval: int, rs: seq<Reading>, e: Entry): set<nat>
    requires |rs| == |lri|
  {
    set i: nat | i < |lri| && lri[i] == e && Overdue(lri[i], interval, rs[i])
  }

  function TimesOverdue(m: LockMap, interval: int, rs: map<string, seq<Reading>>, p: Pair): nat
    requires ReadingsFor(m, rs)
  {
    if p.name in m then |OverduePositions(m[p.name], interval, rs[p.name], p.lri)| else 0
  }

  /** The overdue positions of a resource, in order. */
  function OverdueList(lri: seq<Entry>, interval: int, rs: seq<Reading>): (ps: seq<nat>)
    requires |rs| == |lri|
    ensures forall k :: 0 <= k < |ps| ==> ps[k] < |lri|
  {
    if lri == [] then []
    else
      var k := |lri| - 1;
      OverdueList(lri[..k], interval, rs[..k]) + (if Overdue(lri[k], interval, rs[k]) then [k] else [])
  }

  predicate Ascending(ps: seq<nat>) {
    forall j, k :: 0 <= j < k < |ps| ==> ps[j] < ps[k]
  }

  lemma AscendsBy(ps: seq<nat>, k: nat, more: seq<nat>)
    requires Ascending(ps) && (forall j :: 0 <= j < |ps| ==> ps[j] < k) && more in [[], [k]]
    ensures Ascending(ps + more)
  {
  }

  lemma {:induction false} OverdueListAscends(lri: seq<Entry>, interval: int, rs: seq<Reading>)
    requires |rs| == |lri|
    ensures Ascending(OverdueList(lri, interval, rs))
  {
    if lri != [] {
      var k := |lri| - 1;
      var before := OverdueList(lri[..k], interval, rs[..k]);
      OverdueListAscends(lri[..k], interval, rs[..k]);
      AscendsBy(before, k, if Overdue(lri[k], interval, rs[k]) then [k] else []);
    }
  }

  lemma {:induction false} OverdueListIsComplete(lri: seq<Entry>, interval: int, rs: seq<Reading>, i: nat)
    requires |rs| == |lri|
    ensures i in OverdueList(lri, interval, rs) <==> i < |lri| && Overdue(lri[i], interval, rs[i])
  {
    if lri != [] {
      OverdueListIsComplete(lri[..|lri| - 1], interval, rs[..|lri| - 1], i);
    }
  }

  /** The reports of a resource are its list at the overdue positions, in order. */
  lemma {:induction false} ReportInOrder(name: string, lri: seq<Entry>, interval: int, rs: seq<Reading>)
    requires |rs| == |lri|
    ensures var ps, report := OverdueList(lri, interval, rs), ReportOf(name, lri, interval, rs);
      |report| == |ps| && forall k :: 0 <= k < |ps| ==> report[k] == Pair(name, lri[ps[k]])
  {
    if lri != [] {
      ReportInOrder(name, lri[..|lri| - 1], interval, rs[..|lri| - 1]);
    }
  }

  lemma OverdueSnoc(lri: seq<Entry>, interval: int, rs: seq<Reading>, e: Entry)
    requires |rs| == |lri| > 0
    ensures var k := |lri| - 1;
      |OverduePositions(lri, interval, rs, e)|
      == |OverduePositions(lri[..k], interval, rs[..k], e)|
         + (if lri[k] == e && Overdue(e, interval, rs[k]) then 1 else 0)
  {
    var k := |lri| - 1;
    var before := OverduePositions(lri[..k], interval, rs[..k], e);
    assert OverduePositions(lri, interval, rs, e)
        == if lri[k] == e && Overdue(e, interval, rs[k]) then before + {k} else before;
  }

  lemma {:induction false} ReportsOnce(name: string, lri: seq<Entry>, interval: int, rs: seq<Reading>, p: Pair)
    requires |rs| == |lri|
    ensures multiset(ReportOf(name, lri, interval, rs))[p]
         == if p.name == name then |OverduePositions(lri, interval, rs, p.lri)| else 0
  {
    if lri == [] {
      assert OverduePositions(lri, interval, rs, p.lri) == {};
    } else {
      ReportsOnce(name, lri[..|lri| - 1], interval, rs[..|lri| - 1], p);
      OverdueSnoc(lri, interval, rs, p.lri);
    }
  }

  /** A sweep reports an entry once for each overdue position, whatever the walk. */
  lemma {:induction false} SweepReportsOnce(m: LockMap, order: seq<string>, interval: int,
                                            rs: map<string, seq<Reading>>, p: Pair)
    requires ReadingsFor(m, rs) && forall k :: 0 <= k < |order| ==> order[k] in m
    requires NoRepeats(order)
    ensures multiset(ReportAll(m, order, interval, rs))[p]
         == if p.name in order then |OverduePositions(m[p.name], interval, rs[p.name], p.lri)| else 0
  {
    if order != [] {
      var k := |order| - 1;
      SweepReportsOnce(m, order[..k], interval, rs, p);
      ReportsOnce(order[k], m[order[k]], interval, rs[order[k]], p);
      assert order == order[..k] + [order[k]];
    }
  }

  lemma ReportedOnceEach(m: LockMap, order: seq<string>, interval: int, rs: map<string, seq<Reading>>)
    requires ReadingsFor(m, rs) && forall r :: r in order <==> r in m
    requires NoRepeats(order)
    ensures forall p :: multiset(ReportAll(m, order, interval, rs))[p] == TimesOverdue(m, interval, rs, p)
  {
    forall p ensures multiset(ReportAll(m, order, interval, rs))[p] == TimesOverdue(m, interval, rs, p) {
      SweepReportsOnce(m, order, interval, rs, p);
    }
  }

  /** A sweep touches nothing but the times of the last check. */
  lemma SweepKeepsEntries(m: LockMap, interval: int, rs: map<string, seq<Reading>>,
                          name: string, mode: Mode, uid: string)
    requires ReadingsFor(m, rs)
    ensures EntryCount(Swept(m, interval, rs), name, mode, uid) == EntryCount(m, name, mode, uid)
    ensures WellFormed(m) ==> WellFormed(Swept(m, interval, rs))
  {
    if name in m {
      CheckedListCounts(m[name], interval, rs[name], mode, uid);
    }
  }

  lemma {:induction false} CheckedListCounts(lri: seq<Entry>, interval: int, rs: seq<Reading>, mode: Mode, uid: string)
    requires |rs| == |lri|
    ensures CountIn(CheckedList(lri, interval, rs), mode, uid) == CountIn(lri, mode, uid)
  {
    if lri != [] {
      CheckedListCounts(lri[1..], interval, rs[1..], mode, uid);
      assert CheckedList(lri, interval, rs)[1..] == CheckedList(lri[1..], interval, rs[1..]);
    }
  }

  // ---------------------------------------------------------------- removal

  /** The owner of this UID holds nothing at node x and has no request to it out. */
  ghost predicate Settled(s: Sys, x: nat, name: string, uid: string) {
    && (forall mode :: Tracked(s, Token(x, name, mode, uid)) ==> Held(s, Token(x, name, mode, uid)) == 0)
    && (forall i :: 0 <= i < |s.attempts| && s.attempts[i].uid == uid && s.attempts[i].cfg.name == name
          ==> x !in s.attempts[i].pending)
  }

  function Removed(s: Sys, x: nat, name: string, uid: string): Sys
    requires x < |s.servers|
  {
    s.(servers := s.servers[x := RemoveEntryIfExists(s.servers[x], name, uid)])
  }

  /** At most one entry is gone, of this node, resource and UID. */
  predicate OneGone(s: Sys, s': Sys, x: nat, name: string, uid: string, t: Token) {
    var gone := if t == Token(x, name, t.mode, uid) && Entries(s, t) > 0 then 1 else 0;
    Entries(s', t) == Entries(s, t) - gone
  }

  /** Removing an entry whose owner holds nothing keeps every grant backed; one entry of
      the resource and UID goes from the node, if there is one, and no other. */
  lemma RemovalKeepsInv(s: Sys, x: nat, name: string, uid: string)
    requires Inv(s) && x < s.n && Settled(s, x, name, uid)
    ensures Inv(Removed(s, x, name, uid))
    ensures forall t :: OneGone(s, Removed(s, x, name, uid), x, name, uid, t)
  {
    forall t ensures OneGone(s, Removed(s, x, name, uid), x, name, uid, t) {
      RemoveEntryCounts(s.servers[x], name, uid, t.name, t.mode, t.uid);
      EntriesAfter(s, x, RemoveEntryIfExists(s.servers[x], name, uid), t);
    }
    var s' := Removed(s, x, name, uid);
    RemoveEntryWellFormed(s.servers[x], name, uid);
    ShapeOfServers(s, x, RemoveEntryIfExists(s.servers[x], name, uid));
    forall t | Tracked(s', t) ensures Entries(s', t) >= Held(s', t) {
      assert Tracked(s, t) && Held(s', t) == Held(s, t);
      RemoveEntryCounts(s.servers[x], name, uid, t.name, t.mode, t.uid);
      EntriesAfter(s, x, RemoveEntryIfExists(s.servers[x], name, uid), t);
      if t.node == x && t.name == name && t.uid == uid {
        assert t == Token(x, name, t.mode, uid);
      }
    }
  }

  /** A sweep of one node keeps every grant backed. */
  lemma SweepKeepsInv(s: Sys, x: nat, interval: int, rs: map<string, seq<Reading>>)
    requires Inv(s) && x < s.n && ReadingsFor(s.servers[x], rs)
    ensures Inv(s.(servers := s.servers[x := Swept(s.servers[x], interval, rs)]))
  {
    var m := Swept(s.servers[x], interval, rs);
    var s' := s.(servers := s.servers[x := m]);
    SweepKeepsEntries(s.servers[x], interval, rs, "", Read, "");
    ShapeOfServers(s, x, m);
    forall t | Tracked(s', t) ensures Entries(s', t) >= Held(s', t) {
      assert Tracked(s, t) && Held(s', t) == Held(s, t);
      SweepKeepsEntries(s.servers[x], interval, rs, t.name, t.mode, t.uid);
      EntriesAfter(s, x, m, t);
    }
  }

  lemma NewAttemptsBegin(s: Sys, act: Action, i: nat)
    requires Enabled(s, act) && |s.attempts| <= i < |Apply(s, act).attempts|
    ensures act.Begin? && Apply(s, act).attempts[i].uid == act.uid
  {
  }

  lemma NoNewEntry(s: Sys, act: Action, x: nat, name: string, mode: Mode, uid: string)
    requires Inv(s) && Enabled(s, act) && !act.ServeStray? && Settled(s, x, name, uid)
    ensures Entries(Apply(s, act), Token(x, name, mode, uid)) <= Entries(s, Token(x, name, mode, uid))
  {
    if act.Serve? {
      EntriesOfServe(s, act.attempt, act.node, act.now, Token(x, name, mode, uid));
    } else if act.ServeRelease? {
      EntriesOfRelease(s, act.token, Token(x, name, mode, uid));
    } else if act.Crash? {
      EntriesAfter(s, act.node, map[], Token(x, name, mode, uid));
    } else {
      ServersStay(s, act);
    }
  }

  /** Whatever happens meanwhile, releases included, an owner that holds nothing goes
      on holding nothing, as long as its UID is not used for another attempt. */
  lemma SettledKept(s: Sys, act: Action, x: nat, name: string, uid: string)
    requires Inv(s) && Enabled(s, act) && Settled(s, x, name, uid) && !(act.Begin? && act.uid == uid)
    ensures Settled(Apply(s, act), x, name, uid)
  {
    forall i | 0 <= i < |Apply(s, act).attempts| && Apply(s, act).attempts[i].uid == uid
               && Apply(s, act).attempts[i].cfg.name == name
      ensures x !in Apply(s, act).attempts[i].pending
    {
      if i < |s.attempts| {
        AttemptStepsOn(s, act, i);
      } else {
        NewAttemptsBegin(s, act, i);
      }
    }
    forall mode | Tracked(Apply(s, act), Token(x, name, mode, uid))
      ensures Held(Apply(s, act), Token(x, name, mode, uid)) == 0
    {
      SlackNeverShrinks(s, act, Token(x, name, mode, uid));
      if !act.ServeStray? {
        NoNewEntry(s, act, x, name, mode, uid);
      }
    }
  }

  predicate UidRetired(acts: seq<Action>, uid: string) {
    forall k :: 0 <= k < |acts| && acts[k].Begin? ==> acts[k].uid != uid
  }

  /** Maintenance is safe: what was found without an owner may be removed at any
      later time, after any run of the system in which that UID is not used anew. */
  lemma {:induction false} LateRemovalKeepsInv(s: Sys, acts: seq<Action>, x: nat, name: string, uid: string)
    requires Inv(s) && CanRun(s, acts) && x < s.n && Settled(s, x, name, uid) && UidRetired(acts, uid)
    ensures x < |After(s, acts).servers| && Inv(Removed(After(s, acts), x, name, uid))
    decreases |acts|
  {
    if acts == [] {
      RemovalKeepsInv(s, x, name, uid);
    } else {
      InvKept(s, acts[0]);
      SettledKept(s, acts[0], x, name, uid);
      RunOne(s, acts[0]);
      RunKeepsInv(s, [acts[0]]);
      LateRemovalKeepsInv(Apply(s, acts[0]), acts[1..], x, name, uid);
    }
  }
}
