/** The lock maps of the running system as server histories, with one clock, and what
    follows for the reports of its sweeps. */
module NodeHistory {
  import opened Counting
  import opened Quorum
  import opened UidServer
  import opened Collector
  import opened Protocol
  import opened Backing
  import opened Maintenance
  import opened Housekeeping
  import opened UidSpacing
  import H = SweepHistory

  // ---------------------------------------------------------------- the history of a node

  /** What an action asks of node x. */
  function AskedOf(s: Sys, act: Action, x: nat): seq<H.Op>
    requires Enabled(s, act)
  {
    match act
    case Serve(i, y, now) =>
      var a := s.attempts[i];
      if y == x then [H.Take(a.cfg.mode, a.cfg.name, a.uid, now)] else []
    case ServeStray(t, now) => if t.node == x then [H.Take(t.mode, t.name, t.uid, now)] else []
    case ServeRelease(t) => if t.node == x then [H.Drop(t.mode, t.name, t.uid)] else []
    case _ => []
  }

  ghost function DoneAt(k: Keeper, ch: Chore, x: nat): seq<H.Op>
    requires CanDo(k, ch)
  {
    match ch
    case Act(act) => AskedOf(k.sys, act, x)
    case SweepNode(y, op) => if y == x then [op] else []
    case Confirm(_) => []
    case RemoveStale(c) => if c.node == x then [H.Remove(c.name, c.uid)] else []
  }

  ghost function History(n: nat, chores: seq<Chore>, x: nat): seq<H.Op>
    requires CanKeep(n, chores)
  {
    if chores == [] then []
    else
      var prev := chores[..|chores| - 1];
      History(n, prev, x) + DoneAt(Kept(n, prev), chores[|chores| - 1], x)
  }

  predicate NeverCrashes(chores: seq<Chore>, x: nat) {
    forall k :: 0 <= k < |chores| ==> chores[k] != Act(Protocol.Action.Crash(x))
  }

  /** The lock map of a node moves on by what it is asked. */
  ghost predicate MovesBy(m: LockMap, ops: seq<H.Op>, m': LockMap) {
    if ops == [] then m' == m
    else |ops| == 1 && H.Fits(m, ops[0]) && m' == H.Step(m, ops[0])
  }

  lemma NodeAnswers(s: Sys, act: Action, x: nat)
    requires Enabled(s, act) && x < |s.servers| && act != Protocol.Action.Crash(x)
    ensures |Apply(s, act).servers| == |s.servers|
    ensures MovesBy(s.servers[x], AskedOf(s, act, x), Apply(s, act).servers[x])
  {
    if act.Serve? {
      NodeServes(s, act.attempt, act.node, act.now, x);
    } else if act.ServeStray? {
      NodeServesStray(s, act.token, act.now, x);
    } else if act.ServeRelease? {
      NodeReleases(s, act.token, x);
    } else if !act.Crash? {
      ServersStay(s, act);
    }
  }

  lemma NodeServes(s: Sys, i: nat, y: nat, now: int, x: nat)
    requires CanAnswer(s, i, y) && x < |s.servers|
    ensures var a := s.attempts[i];
      MovesBy(s.servers[x], if y == x then [H.Take(a.cfg.mode, a.cfg.name, a.uid, now)] else [],
              ServeRequest(s, i, y, now).servers[x])
  {
  }

  lemma NodeServesStray(s: Sys, t: Token, now: int, x: nat)
    requires t.node < |s.servers| && x < |s.servers|
    ensures MovesBy(s.servers[x], if t.node == x then [H.Take(t.mode, t.name, t.uid, now)] else [],
                    DeliverStray(s, t, now).servers[x])
  {
  }

  lemma NodeReleases(s: Sys, t: Token, x: nat)
    requires t.node < |s.servers| && x < |s.servers|
    ensures MovesBy(s.servers[x], if t.node == x then [H.Drop(t.mode, t.name, t.uid)] else [],
                    DeliverRelease(s, t).servers[x])
  {
  }

  lemma NodeSteps(k: Keeper, ch: Chore, x: nat)
    requires CanDo(k, ch) && x < |k.sys.servers| && ch != Act(Protocol.Action.Crash(x))
    ensures |Do(k, ch).sys.servers| == |k.sys.servers|
    ensures MovesBy(k.sys.servers[x], DoneAt(k, ch, x), Do(k, ch).sys.servers[x])
  {
    if ch.Act? {
      NodeAnswers(k.sys, ch.act, x);
    }
  }

  /** In every maintained run in which it does not crash, the lock map of a node is the
      map after its history. */
  lemma {:induction false} NodeFollowsHistory(n: nat, chores: seq<Chore>, x: nat)
    requires CanKeep(n, chores) && NeverCrashes(chores, x) && x < n
    ensures |Kept(n, chores).sys.servers| == n
    ensures H.Feasible(History(n, chores, x))
    ensures Kept(n, chores).sys.servers[x] == H.MapAfter(History(n, chores, x))
  {
    if chores != [] {
      var last, prev := chores[|chores| - 1], chores[..|chores| - 1];
      NodeFollowsHistory(n, prev, x);
      NodeSteps(Kept(n, prev), last, x);
      var before, ops := History(n, prev, x), DoneAt(Kept(n, prev), last, x);
      if ops == [] {
        assert before + ops == before;
      } else {
        assert ops == [ops[0]];
        H.OneMore(before, ops[0]);
      }
    }
  }

  // ---------------------------------------------------------------- the clock

  predicate TimedChore(ch: Chore) {
    (ch.SweepNode? && ch.sweep.Sweep?) || (ch.Act? && (ch.act.Serve? || ch.act.ServeStray?))
  }

  function ChoreBegins(ch: Chore): int
    requires TimedChore(ch)
  {
    if ch.Act? then ch.act.now else ch.sweep.from
  }

  function ChoreEnds(ch: Chore): int
    requires TimedChore(ch)
  {
    if ch.Act? then ch.act.now else ch.sweep.to
  }

  /** The servers read one clock that never runs backwards. */
  predicate OnTime(chores: seq<Chore>) {
    forall j, k :: 0 <= j < k < |chores| && TimedChore(chores[j]) && TimedChore(chores[k])
      ==> ChoreEnds(chores[j]) <= ChoreBegins(chores[k])
  }

  lemma DoneInTime(k: Keeper, ch: Chore, x: nat)
    requires CanDo(k, ch)
    ensures |DoneAt(k, ch, x)| <= 1
    ensures forall op :: op in DoneAt(k, ch, x) && H.Timed(op) ==>
      TimedChore(ch) && ChoreBegins(ch) == H.Begins(op) && ChoreEnds(ch) == H.Ends(op)
  {
  }

  lemma {:induction false} HistoryUntil(n: nat, chores: seq<Chore>, x: nat, now: int)
    requires CanKeep(n, chores)
    requires forall k :: 0 <= k < |chores| && TimedChore(chores[k]) ==> ChoreEnds(chores[k]) <= now
    ensures H.Until(History(n, chores, x), now)
  {
    if chores != [] {
      var last, prev := chores[|chores| - 1], chores[..|chores| - 1];
      HistoryUntil(n, prev, x, now);
      DoneInTime(Kept(n, prev), last, x);
    }
  }

  lemma TickingJoin(before: seq<H.Op>, ops: seq<H.Op>)
    requires H.Ticking(before) && |ops| <= 1
    requires forall op :: op in ops && H.Timed(op) ==> H.Until(before, H.Begins(op))
    ensures H.Ticking(before + ops)
  {
  }

  lemma {:induction false} HistoryTicks(n: nat, chores: seq<Chore>, x: nat)
    requires CanKeep(n, chores) && OnTime(chores)
    ensures H.Ticking(History(n, chores, x))
  {
    if chores != [] {
      var last, prev := chores[|chores| - 1], chores[..|chores| - 1];
      HistoryTicks(n, prev, x);
      DoneInTime(Kept(n, prev), last, x);
      if TimedChore(last) {
        HistoryUntil(n, prev, x, ChoreBegins(last));
      }
      TickingJoin(History(n, prev, x), DoneAt(Kept(n, prev), last, x));
    }
  }

  // ---------------------------------------------------------------- sweeps of a node

  lemma {:induction false} KeepPrefix(n: nat, chores: seq<Chore>, a: nat)
    requires CanKeep(n, chores) && a <= |chores|
    ensures CanKeep(n, chores[..a]) && (a < |chores| ==> CanDo(Kept(n, chores[..a]), chores[a]))
  {
    if a < |chores| {
      var prev := chores[..|chores| - 1];
      KeepPrefix(n, prev, a);
      assert prev[..a] == chores[..a];
    } else {
      assert chores[..a] == chores;
    }
  }

  /** Chore a is a sweep of node x and reports the i-th entry of the resource. */
  ghost predicate NodeReports(n: nat, chores: seq<Chore>, a: nat, x: nat, name: string, i: nat) {
    && a < |chores| && CanKeep(n, chores[..a]) && CanDo(Kept(n, chores[..a]), chores[a])
    && chores[a].SweepNode? && chores[a].node == x
    && H.ReportsAt(Kept(n, chores[..a]).sys.servers[x], chores[a].sweep, name, i)
  }

  lemma SamePrefix(before: seq<H.Op>, ops: seq<H.Op>, p: nat)
    requires p <= |before|
    ensures (before + ops)[..p] == before[..p]
    ensures p < |before| ==> (before + ops)[p] == before[p]
  {
  }

  /** A sweep of the node is the next operation of its history. */
  lemma {:induction false} SweepInHistory(n: nat, chores: seq<Chore>, a: nat, x: nat)
    requires CanKeep(n, chores) && a < |chores| && chores[a].SweepNode? && chores[a].node == x
    ensures CanKeep(n, chores[..a])
    ensures var h, p := History(n, chores, x), |History(n, chores[..a], x)|;
      p < |h| && h[..p] == History(n, chores[..a], x) && h[p] == chores[a].sweep
  {
    var prev, last := chores[..|chores| - 1], chores[|chores| - 1];
    var before, ops := History(n, prev, x), DoneAt(Kept(n, prev), last, x);
    assert History(n, chores, x) == before + ops;
    if a < |prev| {
      assert prev[..a] == chores[..a];
      SweepInHistory(n, prev, a, x);
      SamePrefix(before, ops, |History(n, chores[..a], x)|);
    } else {
      assert prev == chores[..a];
      SamePrefix(before, ops, |before|);
    }
  }

  lemma ReportInHistory(n: nat, chores: seq<Chore>, a: nat, x: nat, name: string, i: nat)
    requires CanKeep(n, chores) && NeverCrashes(chores, x) && x < n && NodeReports(n, chores, a, x, name, i)
    ensures var h, p := History(n, chores, x), |History(n, chores[..a], x)|;
      && H.Reported(h, p, name, i) && h[p] == chores[a].sweep
      && H.MapAfter(h[..p]) == Kept(n, chores[..a]).sys.servers[x]
  {
    SweepInHistory(n, chores, a, x);
    NodeFollowsHistory(n, chores[..a], x);
  }

  lemma SweepsInTurn(n: nat, chores: seq<Chore>, a: nat, b: nat, x: nat, name: string, i: nat)
    requires CanKeep(n, chores) && a < b <= |chores| && NodeReports(n, chores, a, x, name, i)
    ensures CanKeep(n, chores[..b]) && |History(n, chores[..a], x)| < |History(n, chores[..b], x)|
  {
    KeepPrefix(n, chores, b);
    assert chores[..b][..a] == chores[..a] && chores[..b][a] == chores[a];
    SweepInHistory(n, chores[..b], a, x);
  }

  /** Two sweeps of a node of the running system that report the same resource and UID
      are spaced if the first one meets a single entry of them. */
  lemma NodeSweepsAreSpaced(n: nat, chores: seq<Chore>, a: nat, b: nat, x: nat, name: string, i: nat, i': nat)
    requires CanKeep(n, chores) && NeverCrashes(chores, x) && OnTime(chores) && x < n && a < b
    requires NodeReports(n, chores, a, x, name, i) && NodeReports(n, chores, b, x, name, i')
    requires var m: LockMap, m': LockMap := Kept(n, chores[..a]).sys.servers[x], Kept(n, chores[..b]).sys.servers[x];
      m[name][i].uid == m'[name][i'].uid && Single(m, name, m[name][i].uid)
    ensures chores[b].sweep.rs[name][i'].since - chores[a].sweep.rs[name][i].now >= chores[b].sweep.interval
  {
    ReportInHistory(n, chores, a, x, name, i);
    ReportInHistory(n, chores, b, x, name, i');
    SweepsInTurn(n, chores, a, b, x, name, i);
    HistoryTicks(n, chores, x);
    SweepsAreSpaced(History(n, chores, x), |History(n, chores[..a], x)|, |History(n, chores[..b], x)|, name, i, i');
  }

  // ---------------------------------------------------------------- one request per node, resource and UID

  /** Is this attempt's request to node x still to be executed? */
  function Awaits(x: nat, name: string, uid: string): Attempt -> nat {
    (a: Attempt) => if a.uid == uid && a.cfg.name == name && x in a.pending then 1 else 0
  }

  /** Requests to be executed at node x for this resource and UID, by their caller or as
      strays, and entries they have led to. */
  function Load(s: Sys, x: nat, name: string, uid: string): nat {
    Sum(s.attempts, Awaits(x, name, uid))
    + s.stray[Token(x, name, Read, uid)] + s.stray[Token(x, name, Write, uid)]
    + Entries(s, Token(x, name, Read, uid)) + Entries(s, Token(x, name, Write, uid))
  }

  predicate Used(s: Sys, name: string, uid: string) {
    exists i :: 0 <= i < |s.attempts| && s.attempts[i].uid == uid && s.attempts[i].cfg.name == name
  }

  /** A request is executed at most once, and nothing else makes entries. */
  ghost predicate Once(s: Sys) {
    forall x: nat, name, uid :: Load(s, x, name, uid) <= if Used(s, name, uid) then 1 else 0
  }

  lemma LoadOfServe(s: Sys, i: nat, y: nat, now: int, x: nat, name: string, uid: string)
    requires CanAnswer(s, i, y)
    ensures Load(ServeRequest(s, i, y, now), x, name, uid) <= Load(s, x, name, uid)
  {
    var a := s.attempts[i];
    var (m, granted) := Acquire(s.servers[y], a.cfg.mode, a.cfg.name, a.uid, now);
    SumUpdate(s.attempts, i, Executed(a, y, granted), Awaits(x, name, uid));
    AcquireCounts(s.servers[y], a.cfg.mode, a.cfg.name, a.uid, now, name, Read, uid);
    AcquireCounts(s.servers[y], a.cfg.mode, a.cfg.name, a.uid, now, name, Write, uid);
    EntriesAfter(s, y, m, Token(x, name, Read, uid));
    EntriesAfter(s, y, m, Token(x, name, Write, uid));
  }

  lemma LoadOfFail(s: Sys, i: nat, y: nat, strays: bool, x: nat, name: string, uid: string)
    requires CanAnswer(s, i, y)
    ensures Load(FailRequest(s, i, y, strays), x, name, uid) <= Load(s, x, name, uid)
  {
    SumUpdate(s.attempts, i, Returned(s.attempts[i], y, false), Awaits(x, name, uid));
  }

  lemma LoadOfStray(s: Sys, t: Token, now: int, x: nat, name: string, uid: string)
    requires t in s.stray && t.node < |s.servers|
    ensures Load(DeliverStray(s, t, now), x, name, uid) <= Load(s, x, name, uid)
  {
    var m := Acquire(s.servers[t.node], t.mode, t.name, t.uid, now).0;
    AcquireCounts(s.servers[t.node], t.mode, t.name, t.uid, now, name, Read, uid);
    AcquireCounts(s.servers[t.node], t.mode, t.name, t.uid, now, name, Write, uid);
    EntriesAfter(s, t.node, m, Token(x, name, Read, uid));
    EntriesAfter(s, t.node, m, Token(x, name, Write, uid));
  }

  lemma LoadOfRelease(s: Sys, t: Token, x: nat, name: string, uid: string)
    requires Shape(s) && t.node < |s.servers|
    ensures Load(DeliverRelease(s, t), x, name, uid) <= Load(s, x, name, uid)
  {
    EntriesOfRelease(s, t, Token(x, name, Read, uid));
    EntriesOfRelease(s, t, Token(x, name, Write, uid));
  }

  lemma LoadOfCrash(s: Sys, y: nat, x: nat, name: string, uid: string)
    requires y < |s.servers| && y < |s.lost|
    ensures Load(CrashNode(s, y), x, name, uid) <= Load(s, x, name, uid)
  {
    EntriesAfter(s, y, map[], Token(x, name, Read, uid));
    EntriesAfter(s, y, map[], Token(x, name, Write, uid));
  }

  /** The actions that neither begin, execute nor give up a request. */
  predicate Quiet(act: Action) {
    !act.Begin? && !act.Serve? && !act.Fail? && !act.ServeStray? && !act.ServeRelease? && !act.Crash?
  }

  lemma StraysStay(s: Sys, act: Action)
    requires Enabled(s, act) && Quiet(act)
    ensures Apply(s, act).stray <= s.stray && |Apply(s, act).attempts| == |s.attempts|
  {
  }

  lemma LoadOfQuiet(s: Sys, act: Action, x: nat, name: string, uid: string)
    requires Enabled(s, act) && Quiet(act)
    ensures Load(Apply(s, act), x, name, uid) <= Load(s, x, name, uid)
  {
    StraysStay(s, act);
    ServersStay(s, act);
    forall i | 0 <= i < |s.attempts|
      ensures Awaits(x, name, uid)(Apply(s, act).attempts[i]) <= Awaits(x, name, uid)(s.attempts[i])
    {
      AttemptStepsOn(s, act, i);
    }
    SumMonotone(Apply(s, act).attempts, s.attempts, Awaits(x, name, uid));
  }

  lemma LoadNeverGrows(s: Sys, act: Action, x: nat, name: string, uid: string)
    requires Shape(s) && Enabled(s, act) && !act.Begin?
    ensures Load(Apply(s, act), x, name, uid) <= Load(s, x, name, uid)
  {
    if act.Serve? {
      LoadOfServe(s, act.attempt, act.node, act.now, x, name, uid);
    } else if act.Fail? {
      LoadOfFail(s, act.attempt, act.node, act.strays, x, name, uid);
    } else if act.ServeStray? {
      LoadOfStray(s, act.token, act.now, x, name, uid);
    } else if act.ServeRelease? {
      LoadOfRelease(s, act.token, x, name, uid);
    } else if act.Crash? {
      LoadOfCrash(s, act.node, x, name, uid);
    } else {
      LoadOfQuiet(s, act, x, name, uid);
    }
  }

  lemma UsedStays(s: Sys, act: Action, name: string, uid: string)
    requires Enabled(s, act) && Used(s, name, uid)
    ensures Used(Apply(s, act), name, uid)
  {
    var i :| 0 <= i < |s.attempts| && s.attempts[i].uid == uid && s.attempts[i].cfg.name == name;
    AttemptStepsOn(s, act, i);
  }

  lemma LoadOfBegin(s: Sys, c: nat, mode: Mode, id: string, x: nat, name: string, uid: string)
    requires c < |s.clients|
    ensures Load(BeginAttempt(s, c, mode, id), x, name, uid)
         <= Load(s, x, name, uid) + (if name == s.clients[c].mu.name && uid == id then 1 else 0)
    ensures Used(BeginAttempt(s, c, mode, id), s.clients[c].mu.name, id)
  {
    var s' := BeginAttempt(s, c, mode, id);
    SumAppend(s.attempts, s'.attempts[|s.attempts|], Awaits(x, name, uid));
    assert s'.attempts[|s.attempts|].uid == id;
  }

  /** Each attempt on a resource has its own UID. */
  predicate NewId(s: Sys, act: Action)
    requires Enabled(s, act)
  {
    act.Begin? ==> !Used(s, s.clients[act.client].mu.name, act.uid)
  }

  lemma OnceKept(s: Sys, act: Action)
    requires Shape(s) && Enabled(s, act) && Once(s) && NewId(s, act)
    ensures Once(Apply(s, act))
  {
    forall x: nat, name, uid
      ensures Load(Apply(s, act), x, name, uid) <= if Used(Apply(s, act), name, uid) then 1 else 0
    {
      if Used(s, name, uid) {
        UsedStays(s, act, name, uid);
      }
      if act.Begin? {
        LoadOfBegin(s, act.client, act.mode, act.uid, x, name, uid);
      } else {
        LoadNeverGrows(s, act, x, name, uid);
      }
    }
  }

  ghost predicate NewIds(n: nat, chores: seq<Chore>)
    requires CanKeep(n, chores)
  {
    chores == [] ||
    var prev, last := chores[..|chores| - 1], chores[|chores| - 1];
    NewIds(n, prev) && (last.Act? ==> NewId(Kept(n, prev).sys, last.act))
  }

  lemma OnceOfServers(s: Sys, s': Sys)
    requires Once(s) && s' == s.(servers := s'.servers)
    requires forall t :: Entries(s', t) <= Entries(s, t)
    ensures Once(s')
  {
    forall x: nat, name, uid ensures Load(s', x, name, uid) <= if Used(s', name, uid) then 1 else 0 {
      assert Load(s', x, name, uid) <= Load(s, x, name, uid);
      assert Used(s', name, uid) <==> Used(s, name, uid);
    }
  }

  lemma OnceOfSweep(s: Sys, x: nat, interval: int, rs: map<string, seq<Reading>>)
    requires Once(s) && x < |s.servers| && ReadingsFor(s.servers[x], rs)
    ensures Once(s.(servers := s.servers[x := Swept(s.servers[x], interval, rs)]))
  {
    var s' := s.(servers := s.servers[x := Swept(s.servers[x], interval, rs)]);
    forall t ensures Entries(s', t) <= Entries(s, t) {
      SweepKeepsEntries(s.servers[x], interval, rs, t.name, t.mode, t.uid);
      EntriesAfter(s, x, Swept(s.servers[x], interval, rs), t);
    }
    OnceOfServers(s, s');
  }

  lemma OnceOfRemoval(s: Sys, x: nat, name: string, uid: string)
    requires Shape(s) && Once(s) && x < |s.servers|
    ensures Once(Removed(s, x, name, uid))
  {
    forall t ensures Entries(Removed(s, x, name, uid), t) <= Entries(s, t) {
      RemoveEntryCounts(s.servers[x], name, uid, t.name, t.mode, t.uid);
      EntriesAfter(s, x, RemoveEntryIfExists(s.servers[x], name, uid), t);
    }
    OnceOfServers(s, Removed(s, x, name, uid));
  }

  lemma OnceOfChore(k: Keeper, ch: Chore)
    requires Sound(k) && CanDo(k, ch) && Once(k.sys) && (ch.Act? ==> NewId(k.sys, ch.act))
    ensures Once(Do(k, ch).sys)
  {
    match ch
    case Act(act) => OnceKept(k.sys, act);
    case SweepNode(x, op) => OnceOfSweep(k.sys, x, op.interval, op.rs);
    case Confirm(_) =>
    case RemoveStale(c) => OnceOfRemoval(k.sys, c.node, c.name, c.uid);
  }

  lemma {:induction false} KeepingOnce(n: nat, chores: seq<Chore>)
    requires n >= 2 && CanKeep(n, chores) && NewIds(n, chores)
    ensures Once(Kept(n, chores).sys)
  {
    if chores != [] {
      var last, prev := chores[|chores| - 1], chores[..|chores| - 1];
      KeepingOnce(n, prev);
      KeepingIsSound(n, prev);
      OnceOfChore(Kept(n, prev), last);
    }
  }

  // ---------------------------------------------------------------- distinct UIDs are enough

  lemma {:induction false} OneIsCounted(lri: seq<Entry>, uid: string, i: nat)
    requires i < |lri| && lri[i].uid == uid
    ensures CountIn(lri, Read, uid) + CountIn(lri, Write, uid) >= 1
  {
    if i > 0 {
      OneIsCounted(lri[1..], uid, i - 1);
    }
  }

  lemma {:induction false} BothAreCounted(lri: seq<Entry>, uid: string, i: nat, j: nat)
    requires i < j < |lri| && lri[i].uid == uid == lri[j].uid
    ensures CountIn(lri, Read, uid) + CountIn(lri, Write, uid) >= 2
  {
    if i > 0 {
      BothAreCounted(lri[1..], uid, i - 1, j - 1);
    } else {
      OneIsCounted(lri[1..], uid, j - 1);
    }
  }

  lemma OnceIsSingle(s: Sys, x: nat, name: string, uid: string)
    requires Once(s) && x < |s.servers|
    ensures Single(s.servers[x], name, uid)
  {
    assert Load(s, x, name, uid) <= 1;
    if name in s.servers[x] {
      var lri := s.servers[x][name];
      forall i: nat, j: nat | i < j < |lri| ensures !(lri[i].uid == uid == lri[j].uid) {
        if lri[i].uid == uid == lri[j].uid {
          BothAreCounted(lri, uid, i, j);
        }
      }
    }
  }

  lemma {:induction false} NewIdsPrefix(n: nat, chores: seq<Chore>, a: nat)
    requires CanKeep(n, chores) && NewIds(n, chores) && a <= |chores|
    ensures CanKeep(n, chores[..a]) && NewIds(n, chores[..a])
  {
    if a < |chores| {
      var prev := chores[..|chores| - 1];
      NewIdsPrefix(n, prev, a);
      assert prev[..a] == chores[..a];
    } else {
      assert chores[..a] == chores;
    }
  }

  /** With one UID per attempt on a resource, any two sweeps of a node that report the
      same resource and UID are at least the interval apart, in every maintained run of
      the whole system in which the node does not crash. */
  lemma NewIdsAreSpaced(n: nat, chores: seq<Chore>, a: nat, b: nat, x: nat, name: string, i: nat, i': nat)
    requires n >= 2 && CanKeep(n, chores) && NeverCrashes(chores, x) && OnTime(chores) && NewIds(n, chores)
    requires x < n && a < b
    requires NodeReports(n, chores, a, x, name, i) && NodeReports(n, chores, b, x, name, i')
    requires Kept(n, chores[..a]).sys.servers[x][name][i].uid == Kept(n, chores[..b]).sys.servers[x][name][i'].uid
    ensures chores[b].sweep.rs[name][i'].since - chores[a].sweep.rs[name][i].now >= chores[b].sweep.interval
  {
    NewIdsPrefix(n, chores, a);
    KeepingOnce(n, chores[..a]);
    OnceIsSingle(Kept(n, chores[..a]).sys, x, name, Kept(n, chores[..a]).sys.servers[x][name][i].uid);
    NodeSweepsAreSpaced(n, chores, a, b, x, name, i, i');
  }

  /** A request that is granted finds no entry of its UID. */
  lemma AskedAfresh(s: Sys, act: Action, x: nat, op: H.Op)
    requires Enabled(s, act) && Once(s) && x < |s.servers| && op in AskedOf(s, act, x)
    ensures Fresh(s.servers[x], op)
  {
    if op.Take? && op.name in s.servers[x] && HasUid(s.servers[x][op.name], op.uid) {
      var k :| 0 <= k < |s.servers[x][op.name]| && s.servers[x][op.name][k].uid == op.uid;
      OneIsCounted(s.servers[x][op.name], op.uid, k);
      if act.Serve? {
        SumAtLeastOne(s.attempts, act.attempt, Awaits(x, op.name, op.uid));
      }
      assert Load(s, x, op.name, op.uid) <= 1;
    }
  }

  lemma DoneAfresh(k: Keeper, ch: Chore, x: nat, op: H.Op)
    requires CanDo(k, ch) && Once(k.sys) && x < |k.sys.servers| && op in DoneAt(k, ch, x)
    ensures Fresh(k.sys.servers[x], op)
  {
    if ch.Act? {
      AskedAfresh(k.sys, ch.act, x, op);
    }
  }

  lemma OneEachJoin(before: seq<H.Op>, ops: seq<H.Op>, m: LockMap, m': LockMap)
    requires H.Feasible(before) && OneEach(before) && H.MapAfter(before) == m && MovesBy(m, ops, m')
    requires forall op :: op in ops ==> Fresh(m, op)
    ensures H.Feasible(before + ops) && OneEach(before + ops)
  {
    if ops == [] {
      assert before + ops == before;
    } else {
      assert ops == [ops[0]];
      OneEachMore(before, ops[0]);
    }
  }

  /** So the history of the node grants each UID a resource once at a time. */
  lemma {:induction false} NewIdsAreOneEach(n: nat, chores: seq<Chore>, x: nat)
    requires n >= 2 && CanKeep(n, chores) && NeverCrashes(chores, x) && NewIds(n, chores) && x < n
    ensures H.Feasible(History(n, chores, x)) && OneEach(History(n, chores, x))
  {
    if chores != [] {
      var last, prev := chores[|chores| - 1], chores[..|chores| - 1];
      NewIdsAreOneEach(n, prev, x);
      NodeFollowsHistory(n, prev, x);
      KeepingOnce(n, prev);
      var k := Kept(n, prev);
      NodeSteps(k, last, x);
      forall op | op in DoneAt(k, last, x) ensures Fresh(k.sys.servers[x], op) {
        DoneAfresh(k, last, x, op);
      }
      OneEachJoin(History(n, prev, x), DoneAt(k, last, x), k.sys.servers[x], Do(k, last).sys.servers[x]);
    }
  }
}
