/** Runs in which no RPC fails: nothing leaks. Entries and grants then balance
    exactly, and when all is unlocked and delivered every server map is empty. */
module Quiescence {
  import opened Counting
  import opened Quorum
  import opened UidServer
  import opened Collector
  import opened ClientMutex
  import opened Protocol
  import opened Backing
  import opened Exclusion
  import opened Scenario

  ghost predicate Balanced(s: Sys) {
    forall t :: Tracked(s, t) ==> Entries(s, t) == Held(s, t)
  }

  lemma {:induction false} CleanRunBalances(s: Sys, acts: seq<Action>)
    requires Inv(s) && NothingLost(s) && Balanced(s) && CanRun(s, acts) && AllClean(acts)
    ensures Inv(After(s, acts)) && NothingLost(After(s, acts)) && Balanced(After(s, acts))
    ensures After(s, acts).n == s.n
    decreases |acts|
  {
    if acts != [] {
      var act, s' := acts[0], Apply(s, acts[0]);
      assert Clean(act);
      InvKept(s, act);
      NoLiveGrantIsOverwritten(s, act);
      forall t | Tracked(s', t) ensures Entries(s', t) == Held(s', t) {
        SlackNeverShrinks(s, act, t);
        assert Slack(s', t) == Slack(s, t);
      }
      CleanRunBalances(s', acts[1..]);
    }
  }

  /** No RPC fails: at every node there are exactly as many entries for a resource,
      mode and UID as grants and releases that count on them. */
  lemma EntriesMatchGrants(n: nat, acts: seq<Action>, t: Token)
    requires n >= 2 && CanRun(Init(n), acts) && AllClean(acts)
    requires t.node < n && IsLocked(t.uid)
    ensures Entries(After(Init(n), acts), t) == Held(After(Init(n), acts), t)
  {
    InitInv(n);
    CleanRunBalances(Init(n), acts);
    assert Tracked(After(Init(n), acts), t);
  }

  // ---------------------------------------------------------------- quiescence

  /** All locks unlocked, all attempts returned and drained, no message under way. */
  predicate Quiescent(s: Sys) {
    && (forall c :: 0 <= c < |s.clients| ==> !CanUnlock(s.clients[c].mu, Write) && !CanUnlock(s.clients[c].mu, Read))
    && (forall i :: 0 <= i < |s.attempts| ==>
          && s.attempts[i].closed && s.attempts[i].col.received == s.n
          && (s.attempts[i].col.quorum ==> s.attempts[i].committed))
    && s.releases == multiset{}
  }

  lemma QuiescentHoldsNothing(s: Sys, t: Token)
    requires Shape(s) && Quiescent(s)
    ensures Held(s, t) == 0
  {
    forall i | 0 <= i < |s.attempts| ensures OfAttempt(t)(s.attempts[i]) == 0 {
      var a := s.attempts[i];
      assert AttemptOk(s.n, s.clients, a);
      assert |Out(a)| == 0;
      assert a.ch == [];
    }
    SumZero(s.attempts, OfAttempt(t));
    forall c | 0 <= c < |s.clients| ensures OfClient(t)(s.clients[c]) == 0 {
      CountZero(s.clients[c].mu.writeLocks);
    }
    SumZero(s.clients, OfClient(t));
  }

  /** Every attempt names itself, so that a grant can be told from a refusal. */
  ghost predicate Named(s: Sys) {
    && (forall i :: 0 <= i < |s.attempts| ==> IsLocked(s.attempts[i].uid))
    && NamedEntries(s.servers)
  }

  ghost predicate NamedEntries(servers: seq<LockMap>) {
    forall x, r, k :: 0 <= x < |servers| && r in servers[x] && 0 <= k < |servers[x][r]|
      ==> IsLocked(servers[x][r][k].uid)
  }

  predicate NonEmptyIds(acts: seq<Action>) {
    forall k :: 0 <= k < |acts| && acts[k].Begin? ==> IsLocked(acts[k].uid)
  }

  lemma ReleaseKeepsEntries(m: LockMap, mode: Mode, name: string, uid: string, r: string, k: nat)
    requires WellFormed(m)
    requires var m' := Release(m, mode, name, uid).0; r in m' && k < |m'[r]|
    ensures r in m && Release(m, mode, name, uid).0[r][k] in m[r]
  {
    ReleaseEffect(m, mode, name, uid);
    if r == name && Release(m, mode, name, uid).0 != m {
      var j := RemoveFirstSplices(m[r], uid);
    }
  }

  lemma NamedAfterRelease(s: Sys, t: Token)
    requires Shape(s) && t.node < |s.servers| && Named(s)
    ensures Named(DeliverRelease(s, t))
  {
    var m: LockMap := s.servers[t.node];
    var m': LockMap := Release(m, t.mode, t.name, t.uid).0;
    forall r: string, k: int | r in m' && 0 <= k < |m'[r]| ensures IsLocked(m'[r][k].uid) {
      ReleaseKeepsEntries(m, t.mode, t.name, t.uid, r, k);
    }
  }

  lemma NamedAfterServe(s: Sys, i: nat, x: nat, now: int)
    requires CanAnswer(s, i, x) && Named(s)
    ensures Named(ServeRequest(s, i, x, now))
  {
  }

  lemma NamedKept(s: Sys, act: Action)
    requires Shape(s) && Enabled(s, act) && Clean(act) && Named(s) && (act.Begin? ==> IsLocked(act.uid))
    ensures Named(Apply(s, act))
  {
    if act.ServeRelease? {
      NamedAfterRelease(s, act.token);
    } else if act.Serve? {
      NamedAfterServe(s, act.attempt, act.node, act.now);
    } else {
      ServersStay(s, act);
      AttemptsStayNamed(s, act);
    }
  }

  lemma AttemptsStayNamed(s: Sys, act: Action)
    requires Enabled(s, act) && Named(s) && (act.Begin? ==> IsLocked(act.uid))
    ensures forall i :: 0 <= i < |Apply(s, act).attempts| ==> IsLocked(Apply(s, act).attempts[i].uid)
  {
    forall i | 0 <= i < |Apply(s, act).attempts| ensures IsLocked(Apply(s, act).attempts[i].uid) {
      if i < |s.attempts| {
        AttemptStepsOn(s, act, i);
      }
    }
  }

  lemma {:induction false} RunKeepsNamed(s: Sys, acts: seq<Action>)
    requires Inv(s) && Named(s) && CanRun(s, acts) && AllClean(acts) && NonEmptyIds(acts)
    ensures Named(After(s, acts))
    decreases |acts|
  {
    if acts != [] {
      assert Clean(acts[0]);
      InvKept(s, acts[0]);
      NamedKept(s, acts[0]);
      RunKeepsNamed(Apply(s, acts[0]), acts[1..]);
    }
  }

  /** Quiescence returns to the start: no entry is left at any server. */
  lemma QuiescenceEmptiesServers(n: nat, acts: seq<Action>, x: nat)
    requires n >= 2 && CanRun(Init(n), acts) && AllClean(acts) && NonEmptyIds(acts)
    requires Quiescent(After(Init(n), acts)) && x < n
    ensures |After(Init(n), acts).servers| == n && After(Init(n), acts).servers[x] == map[]
  {
    InitInv(n);
    CleanRunBalances(Init(n), acts);
    RunKeepsNamed(Init(n), acts);
    var s := After(Init(n), acts);
    if r :| r in s.servers[x] {
      var e := s.servers[x][r][0];
      var t := Token(x, r, if e.writer then Write else Read, e.uid);
      CountPositive(s.servers[x][r], t.mode, t.uid);
      assert Tracked(s, t);
      QuiescentHoldsNothing(s, t);
    }
  }

  // ---------------------------------------------------------------- a free lock

  /** Nobody counts on a grant of this resource that conflicts with the mode. */
  ghost predicate NothingInTheWay(s: Sys, name: string, mode: Mode) {
    forall t: Token :: t.name == name && Conflict(mode, t.mode) ==> Held(s, t) == 0
  }

  lemma FreeNodeGrants(s: Sys, x: nat, name: string, mode: Mode, uid: string, now: int)
    requires Inv(s) && NothingLost(s) && Balanced(s) && Named(s) && x < s.n && NothingInTheWay(s, name, mode)
    ensures Acquire(s.servers[x], mode, name, uid, now).1
  {
    AcquireEffect(s.servers[x], mode, name, uid, now);
    forall md, u | Conflict(mode, md) ensures EntryCount(s.servers[x], name, md, u) == 0 {
      if IsLocked(u) {
        assert Tracked(s, Token(x, name, md, u));
        assert Held(s, Token(x, name, md, u)) == 0;
      } else if name in s.servers[x] {
        CountPositive(s.servers[x][name], md, u);
      }
    }
  }

  lemma FreeLockIsWon(s: Sys, c: nat, mode: Mode, uid: string, up: seq<bool>)
    requires Inv(s) && NothingLost(s) && Balanced(s) && Named(s) && c < |s.clients| && IsLocked(uid)
    requires NothingInTheWay(s, s.clients[c].mu.name, mode)
    requires |up| == s.n && forall x :: 0 <= x < s.n ==> up[x]
    ensures var s1, b := BeginAttempt(s, c, mode, uid), |s.attempts|;
      && Begun(s1, b)
      && var a := Progress(s1, b, up, s.n).attempts[b];
      && a.col.done && a.col.quorum && LockedNodes(a.col.locks) == Nodes(s.n)
      && CanReturn(Progress(s1, b, up, s.n), b)
  {
    var s1, b := BeginAttempt(s, c, mode, uid), |s.attempts|;
    forall x: nat | x < s.n ensures WouldGrant(s1, b, up, x) {
      FreeNodeGrants(s, x, s.clients[c].mu.name, mode, uid, 0);
    }
    NodesSize(s.n);
    QuorumSizes(s.n, mode, mode);
    AttemptOutcome(s1, b, up, Nodes(s.n));
  }

  /** The whole call: begin, every node in turn, return, commit. */
  function CallActions(c: nat, mode: Mode, uid: string, b: nat, n: nat): seq<Action> {
    [Begin(c, mode, uid)] + (AttemptActions(b, seq(n, _ => true), n) + [Return(b), Commit(b)])
  }

  lemma CallIsClean(c: nat, mode: Mode, uid: string, b: nat, n: nat)
    ensures AllClean(CallActions(c, mode, uid, b, n))
  {
    AttemptActionsKinds(b, seq(n, _ => true), n);
    AllCleanJoin([Begin(c, mode, uid)], AttemptActions(b, seq(n, _ => true), n), [Return(b), Commit(b)]);
  }

  /** A won attempt is returned from and committed. */
  lemma WonIsCommitted(s: Sys, b: nat)
    requires CanReturn(s, b) && s.attempts[b].col.quorum && !s.attempts[b].committed
    requires s.attempts[b].client < |s.clients|
    ensures CanRun(s, [Return(b), Commit(b)])
    ensures var a, s' := s.attempts[b], After(s, [Return(b), Commit(b)]);
      && s'.attempts == s.attempts[b := a.(closed := true, committed := true)]
      && s'.clients == s.clients[a.client := Committed(s.clients[a.client], a.cfg.mode, a.col.locks)]
  {
    TwoActions(s, Return(b), Commit(b));
  }

  lemma CallSucceeds(s: Sys, c: nat, mode: Mode, uid: string)
    requires Inv(s) && NothingLost(s) && Balanced(s) && Named(s) && c < |s.clients| && IsLocked(uid)
    requires NothingInTheWay(s, s.clients[c].mu.name, mode)
    ensures CanRun(s, CallActions(c, mode, uid, |s.attempts|, s.n))
    ensures CallWon(s, After(s, CallActions(c, mode, uid, |s.attempts|, s.n)), c, mode)
  {
    var b, up := |s.attempts|, seq(s.n, _ => true);
    var s1 := BeginAttempt(s, c, mode, uid);
    FreeLockIsWon(s, c, mode, uid, up);
    RunAttempt(s1, b, up, s.n);
    WonIsCommitted(Progress(s1, b, up, s.n), b);
    RunsCompose(s1, AttemptActions(b, up, s.n), [Return(b), Commit(b)]);
    RunOne(s, Begin(c, mode, uid));
    RunsCompose(s, [Begin(c, mode, uid)], AttemptActions(b, up, s.n) + [Return(b), Commit(b)]);
  }

  /** One more attempt, granted by every node and stored in mutex object c. */
  ghost predicate CallWon(s: Sys, s': Sys, c: nat, mode: Mode)
    requires c < |s.clients|
  {
    && |s'.attempts| == |s.attempts| + 1 && |s'.clients| == |s.clients|
    && var locks := s'.attempts[|s.attempts|].col.locks;
    && LockedNodes(locks) == Nodes(s.n)
    && s'.clients[c] == Committed(s.clients[c], mode, locks)
  }

  /** A free lock can be had: after any run in which no RPC fails, if no conflicting
      grant of the resource is counted on any more, an attempt whose requests are
      served wins on every node and is committed, again without a failure. */
  lemma FreeLockIsObtainable(n: nat, acts: seq<Action>, c: nat, mode: Mode, uid: string) returns (more: seq<Action>)
    requires n >= 2 && CanRun(Init(n), acts) && AllClean(acts) && NonEmptyIds(acts) && IsLocked(uid)
    requires var s := After(Init(n), acts); c < |s.clients| && NothingInTheWay(s, s.clients[c].mu.name, mode)
    ensures AllClean(more) && CanRun(After(Init(n), acts), more)
    ensures After(Init(n), acts).n == n && CallWon(After(Init(n), acts), After(After(Init(n), acts), more), c, mode)
  {
    InitInv(n);
    CleanRunBalances(Init(n), acts);
    RunKeepsNamed(Init(n), acts);
    more := CallActions(c, mode, uid, |After(Init(n), acts).attempts|, n);
    CallIsClean(c, mode, uid, |After(Init(n), acts).attempts|, n);
    CallSucceeds(After(Init(n), acts), c, mode, uid);
  }

  lemma AllCleanJoin(p: seq<Action>, q: seq<Action>, r: seq<Action>)
    requires AllClean(p) && AllClean(r) && forall act :: act in q ==> Clean(act)
    ensures AllClean(p + (q + r))
  {
    forall k | 0 <= k < |p + (q + r)| ensures Clean((p + (q + r))[k]) {
      if |p| <= k < |p| + |q| {
        assert (p + (q + r))[k] == q[k - |p|];
      }
    }
  }

  // ---------------------------------------------------------------- each failure leaks

  const FAILED := Token(0, "r", Write, "u")

  /** A system with one attempt under way, one request of which is to be looked at. */
  function OneCall(n: nat): Sys {
    BeginAttempt(Join(Init(n), "r"), 0, Write, "u")
  }

  lemma OneCallRuns(n: nat, more: seq<Action>)
    requires n >= 2 && CanRun(OneCall(n), more)
    ensures CanRun(Init(n), [NewClient("r"), Begin(0, Write, "u")] + more)
    ensures After(Init(n), [NewClient("r"), Begin(0, Write, "u")] + more) == After(OneCall(n), more)
  {
    TwoActions(Init(n), NewClient("r"), Begin(0, Write, "u"));
    RunsCompose(Init(n), [NewClient("r"), Begin(0, Write, "u")], more);
  }

  /** Nothing of the attempt counts on a grant of node 0 any more. */
  lemma NothingHeld(s: Sys, n: nat)
    requires |s.attempts| == 1 && s.clients == [Client(NewMutex(n, "r"), 0, 0, 0, 0)] && s.releases[FAILED] == 0
    requires 0 !in s.attempts[0].granting
    requires forall k :: 0 <= k < |s.attempts[0].ch| ==> s.attempts[0].ch[k] != Granted(0, "u")
    requires |s.attempts[0].col.locks| > 0 ==> s.attempts[0].col.locks[0] == ""
    ensures Held(s, FAILED) == 0
  {
    assert Granted(0, "u") !in s.attempts[0].ch;
    SumZero(s.attempts, OfAttempt(FAILED));
    SumZero(s.clients, OfClient(FAILED));
  }

  lemma NodeServed(n: nat, m: LockMap)
    requires n >= 2 && m == Acquire(map[], Write, "r", "u", 0).0
    ensures EntryCount(m, "r", Write, "u") == 1 && Acquire(map[], Write, "r", "u", 0).1
  {
    AcquireCounts(map[], Write, "r", "u", 0, "r", Write, "u");
  }

  /** A reply that is lost leaves an entry that nobody counts on. */
  lemma LostReplyLeaks(n: nat)
    requires n >= 2
    ensures var acts := [Serve(0, 0, 0), Arrives(0, 0, true)];
      CanRun(OneCall(n), acts) && Slack(After(OneCall(n), acts), FAILED) == 1
  {
    var s := OneCall(n);
    TwoActions(s, Serve(0, 0, 0), Arrives(0, 0, true));
    var s' := Apply(Apply(s, Serve(0, 0, 0)), Arrives(0, 0, true));
    NodeServed(n, s'.servers[0]);
    NothingHeld(s', n);
  }

  /** So does a request that is executed after its RPC has failed. */
  lemma StrayLeaks(n: nat)
    requires n >= 2
    ensures var acts := [Fail(0, 0, true), ServeStray(FAILED, 0)];
      CanRun(OneCall(n), acts) && Slack(After(OneCall(n), acts), FAILED) == 1
  {
    var s := OneCall(n);
    TwoActions(s, Fail(0, 0, true), ServeStray(FAILED, 0));
    var s' := Apply(Apply(s, Fail(0, 0, true)), ServeStray(FAILED, 0));
    NodeServed(n, s'.servers[0]);
    NothingHeld(s', n);
  }

  /** A grant is taken and given back on the timer. */
  lemma GivesBack(n: nat)
    requires n >= 2
    ensures var acts := [Serve(0, 0, 0), Arrives(0, 0, false), Take(0), Expire(0)];
      && CanRun(OneCall(n), acts)
      && var s := After(OneCall(n), acts);
      && s.releases == multiset{FAILED} && s.servers == OneCall(n).servers[0 := Acquire(map[], Write, "r", "u", 0).0]
      && s.clients == [Client(NewMutex(n, "r"), 0, 0, 0, 0)]
      && |s.attempts| == 1 && s.attempts[0].granting == {} && s.attempts[0].ch == []
      && s.attempts[0].col.locks == Blank(n)
  {
    var s := OneCall(n);
    NodeServed(n, Acquire(map[], Write, "r", "u", 0).0);
    var s2 := ReplyArrives(ServeRequest(s, 0, 0, 0), 0, 0, false);
    TakeOnly(s2, 0, Granted(0, "u"));
    var s3 := TakeReply(s2, 0);
    var locks := Blank(n)[0 := "u"];
    CountBlank(n);
    CountFill(Blank(n), 0, "u");
    QuorumSizes(n, Write, Write);
    OneToken(s3.attempts[0].cfg, locks);
    FourActions(s, Serve(0, 0, 0), Arrives(0, 0, false), Take(0), Expire(0));
  }

  lemma OneToken(cfg: Config, locks: seq<string>)
    requires cfg.n >= 2 && cfg.name == "r" && cfg.mode == Write && locks == Blank(cfg.n)[0 := "u"]
    ensures multiset(Tokens(cfg, locks)) == multiset{FAILED}
  {
    forall t ensures multiset(Tokens(cfg, locks))[t] == multiset{FAILED}[t] {
      TokensAreSlots(cfg, locks, t);
    }
  }

  /** And a release that is lost. */
  lemma LostReleaseLeaks(n: nat)
    requires n >= 2
    ensures var acts := [Serve(0, 0, 0), Arrives(0, 0, false), Take(0), Expire(0)] + [LoseRelease(FAILED)];
      CanRun(OneCall(n), acts) && Slack(After(OneCall(n), acts), FAILED) == 1
  {
    var acts := [Serve(0, 0, 0), Arrives(0, 0, false), Take(0), Expire(0)];
    GivesBack(n);
    var s := After(OneCall(n), acts);
    RunOne(s, LoseRelease(FAILED));
    RunsCompose(OneCall(n), acts, [LoseRelease(FAILED)]);
    var s' := Apply(s, LoseRelease(FAILED));
    NodeServed(n, s'.servers[0]);
    NothingHeld(s', n);
  }

  /** The ways in which one RPC can fail: its reply is lost, it is executed after it was
      given up, or a release is lost. */
  predicate OneFailure(more: seq<Action>) {
    || more == [Serve(0, 0, 0), Arrives(0, 0, true)]
    || more == [Fail(0, 0, true), ServeStray(FAILED, 0)]
    || more == [Serve(0, 0, 0), Arrives(0, 0, false), Take(0), Expire(0)] + [LoseRelease(FAILED)]
  }

  /** Runs without failure are what it takes: for every node count, each of these failures
      alone leaves an entry that nobody counts on, under a proper id. */
  lemma EachFailureLeaks(n: nat, more: seq<Action>)
    requires n >= 2 && OneFailure(more)
    ensures var acts := [NewClient("r"), Begin(0, Write, "u")] + more;
      CanRun(Init(n), acts) && Slack(After(Init(n), acts), FAILED) == 1
  {
    LostReplyLeaks(n);
    StrayLeaks(n);
    LostReleaseLeaks(n);
    OneCallRuns(n, more);
  }

  // ---------------------------------------------------------------- the empty id

  /** An entry granted under the empty id is never released, whatever else happens
      short of a crash: no release is ever sent for it. */
  lemma EmptyIdEntryStays(s: Sys, act: Action, x: nat, name: string, mode: Mode)
    requires Inv(s) && Enabled(s, act) && !act.Crash? && x < s.n
    ensures Entries(Apply(s, act), Token(x, name, mode, "")) >= Entries(s, Token(x, name, mode, ""))
  {
    if act.Serve? {
      EntriesOfServe(s, act.attempt, act.node, act.now, Token(x, name, mode, ""));
    } else if act.ServeStray? {
      EntriesOfStray(s, act.token, act.now, Token(x, name, mode, ""));
    } else if act.ServeRelease? {
      EntriesOfRelease(s, act.token, Token(x, name, mode, ""));
    } else {
      ServersStay(s, act);
    }
  }

  lemma {:induction false} EmptyIdEntryIsForever(s: Sys, acts: seq<Action>, x: nat, name: string, mode: Mode)
    requires Inv(s) && CanRun(s, acts) && CrashFree(acts) && x < s.n
    ensures Entries(After(s, acts), Token(x, name, mode, "")) >= Entries(s, Token(x, name, mode, ""))
    decreases |acts|
  {
    if acts != [] {
      assert !acts[0].Crash?;
      InvKept(s, acts[0]);
      EmptyIdEntryStays(s, acts[0], x, name, mode);
      EmptyIdEntryIsForever(Apply(s, acts[0]), acts[1..], x, name, mode);
    }
  }

  lemma {:induction false} NoGrantsUnderEmptyId(s: Sys, i: nat, up: seq<bool>, j: nat)
    requires Begun(s, i) && |up| == s.n && j <= s.n && s.attempts[i].uid == ""
    ensures Collector.Grants(s.attempts[i].cfg, Answers(s, i, up, j)) == multiset{}
  {
    if j > 0 {
      NoGrantsUnderEmptyId(s, i, up, j - 1);
      assert Answers(s, i, up, j)[..j - 1] == Answers(s, i, up, j - 1);
    }
  }

  /** Nothing granted, so nothing kept and nothing released. */
  lemma NoGrantsNoTokens(cfg: Config, events: seq<Event>)
    requires cfg.n >= 2 && Possible(cfg, events) && Collector.Grants(cfg, events) == multiset{}
    ensures Tokens(cfg, Play(cfg, events).0.locks) == [] && Play(cfg, events).1 == []
  {
    EveryGrantAccountedFor(cfg, events);
    var kept, sent := Tokens(cfg, Play(cfg, events).0.locks), Play(cfg, events).1;
    assert |multiset(kept) + multiset(sent)| == |kept| + |sent|;
  }

  /** What an attempt under the empty id leaves: all replies drained, nothing kept
      and nothing released. */
  lemma EmptyIdOutcome(s: Sys, i: nat, up: seq<bool>)
    requires s.n >= 2 && Begun(s, i) && |up| == s.n && s.attempts[i].uid == ""
    ensures var p := Progress(s, i, up, s.n);
      var a := p.attempts[i];
      && a.col.done && !a.col.quorum && a.col.received == s.n
      && a.pending == a.granting == a.refusing == {} && a.ch == []
      && p.releases == s.releases
  {
    var cfg, ev := s.attempts[i].cfg, Answers(s, i, up, s.n);
    AnswersPossible(s, i, up, s.n);
    PlayOk(cfg, ev);
    NodesSize(s.n);
    QuorumSizes(cfg.n, cfg.mode, cfg.mode);
    AbortIsExact(cfg, ev);
    NoGrantsUnderEmptyId(s, i, up, s.n);
    NoGrantsNoTokens(cfg, ev);
    TokensLength(cfg, Play(cfg, ev).0.locks);
    assert s.releases + multiset([]) == s.releases;
  }

  /** The run: one attempt under the empty id, served by every node. */
  function EmptyIdRun(n: nat): seq<Action> {
    [NewClient("r"), Begin(0, Write, "")] + AttemptActions(0, seq(n, _ => true), n) + [Return(0)]
  }

  lemma {:induction false} EmptyIdRunIsClean(n: nat)
    ensures AllClean(EmptyIdRun(n)) && !NonEmptyIds(EmptyIdRun(n))
  {
    var up := seq(n, _ => true);
    AttemptActionsKinds(0, up, n);
    var middle := AttemptActions(0, up, n);
    forall k | 0 <= k < |EmptyIdRun(n)| ensures Clean(EmptyIdRun(n)[k]) {
      if 2 <= k < 2 + |middle| {
        assert EmptyIdRun(n)[k] == middle[k - 2];
      }
    }
    assert EmptyIdRun(n)[1] == Begin(0, Write, "");
  }

  lemma EmptyIdServed(s: Sys, up: seq<bool>, x: nat)
    requires Begun(s, 0) && x < s.n == |up| && up[x] && s.servers[x] == map[]
    requires s.attempts[0].cfg.mode == Write && s.attempts[0].cfg.name == "r" && s.attempts[0].uid == ""
    ensures EntryCount(ServedBy(s, 0, up, x), "r", Write, "") == 1
  {
    AcquireCounts(map[], Write, "r", "", 0, "r", Write, "");
  }

  lemma EmptyIdBegins(n: nat)
    requires n >= 2
    ensures var s := BeginAttempt(Join(Init(n), "r"), 0, Write, "");
      && CanRun(Init(n), [NewClient("r"), Begin(0, Write, "")])
      && After(Init(n), [NewClient("r"), Begin(0, Write, "")]) == s
      && Begun(s, 0) && s.n == n && |s.attempts| == 1 && s.releases == multiset{}
      && s.clients == [Client(NewMutex(n, "r"), 0, 0, 0, 0)]
      && s.attempts[0].uid == "" && s.attempts[0].cfg == Config(n, Write, "r")
      && forall x :: 0 <= x < n ==> s.servers[x] == map[]
  {
    TwoActions(Init(n), NewClient("r"), Begin(0, Write, ""));
  }

  /** The end of that attempt: quiescent, with an entry at every node. */
  lemma EmptyIdEnds(s: Sys, n: nat, up: seq<bool>)
    requires n >= 2 && |up| == n && (forall x :: 0 <= x < n ==> up[x])
    requires Begun(s, 0) && s.n == n && |s.attempts| == 1 && s.releases == multiset{}
    requires s.clients == [Client(NewMutex(n, "r"), 0, 0, 0, 0)]
    requires s.attempts[0].uid == "" && s.attempts[0].cfg == Config(n, Write, "r")
    requires forall x :: 0 <= x < n ==> s.servers[x] == map[]
    ensures CanReturn(Progress(s, 0, up, n), 0)
    ensures Quiescent(ReturnFrom(Progress(s, 0, up, n), 0))
    ensures forall x :: 0 <= x < n ==> Entries(ReturnFrom(Progress(s, 0, up, n), 0), Token(x, "r", Write, "")) == 1
  {
    EmptyIdOutcome(s, 0, up);
    CountBlank(n);
    forall x | 0 <= x < n ensures Entries(ReturnFrom(Progress(s, 0, up, n), 0), Token(x, "r", Write, "")) == 1 {
      EmptyIdServed(s, up, x);
    }
  }

  /** So a non-empty id is needed: for every node count there is a run without any
      failure that ends quiescent and leaves every server locked for good. */
  lemma EmptyIdLeaks(n: nat)
    requires n >= 2
    ensures AllClean(EmptyIdRun(n)) && CanRun(Init(n), EmptyIdRun(n))
    ensures Quiescent(After(Init(n), EmptyIdRun(n)))
    ensures forall x :: 0 <= x < n ==> Entries(After(Init(n), EmptyIdRun(n)), Token(x, "r", Write, "")) == 1
  {
    EmptyIdRunIsClean(n);
    EmptyIdBegins(n);
    var s := BeginAttempt(Join(Init(n), "r"), 0, Write, "");
    var up := seq(n, _ => true);
    RunAttempt(s, 0, up, n);
    EmptyIdEnds(s, n, up);
    RunOne(Progress(s, 0, up, n), Return(0));
    RunsCompose(Init(n), [NewClient("r"), Begin(0, Write, "")], AttemptActions(0, up, n));
    RunsCompose(Init(n), [NewClient("r"), Begin(0, Write, "")] + AttemptActions(0, up, n), [Return(0)]);
  }
}
