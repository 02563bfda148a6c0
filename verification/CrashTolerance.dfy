/** The exact bound: a held lock with w grants, k of them lost, excludes every later
    conflicting lock if and only if w - k exceeds n minus the quorum of that lock. */
module CrashTolerance {
  import opened Counting
  import opened Quorum
  import opened UidServer
  import opened Collector
  import opened ClientMutex
  import opened Protocol
  import opened Backing
  import opened Exclusion
  import opened Scenario
  import opened Crash

  /** A run up to a held lock, and on from there, with a later attempt in view. */
  datatype Story = Story(before: seq<Action>, since: seq<Action>, holder: Holder, rival: nat)

  predicate DistinctUids(s: Sys) {
    forall i, j :: 0 <= i < j < |s.attempts| ==> s.attempts[i].uid != s.attempts[j].uid
  }

  /** In this story a lock of mode `held` is held on w grants, stored or only won so far;
      when k of their UIDs have been dropped by crashes of their nodes and the lock is
      still held, an attempt begun since wins the resource in mode `wanted`. */
  ghost predicate TooEarly(n: nat, held: Mode, w: nat, k: nat, wanted: Mode, st: Story) {
    && CanRun(Init(n), st.before)
    && var s := After(Init(n), st.before);
    && Holds(s, st.holder) && ModeOf(s, st.holder) == held
    && |LockedNodes(VectorOf(s, st.holder))| == w
    && CanRun(s, st.since) && HeldThrough(s, st.since, st.holder)
    && var s', h' := After(s, st.since), HolderAfter(s, st.since, st.holder);
    && |Surviving(s', h')| == w - k
    && |s.attempts| <= st.rival < |s'.attempts|
    && Rivals(s', h', st.rival)
    && s'.attempts[st.rival].cfg.mode == wanted
    && s'.attempts[st.rival].col.quorum
    && DistinctUids(s')
  }

  const RESOURCE := "r"

  function FirstUp(n: nat, w: nat): (r: seq<bool>)
    ensures |r| == n
  {
    seq(n, x => x < w)
  }

  function HolderOf(held: Mode): Holder {
    if held.Write? then Writer(0, 1) else Reader(0, 0)
  }

  function HeldEntry(held: Mode): LockMap {
    map[RESOURCE := [Entry(held.Write?, "h", 0, 0)]]
  }

  /** The system after the first lock was taken on nodes 0..w-1. */
  ghost predicate HeldBy(s: Sys, n: nat, held: Mode, w: nat) {
    && s.n == n && |s.servers| == n == |s.lost| && |s.clients| == 1 && |s.attempts| == 1
    && (forall x :: 0 <= x < n ==> s.servers[x] == if x < w then HeldEntry(held) else map[])
    && (forall x :: 0 <= x < n ==> s.lost[x] == {})
    && s.attempts[0].uid == "h"
    && s.clients[0].mu.name == RESOURCE
    && Holds(s, HolderOf(held))
    && LockedNodes(VectorOf(s, HolderOf(held))) == Nodes(w)
    && |VectorOf(s, HolderOf(held))| == n
    && (forall x :: 0 <= x < w ==> x < n && VectorOf(s, HolderOf(held))[x] == "h")
  }

  /** A client arrives and begins an attempt. */
  lemma BeginOn(s: Sys, mode: Mode, uid: string) returns (acts: seq<Action>, s': Sys)
    requires |s.servers| == s.n
    ensures CanRun(s, acts) && After(s, acts) == s'
    ensures s' == s.(clients := s.clients + [Client(NewMutex(s.n, RESOURCE), 0, 0, 0, 0)], attempts := s'.attempts)
    ensures |s'.attempts| == |s.attempts| + 1 && s'.attempts[..|s.attempts|] == s.attempts
    ensures Begun(s', |s.attempts|)
    ensures var a := s'.attempts[|s.attempts|];
      a.cfg == Config(s.n, mode, RESOURCE) && a.uid == uid && a.client == |s.clients|
  {
    var first, second := NewClient(RESOURCE), Begin(|s.clients|, mode, uid);
    TwoActions(s, first, second);
    acts := [first, second];
    s' := Apply(Apply(s, first), second);
  }

  /** The system when the first attempt has won on nodes 0..w-1. */
  ghost predicate WonBy(s: Sys, n: nat, held: Mode, w: nat) {
    && s.n == n && |s.servers| == n && |s.attempts| == 1
    && s.lost == Init(n).lost
    && s.clients == [Client(NewMutex(n, RESOURCE), 0, 0, 0, 0)]
    && (forall x :: 0 <= x < n ==> s.servers[x] == if x < w then HeldEntry(held) else map[])
    && var a := s.attempts[0];
       && a.client == 0 && a.cfg == Config(n, held, RESOURCE) && a.uid == "h"
       && a.pending == a.granting == a.refusing == {} && !a.closed && !a.committed
       && a.col.done && a.col.quorum && LockedNodes(a.col.locks) == Nodes(w)
  }

  lemma WinFirstLock(n: nat, held: Mode, w: nat) returns (acts: seq<Action>)
    requires n >= 2 && QuorumOf(n, held) <= w <= n
    ensures CanRun(Init(n), acts) && WonBy(After(Init(n), acts), n, held, w)
  {
    var s0 := Init(n);
    var begin, s1 := BeginOn(s0, held, "h");
    var up := FirstUp(n, w);
    RunAttempt(s1, 0, up, n);
    RunsCompose(s0, begin, AttemptActions(0, up, n));
    acts := begin + AttemptActions(0, up, n);
    assert s1.clients == [Client(NewMutex(n, RESOURCE), 0, 0, 0, 0)];
    FirstLockIsWon(s1, held, w);
  }

  lemma FirstLockIsWon(s1: Sys, held: Mode, w: nat)
    requires s1.n >= 2 && QuorumOf(s1.n, held) <= w <= s1.n && Begun(s1, 0) && |s1.attempts| == 1
    requires s1.lost == Init(s1.n).lost && s1.clients == [Client(NewMutex(s1.n, RESOURCE), 0, 0, 0, 0)]
    requires forall x :: 0 <= x < s1.n ==> s1.servers[x] == map[]
    requires var a := s1.attempts[0]; a.client == 0 && a.cfg == Config(s1.n, held, RESOURCE) && a.uid == "h"
    ensures WonBy(Progress(s1, 0, FirstUp(s1.n, w), s1.n), s1.n, held, w)
  {
    var n, up := s1.n, FirstUp(s1.n, w);
    forall x: nat | x < n ensures WouldGrant(s1, 0, up, x) <==> x < w {
      assert s1.servers[x] == map[];
    }
    AttemptOutcome(s1, 0, up, Nodes(w));
    NodesSize(w);
    var s2 := Progress(s1, 0, up, n);
    forall x | 0 <= x < n ensures s2.servers[x] == if x < w then HeldEntry(held) else map[] {
      assert s2.servers[x] == ServedBy(s1, 0, up, x);
      assert s1.servers[x] == map[];
    }
  }

  lemma TakeFirstLock(n: nat, held: Mode, w: nat) returns (acts: seq<Action>)
    requires n >= 2 && QuorumOf(n, held) <= w <= n
    ensures CanRun(Init(n), acts) && HeldBy(After(Init(n), acts), n, held, w)
  {
    var won := WinFirstLock(n, held, w);
    var s2 := After(Init(n), won);
    InitInv(n);
    RunKeepsInv(Init(n), won);
    assert AttemptOk(n, s2.clients, s2.attempts[0]);
    QuorumSizes(n, held, held);
    TwoActions(s2, Return(0), Commit(0));
    var s3 := Apply(Apply(s2, Return(0)), Commit(0));
    RunsCompose(Init(n), won, [Return(0), Commit(0)]);
    acts := won + [Return(0), Commit(0)];
    CommitShows(s2, s3, held, w);
  }

  lemma CommitShows(s2: Sys, s3: Sys, held: Mode, w: nat)
    requires |s2.clients| == 1 && |s2.attempts| == 1 && s2.n >= 2 && w >= 1
    requires s2.clients[0] == Client(NewMutex(s2.n, RESOURCE), 0, 0, 0, 0)
    requires var a := s2.attempts[0];
      a.cfg.mode == held && a.client == 0 && a.uid == "h" && AttemptOk(s2.n, s2.clients, a)
      && LockedNodes(a.col.locks) == Nodes(w)
    requires s3.clients == [Committed(s2.clients[0], held, s2.attempts[0].col.locks)]
    ensures Holds(s3, HolderOf(held))
    ensures VectorOf(s3, HolderOf(held)) == s2.attempts[0].col.locks
    ensures forall x :: 0 <= x < w ==> x < s2.n && VectorOf(s3, HolderOf(held))[x] == "h"
  {
    var locks := s2.attempts[0].col.locks;
    CountIsSize(locks);
    NodesSize(w);
    forall x | 0 <= x < w ensures x < s2.n && locks[x] == "h" {
      assert x in LockedNodes(locks);
    }
  }

  /** After k crashes the nodes 0..k-1 and w..n-1 are free for a second lock. */
  lemma WinSecondLock(s: Sys, n: nat, held: Mode, w: nat, k: nat, wanted: Mode) returns (acts: seq<Action>)
    requires n >= 2 && k <= w <= n && Conflict(held, wanted) && w - k <= n - QuorumOf(n, wanted)
    requires s.n == n == |s.servers| && |s.clients| == |s.attempts| == 1
    requires forall x :: 0 <= x < n ==> s.servers[x] == if k <= x < w then HeldEntry(held) else map[]
    ensures CanRun(s, acts)
    ensures var s' := After(s, acts);
      && s'.lost == s.lost && |s'.clients| == 2 && s'.clients[0] == s.clients[0]
      && |s'.attempts| == 2 && s'.attempts[0] == s.attempts[0]
      && s'.attempts[1].cfg == Config(n, wanted, RESOURCE) && s'.attempts[1].uid == "n"
      && s'.attempts[1].col.quorum
  {
    var begin, s2 := BeginOn(s, wanted, "n");
    var up := FirstUp(n, n);
    var granting := Nodes(n) - (Nodes(w) - Nodes(k));
    forall x: nat ensures x in granting <==> x < n && WouldGrant(s2, 1, up, x) {
      if x < n {
        SecondGrants(s2, n, held, w, k, wanted, up, x);
      }
    }
    RunAttempt(s2, 1, up, n);
    FreeNodes(n, w, k);
    AttemptOutcome(s2, 1, up, granting);
    RunsCompose(s, begin, AttemptActions(1, up, n));
    acts := begin + AttemptActions(1, up, n);
    assert s2.attempts[0] == s2.attempts[..1][0];
  }

  lemma TakeSecondLock(s: Sys, n: nat, held: Mode, w: nat, k: nat, wanted: Mode) returns (acts: seq<Action>)
    requires n >= 2 && k <= w <= n && HeldBy(s, n, held, w) && Conflict(held, wanted)
    requires w - k <= n - QuorumOf(n, wanted)
    ensures CanRun(s, acts)
    ensures var s' := After(s, acts);
      && Holds(s', HolderOf(held)) && |Surviving(s', HolderOf(held))| == w - k
      && |s'.attempts| == 2 && Rivals(s', HolderOf(held), 1)
      && s'.attempts[1].cfg.mode == wanted && s'.attempts[1].col.quorum
      && DistinctUids(s')
  {
    var crashes := RunCrashes(s, k);
    var s1 := Crashed(s, k);
    var second := WinSecondLock(s1, n, held, w, k, wanted);
    RunsCompose(s, crashes, second);
    acts := crashes + second;
    var s2 := After(s1, second);
    SurvivingNodes(s, s2, n, held, w, k);
    RivalWins(s2, held, wanted);
  }

  lemma RivalWins(s: Sys, held: Mode, wanted: Mode)
    requires Conflict(held, wanted) && Holds(s, HolderOf(held)) && s.clients[0].mu.name == RESOURCE
    requires |s.attempts| == 2 && s.attempts[0].uid == "h" && s.attempts[1].uid == "n"
    requires s.attempts[1].cfg.mode == wanted && s.attempts[1].cfg.name == RESOURCE
    ensures Rivals(s, HolderOf(held), 1) && DistinctUids(s)
  {
    assert "h"[0] != "n"[0];
  }

  lemma SecondGrants(s: Sys, n: nat, held: Mode, w: nat, k: nat, wanted: Mode, up: seq<bool>, x: nat)
    requires k <= w <= n && x < n == |s.servers| == |up| && |s.attempts| == 2 && up[x] && Conflict(held, wanted)
    requires s.servers[x] == if k <= x < w then HeldEntry(held) else map[]
    requires s.attempts[1].cfg == Config(n, wanted, RESOURCE)
    ensures WouldGrant(s, 1, up, x) <==> !(k <= x < w)
  {
  }

  lemma Difference(a: set<nat>, b: set<nat>)
    requires a <= b
    ensures |b - a| == |b| - |a|
  {
    assert b == (b - a) + a;
  }

  lemma FreeNodes(n: nat, w: nat, k: nat)
    requires k <= w <= n
    ensures |Nodes(n) - (Nodes(w) - Nodes(k))| == n - (w - k)
    ensures |Nodes(w) - Nodes(k)| == w - k
  {
    NodesSize(n);
    NodesSize(w);
    NodesSize(k);
    Difference(Nodes(k), Nodes(w));
    Difference(Nodes(w) - Nodes(k), Nodes(n));
  }

  lemma SurvivingNodes(s: Sys, s': Sys, n: nat, held: Mode, w: nat, k: nat)
    requires k <= w <= n && HeldBy(s, n, held, w)
    requires s'.clients != [] && s'.clients[0] == s.clients[0]
    requires |s'.lost| == n
    requires forall x :: 0 <= x < n ==> s'.lost[x] == if x < k then s.lost[x] + Uids(s.servers[x]) else s.lost[x]
    ensures Holds(s', HolderOf(held)) && |Surviving(s', HolderOf(held))| == w - k
  {
    var h := HolderOf(held);
    assert VectorOf(s', h) == VectorOf(s, h);
    forall x: nat | x < k ensures "h" in s'.lost[x] {
      assert s.servers[x][RESOURCE][0].uid == "h";
    }
    assert Surviving(s', h) == Nodes(w) - Nodes(k);
    FreeNodes(n, w, k);
  }

  /** Crash tolerance is exact, for every node count, every pair of conflicting modes,
      every number of grants and every number of lost ones. */
  lemma CrashToleranceIsExact(n: nat, held: Mode, w: nat, k: nat, wanted: Mode)
    requires n >= 2 && Conflict(held, wanted)
    requires QuorumOf(n, held) <= w <= n && k <= w
    ensures (exists st :: TooEarly(n, held, w, k, wanted, st)) <==> w - k <= n - QuorumOf(n, wanted)
  {
    if w - k <= n - QuorumOf(n, wanted) {
      var before := TakeFirstLock(n, held, w);
      var s := After(Init(n), before);
      var since := TakeSecondLock(s, n, held, w, k, wanted);
      CommittedHolderStays(s, since, HolderOf(held));
      NodesSize(w);
      assert TooEarly(n, held, w, k, wanted, Story(before, since, HolderOf(held), 1));
    }
    forall st | TooEarly(n, held, w, k, wanted, st) ensures w - k <= n - QuorumOf(n, wanted) {
      var s := After(Init(n), st.before);
      InitInv(n);
      RunKeepsInv(Init(n), st.before);
      RunKeepsInv(s, st.since);
      assert AttemptOk(n, After(s, st.since).clients, After(s, st.since).attempts[st.rival]);
      if w - k > n - QuorumOf(n, wanted) {
        SurvivorsExclude(s, st.since, st.holder, st.rival);
      }
    }
  }

  /** The smallest write quorum: with an even node count one crash is survived and
      two are not, with an odd one not even one is. */
  lemma SmallestQuorumTolerance(n: nat, k: nat)
    requires n >= 2 && k <= WriteQuorum(n)
    ensures (exists st :: TooEarly(n, Write, WriteQuorum(n), k, Write, st)) <==> k >= if n % 2 == 0 then 2 else 1
  {
    QuorumSizes(n, Write, Write);
    CrashToleranceIsExact(n, Write, WriteQuorum(n), k, Write);
  }
}
