/** When an attempt can succeed at all: the reply channel never blocks it, and the
    number of nodes that are down or in the way decides it. */
module Availability {
  import opened Counting
  import opened Quorum
  import opened UidServer
  import opened Collector
  import opened Protocol
  import opened Backing

  // ---------------------------------------------------------------- the channel

  /** An RPC that has not returned, executed or not, finds the channel open and with
      room; a collector that still expects replies finds one in the channel, or one is
      still to be sent, and after the close they are all there, so the zero value of the
      closed channel is never read; when all were taken nothing is left. */
  predicate Disciplined(n: nat, a: Attempt) {
    && |Out(a)| + |a.ch| + a.col.received == n
    && (Out(a) != {} ==> !a.closed && |a.ch| < n)
    && (a.col.received < n ==> a.ch != [] || Out(a) != {})
    && (a.closed && a.col.received < n ==> a.ch != [])
    && (a.col.received == n ==> a.ch == [] && Out(a) == {} && a.col.done)
  }

  lemma AttemptIsDisciplined(n: nat, clients: seq<Client>, a: Attempt)
    requires AttemptOk(n, clients, a)
    ensures Disciplined(n, a)
  {
    if Out(a) != {} {
      var x :| x in Out(a);
      assert |Out(a)| == |Out(a) - {x}| + 1;
    }
  }

  /** The next receive, the timer, the RPCs still out, the return and the commit can go
      ahead whenever they are due. */
  predicate NeverStuck(s: Sys, i: nat)
    requires i < |s.attempts|
  {
    var a := s.attempts[i];
    && (CanTake(s, i) <==> a.ch != [])
    && (CanExpire(s, i) <==> !a.col.done)
    && (forall x :: x in a.pending ==> CanAnswer(s, i, x))
    && (forall x :: x in a.granting + a.refusing ==> CanArrive(s, i, x))
    && (CanReturn(s, i) <==> Out(a) == {} && a.col.done && !a.closed)
    && (CanCommit(s, i) <==> a.closed && a.col.quorum && !a.committed)
  }

  lemma AttemptIsNeverStuck(s: Sys, i: nat)
    requires Shape(s) && i < |s.attempts|
    ensures NeverStuck(s, i)
  {
    var a := s.attempts[i];
    assert AttemptOk(s.n, s.clients, a);
    if a.ch != [] {
      TakeOk(s.n, s.clients, a);
    }
    NothingOut(a);
    assert forall x :: x in a.pending ==> x in Out(a);
  }

  lemma NothingOut(a: Attempt)
    ensures Out(a) == {} <==> a.pending == a.granting == a.refusing == {}
  {
    assert a.pending <= Out(a) && a.granting <= Out(a) && a.refusing <= Out(a);
  }

  /** Channel discipline in every reachable state of every run. */
  lemma ChannelDiscipline(n: nat, acts: seq<Action>, i: nat)
    requires n >= 2 && CanRun(Init(n), acts) && i < |After(Init(n), acts).attempts|
    ensures Disciplined(n, After(Init(n), acts).attempts[i]) && NeverStuck(After(Init(n), acts), i)
  {
    InitInv(n);
    RunKeepsInv(Init(n), acts);
    var s := After(Init(n), acts);
    assert AttemptOk(n, s.clients, s.attempts[i]);
    AttemptIsDisciplined(n, s.clients, s.attempts[i]);
    AttemptIsNeverStuck(s, i);
  }

  /** Replies overtake one another: of two under way either may be received first,
      whatever the order of execution. */
  lemma RepliesOvertake(s: Sys, i: nat, x: nat, y: nat)
    requires CanArrive(s, i, x) && CanArrive(s, i, y) && x != y
    ensures CanArrive(ReplyArrives(s, i, x, false), i, y)
    ensures var a := s.attempts[i];
      var g := Granted(x, if x in a.granting then a.uid else "");
      var h := Granted(y, if y in a.granting then a.uid else "");
      ReplyArrives(ReplyArrives(s, i, x, false), i, y, false).attempts[i].ch == a.ch + [g, h]
  {
  }

  // ---------------------------------------------------------------- the threshold

  /** This server has an entry that conflicts with the mode. */
  predicate InTheWay(m: LockMap, mode: Mode, name: string) {
    name in m && (mode.Write? || IsWriteLock(m[name]))
  }

  /** What is in the way is what the lock handler refuses. */
  lemma InTheWayIsRefused(m: LockMap, mode: Mode, name: string, uid: string, now: int)
    requires WellFormed(m)
    ensures InTheWay(m, mode, name) <==> !Acquire(m, mode, name, uid, now).1
    ensures InTheWay(m, mode, name) <==> exists md, u :: Conflict(mode, md) && EntryCount(m, name, md, u) > 0
  {
    AcquireEffect(m, mode, name, uid, now);
  }

  /** For attempt b the nodes in `down` fail, before or after they execute the request;
      the others answer, with a conflicting entry in place when they execute it exactly
      if they are in `held`; and the timer does not fire. */
  predicate Undisturbed(s: Sys, act: Action, b: nat, down: set<nat>, held: set<nat>)
    requires Enabled(s, act)
  {
    match act
    case Expire(i) => i != b
    case Fail(i, x, _) => i == b ==> x in down
    case Arrives(i, x, lost) => i == b ==> (lost <==> x in down)
    case Serve(i, x, _) => i == b && x !in down ==>
      (InTheWay(s.servers[x], s.attempts[i].cfg.mode, s.attempts[i].cfg.name) <==> x in held)
    case _ => true
  }

  predicate Steady(s: Sys, acts: seq<Action>, b: nat, down: set<nat>, held: set<nat>)
    requires CanRun(s, acts)
    decreases |acts|
  {
    acts == [] || (Undisturbed(s, acts[0], b, down, held) && Steady(Apply(s, acts[0]), acts[1..], b, down, held))
  }

  function InChannel(ch: seq<Granted>): set<nat> {
    set k | 0 <= k < |ch| :: ch[k].index
  }

  /** The nodes whose reply the collector has not taken. */
  function Open(a: Attempt): set<nat> {
    Out(a) + InChannel(a.ch)
  }

  /** The replies are refusals exactly for the nodes in `down` and `held`, and the
      collector has counted those that it has taken. */
  predicate Tally(a: Attempt, down: set<nat>, held: set<nat>) {
    && IsLocked(a.uid)
    && (forall x :: x in a.granting ==> x in down || x !in held)
    && (forall x :: x in a.refusing ==> x in down || x in held)
    && (forall k :: 0 <= k < |a.ch| ==> (a.ch[k].lockUID == "" <==> a.ch[k].index in down + held))
    && (!a.col.done ==> a.col.failed == |(down + held) - Open(a)|)
    && (a.col.done ==> (a.col.quorum <==> |down + held| <= a.cfg.n - a.cfg.Quorum()))
  }

  lemma TallyOfBegin(s: Sys, c: nat, mode: Mode, uid: string, down: set<nat>, held: set<nat>)
    requires c < |s.clients| && IsLocked(uid) && down + held <= Nodes(s.n)
    ensures Tally(BeginAttempt(s, c, mode, uid).attempts[|s.attempts|], down, held)
  {
    assert (down + held) - Nodes(s.n) == {};
  }

  lemma TallyOfExecuted(a: Attempt, x: nat, granted: bool, down: set<nat>, held: set<nat>)
    requires Tally(a, down, held) && x in a.pending
    requires x !in down ==> (granted <==> x !in held)
    ensures Tally(Executed(a, x, granted), down, held)
  {
    assert Open(Executed(a, x, granted)) == Open(a);
  }

  lemma TallyOfReturned(a: Attempt, x: nat, granted: bool, down: set<nat>, held: set<nat>)
    requires Tally(a, down, held) && x in Out(a)
    requires granted <==> x !in down + held
    ensures Tally(Returned(a, x, granted), down, held)
  {
    var a' := Returned(a, x, granted);
    OutReturned(a, x, granted);
    assert a'.ch[|a.ch|].index == x;
    assert forall k :: 0 <= k < |a.ch| ==> a'.ch[k] == a.ch[k];
    assert Open(a') == Open(a);
  }

  lemma InChannelHead(ch: seq<Granted>)
    requires ch != [] && forall j, k :: 0 <= j < k < |ch| ==> ch[j].index != ch[k].index
    ensures InChannel(ch) == InChannel(ch[1..]) + {ch[0].index} && ch[0].index !in InChannel(ch[1..])
  {
    assert forall k :: 1 <= k < |ch| ==> ch[k] == ch[1..][k - 1];
  }

  /** One more node is no longer open. */
  lemma OneLess(blocked: set<nat>, open: set<nat>, x: nat)
    requires x !in open
    ensures |blocked - open| == |blocked - (open + {x})| + (if x in blocked then 1 else 0)
  {
    if x in blocked {
      assert blocked - open == (blocked - (open + {x})) + {x};
    } else {
      assert blocked - open == blocked - (open + {x});
    }
  }

  lemma OpenShrinks(a: Attempt, a': Attempt, blocked: set<nat>)
    requires ChannelOk(a) && a.ch != [] && Out(a') == Out(a) && a'.ch == a.ch[1..]
    ensures |blocked - Open(a')| == |blocked - Open(a)| + (if a.ch[0].index in blocked then 1 else 0)
  {
    InChannelHead(a.ch);
    OneLess(blocked, Open(a'), a.ch[0].index);
    assert Open(a) == Open(a') + {a.ch[0].index};
  }

  lemma TallyOfTake(n: nat, clients: seq<Client>, a: Attempt, down: set<nat>, held: set<nat>)
    requires n >= 2 && AttemptOk(n, clients, a) && a.ch != [] && Tally(a, down, held)
    requires Accepts(a.cfg, a.col, Reply(a.ch[0]))
    ensures Tally(a.(ch := a.ch[1..], col := Step(a.cfg, a.col, Reply(a.ch[0])).0), down, held)
  {
    var ev, blocked := Reply(a.ch[0]), down + held;
    var a' := a.(ch := a.ch[1..], col := Step(a.cfg, a.col, ev).0);
    assert forall k :: 0 <= k < |a'.ch| ==> a'.ch[k] == a.ch[k + 1];
    TakeOk(n, clients, a);
    if a.col.done {
      StepOk(a.cfg, a.col, ev);
    } else {
      AbortStep(a.cfg, a.col, ev);
      StepOk(a.cfg, a.col, ev);
      OpenShrinks(a, a', blocked);
      SubsetSize(blocked - Open(a'), blocked);
      if a'.col.received == n {
        AttemptIsDisciplined(n, clients, a');
        assert blocked - Open(a') == blocked;
      }
    }
  }

  lemma TallyOfServe(s: Sys, b: nat, x: nat, now: int, down: set<nat>, held: set<nat>)
    requires Shape(s) && CanAnswer(s, b, x) && Tally(s.attempts[b], down, held)
    requires Undisturbed(s, Serve(b, x, now), b, down, held)
    ensures Tally(ServeRequest(s, b, x, now).attempts[b], down, held)
  {
    var a := s.attempts[b];
    InTheWayIsRefused(s.servers[x], a.cfg.mode, a.cfg.name, a.uid, now);
    TallyOfExecuted(a, x, Acquire(s.servers[x], a.cfg.mode, a.cfg.name, a.uid, now).1, down, held);
  }

  lemma TallyOfArrives(s: Sys, b: nat, x: nat, lost: bool, down: set<nat>, held: set<nat>)
    requires Shape(s) && CanArrive(s, b, x) && Tally(s.attempts[b], down, held)
    requires lost <==> x in down
    ensures Tally(ReplyArrives(s, b, x, lost).attempts[b], down, held)
  {
    var a := s.attempts[b];
    assert AttemptOk(s.n, s.clients, a);
    TallyOfReturned(a, x, x in a.granting && !lost, down, held);
  }

  lemma TallyOfFail(s: Sys, b: nat, x: nat, strays: bool, down: set<nat>, held: set<nat>)
    requires Shape(s) && CanAnswer(s, b, x) && Tally(s.attempts[b], down, held) && x in down
    ensures Tally(FailRequest(s, b, x, strays).attempts[b], down, held)
  {
    TallyOfReturned(s.attempts[b], x, false, down, held);
  }

  lemma TallySame(a: Attempt, a': Attempt, down: set<nat>, held: set<nat>)
    requires Tally(a, down, held) && a' == a.(closed := a'.closed, committed := a'.committed)
    ensures Tally(a', down, held)
  {
    assert Open(a') == Open(a);
  }

  lemma TallyOfOwn(s: Sys, act: Action, b: nat, down: set<nat>, held: set<nat>)
    requires Shape(s) && Enabled(s, act) && b < |s.attempts| && Tally(s.attempts[b], down, held)
    requires Undisturbed(s, act, b, down, held) && MovesReplies(act, b)
    ensures Tally(Apply(s, act).attempts[b], down, held)
  {
    match act
    case Serve(_, x, now) => TallyOfServe(s, b, x, now, down, held);
    case Arrives(_, x, lost) => TallyOfArrives(s, b, x, lost, down, held);
    case Fail(_, x, strays) => TallyOfFail(s, b, x, strays, down, held);
    case Take(_) => TallyOfTake(s.n, s.clients, s.attempts[b], down, held);
  }

  predicate MovesReplies(act: Action, b: nat) {
    (act.Serve? || act.Arrives? || act.Fail? || act.Take?) && act.attempt == b
  }

  lemma OthersLeaveReplies(s: Sys, act: Action, b: nat)
    requires Enabled(s, act) && b < |s.attempts| && !MovesReplies(act, b) && act != Expire(b)
    ensures b < |Apply(s, act).attempts|
    ensures var a, a' := s.attempts[b], Apply(s, act).attempts[b];
      a' == a || a' == a.(closed := true) || a' == a.(committed := true)
  {
  }

  lemma TallyKept(s: Sys, act: Action, b: nat, down: set<nat>, held: set<nat>)
    requires Shape(s) && Enabled(s, act) && b < |s.attempts| && Tally(s.attempts[b], down, held)
    requires Undisturbed(s, act, b, down, held)
    ensures b < |Apply(s, act).attempts| && Tally(Apply(s, act).attempts[b], down, held)
  {
    if MovesReplies(act, b) {
      TallyOfOwn(s, act, b, down, held);
    } else {
      OthersLeaveReplies(s, act, b);
      TallySame(s.attempts[b], Apply(s, act).attempts[b], down, held);
    }
  }

  lemma {:induction false} RunKeepsTally(s: Sys, acts: seq<Action>, b: nat, down: set<nat>, held: set<nat>)
    requires Shape(s) && CanRun(s, acts) && b < |s.attempts| && Tally(s.attempts[b], down, held)
    requires Steady(s, acts, b, down, held)
    ensures Shape(After(s, acts)) && After(s, acts).n == s.n
    ensures b < |After(s, acts).attempts| && Tally(After(s, acts).attempts[b], down, held)
    ensures After(s, acts).attempts[b].cfg == s.attempts[b].cfg
    decreases |acts|
  {
    if acts != [] {
      ShapeKept(s, acts[0]);
      TallyKept(s, acts[0], b, down, held);
      AttemptStepsOn(s, acts[0], b);
      RunKeepsTally(Apply(s, acts[0]), acts[1..], b, down, held);
    }
  }

  // ---------------------------------------------------------------- the vector, and the timer

  /** As long as the attempt has not failed, its vector shows the nodes whose reply was
      taken and that are not blocked; it has its quorum only when all were taken. */
  predicate Filled(a: Attempt, blocked: set<nat>) {
    && (!a.col.done || a.col.quorum ==> LockedNodes(a.col.locks) == (Nodes(a.cfg.n) - Open(a)) - blocked)
    && (a.col.done && a.col.quorum ==> Open(a) == {})
  }

  lemma FilledOfBegin(s: Sys, c: nat, mode: Mode, uid: string, blocked: set<nat>)
    requires c < |s.clients|
    ensures Filled(BeginAttempt(s, c, mode, uid).attempts[|s.attempts|], blocked)
  {
    var a := BeginAttempt(s, c, mode, uid).attempts[|s.attempts|];
    assert Open(a) == Nodes(s.n);
    assert LockedNodes(Blank(s.n)) == {};
  }

  lemma FilledSame(a: Attempt, a': Attempt, blocked: set<nat>)
    requires Filled(a, blocked) && a'.col == a.col && a'.cfg == a.cfg && Open(a') == Open(a)
    ensures Filled(a', blocked)
  {
  }

  lemma OpenReturned(a: Attempt, x: nat, granted: bool)
    requires x in Out(a)
    ensures Open(Returned(a, x, granted)) == Open(a)
  {
    var a' := Returned(a, x, granted);
    OutReturned(a, x, granted);
    assert a'.ch[|a.ch|].index == x;
    assert forall k :: 0 <= k < |a.ch| ==> a'.ch[k] == a.ch[k];
  }

  lemma OpenExecuted(a: Attempt, x: nat, granted: bool)
    requires x in a.pending
    ensures Open(Executed(a, x, granted)) == Open(a)
  {
  }

  /** One more slot is filled, or one more refusal counted. */
  lemma SlotFilled(locks: seq<string>, x: nat, uid: string, nodes: set<nat>, open: set<nat>, blocked: set<nat>)
    requires x < |locks| && x in nodes && x in open && (uid == "" <==> x in blocked)
    requires LockedNodes(locks) == (nodes - open) - blocked
    ensures LockedNodes(if IsLocked(uid) then locks[x := uid] else locks) == (nodes - (open - {x})) - blocked
  {
    if IsLocked(uid) {
      assert LockedNodes(locks[x := uid]) == LockedNodes(locks) + {x};
      assert (nodes - (open - {x})) - blocked == ((nodes - open) - blocked) + {x};
    } else {
      assert uid == "";
      assert (nodes - (open - {x})) - blocked == (nodes - open) - blocked;
    }
  }

  lemma FilledOfTake(n: nat, clients: seq<Client>, a: Attempt, down: set<nat>, held: set<nat>)
    requires n >= 2 && AttemptOk(n, clients, a) && a.ch != [] && Tally(a, down, held) && Filled(a, down + held)
    requires Accepts(a.cfg, a.col, Reply(a.ch[0]))
    ensures Filled(a.(ch := a.ch[1..], col := Step(a.cfg, a.col, Reply(a.ch[0])).0), down + held)
  {
    var g := a.ch[0];
    var a' := a.(ch := a.ch[1..], col := Step(a.cfg, a.col, Reply(g)).0);
    TakeOk(n, clients, a);
    InChannelHead(a.ch);
    assert g.index in Open(a) && Open(a') == Open(a) - {g.index};
    StepOk(a.cfg, a.col, Reply(g));
    if !a.col.done && (!a'.col.done || a'.col.quorum) {
      VectorStep(a.cfg, a.col, g);
      SlotFilled(a.col.locks, g.index, g.lockUID, Nodes(n), Open(a), down + held);
      AbortStep(a.cfg, a.col, Reply(g));
      if a'.col.done {
        AttemptIsDisciplined(n, clients, a');
        assert a'.col.received == n;
      }
    }
  }

  lemma FilledOfOwn(s: Sys, act: Action, b: nat, down: set<nat>, held: set<nat>)
    requires Shape(s) && Enabled(s, act) && b < |s.attempts| && Tally(s.attempts[b], down, held)
    requires Filled(s.attempts[b], down + held) && MovesReplies(act, b)
    ensures Filled(Apply(s, act).attempts[b], down + held)
  {
    var a := s.attempts[b];
    match act
    case Serve(_, x, now) =>
      var granted := Acquire(s.servers[x], a.cfg.mode, a.cfg.name, a.uid, now).1;
      OpenExecuted(a, x, granted);
      FilledSame(a, Executed(a, x, granted), down + held);
    case Arrives(_, x, lost) =>
      OpenReturned(a, x, x in a.granting && !lost);
      FilledSame(a, Returned(a, x, x in a.granting && !lost), down + held);
    case Fail(_, x, _) =>
      OpenReturned(a, x, false);
      FilledSame(a, Returned(a, x, false), down + held);
    case Take(_) => FilledOfTake(s.n, s.clients, a, down, held);
  }

  lemma FilledKept(s: Sys, act: Action, b: nat, down: set<nat>, held: set<nat>)
    requires Shape(s) && Enabled(s, act) && b < |s.attempts| && Tally(s.attempts[b], down, held)
    requires Filled(s.attempts[b], down + held) && act != Expire(b)
    ensures b < |Apply(s, act).attempts| && Filled(Apply(s, act).attempts[b], down + held)
  {
    if MovesReplies(act, b) {
      FilledOfOwn(s, act, b, down, held);
    } else {
      OthersLeaveReplies(s, act, b);
      assert Open(Apply(s, act).attempts[b]) == Open(s.attempts[b]);
      FilledSame(s.attempts[b], Apply(s, act).attempts[b], down + held);
    }
  }

  lemma {:induction false} RunFills(s: Sys, acts: seq<Action>, b: nat, down: set<nat>, held: set<nat>)
    requires Shape(s) && CanRun(s, acts) && b < |s.attempts| && Tally(s.attempts[b], down, held)
    requires Filled(s.attempts[b], down + held) && Steady(s, acts, b, down, held)
    ensures b < |After(s, acts).attempts| && Filled(After(s, acts).attempts[b], down + held)
    decreases |acts|
  {
    if acts != [] {
      ShapeKept(s, acts[0]);
      TallyKept(s, acts[0], b, down, held);
      FilledKept(s, acts[0], b, down, held);
      RunFills(Apply(s, acts[0]), acts[1..], b, down, held);
    }
  }

  lemma {:induction false} RunKeepsVerdict(s: Sys, acts: seq<Action>, b: nat)
    requires CanRun(s, acts) && b < |s.attempts| && s.attempts[b].col.done
    ensures b < |After(s, acts).attempts|
    ensures var c, c' := s.attempts[b].col, After(s, acts).attempts[b].col;
      c'.done && c'.quorum == c.quorum && c'.locks == c.locks
    decreases |acts|
  {
    if acts != [] {
      AttemptStepsOn(s, acts[0], b);
      VerdictStays(s, acts[0], s.attempts[b], Apply(s, acts[0]).attempts[b]);
      RunKeepsVerdict(Apply(s, acts[0]), acts[1..], b);
    }
  }

  /** The call so far, from its begin on. */
  lemma CallSoFar(s: Sys, c: nat, mode: Mode, uid: string, acts: seq<Action>, down: set<nat>, held: set<nat>)
    requires Inv(s) && c < |s.clients| && IsLocked(uid) && down + held <= Nodes(s.n)
    requires CanRun(BeginAttempt(s, c, mode, uid), acts)
    requires Steady(BeginAttempt(s, c, mode, uid), acts, |s.attempts|, down, held)
    ensures var b, s' := |s.attempts|, After(BeginAttempt(s, c, mode, uid), acts);
      && Shape(s') && s'.n == s.n && b < |s'.attempts| && s'.attempts[b].cfg == Config(s.n, mode, s.clients[c].mu.name)
      && Tally(s'.attempts[b], down, held) && Filled(s'.attempts[b], down + held)
  {
    var s1 := BeginAttempt(s, c, mode, uid);
    ShapeOfBegin(s, c, mode, uid);
    TallyOfBegin(s, c, mode, uid, down, held);
    FilledOfBegin(s, c, mode, uid, down + held);
    RunKeepsTally(s1, acts, |s.attempts|, down, held);
    RunFills(s1, acts, |s.attempts|, down, held);
  }

  /** And with the timer, over every run again: if it fires before the verdict, the call
      has won, from then on and whatever follows, if and only if the nodes whose replies
      were taken by then and that were neither down nor in the way are a quorum; its
      vector then shows exactly these. */
  lemma TimerThreshold(s: Sys, c: nat, mode: Mode, uid: string, acts: seq<Action>, rest: seq<Action>,
                       down: set<nat>, held: set<nat>)
    requires Inv(s) && c < |s.clients| && IsLocked(uid) && down + held <= Nodes(s.n)
    requires CanRun(BeginAttempt(s, c, mode, uid), acts)
    requires Steady(BeginAttempt(s, c, mode, uid), acts, |s.attempts|, down, held)
    requires var s' := After(BeginAttempt(s, c, mode, uid), acts);
      CanExpire(s', |s.attempts|) && CanRun(TimerFires(s', |s.attempts|), rest)
    ensures var b, s' := |s.attempts|, After(BeginAttempt(s, c, mode, uid), acts);
      var granting := (Nodes(s.n) - Open(s'.attempts[b])) - (down + held);
      var s'' := After(TimerFires(s', b), rest);
      && b < |s''.attempts|
      && var col := s''.attempts[b].col;
      && col.done && (col.quorum <==> |granting| >= QuorumOf(s.n, mode))
      && (col.quorum ==> LockedNodes(col.locks) == granting)
  {
    var b, s' := |s.attempts|, After(BeginAttempt(s, c, mode, uid), acts);
    CallSoFar(s, c, mode, uid, acts, down, held);
    var a := s'.attempts[b];
    assert AttemptOk(s'.n, s'.clients, a);
    TimerVerdict(a.cfg, a.col, (Nodes(s.n) - Open(a)) - (down + held));
    RunKeepsVerdict(TimerFires(s', b), rest, b);
  }

  /** The availability threshold, over every run from the begin of an attempt on, among
      any other traffic: a call that has returned has won if and only if at most n
      minus its quorum nodes were down or in the way. */
  lemma AvailabilityThreshold(s: Sys, c: nat, mode: Mode, uid: string, acts: seq<Action>,
                              down: set<nat>, held: set<nat>)
    requires Inv(s) && c < |s.clients| && IsLocked(uid) && down + held <= Nodes(s.n)
    requires CanRun(BeginAttempt(s, c, mode, uid), acts)
    requires Steady(BeginAttempt(s, c, mode, uid), acts, |s.attempts|, down, held)
    ensures var s' := After(BeginAttempt(s, c, mode, uid), acts);
      && |s.attempts| < |s'.attempts|
      && var a := s'.attempts[|s.attempts|];
      && (a.closed || a.col.received == s.n ==> a.col.done)
      && (a.col.done ==> (a.col.quorum <==> |down + held| <= s.n - QuorumOf(s.n, mode)))
      && (a.col.done && a.col.quorum ==> LockedNodes(a.col.locks) == Nodes(s.n) - (down + held))
  {
    CallSoFar(s, c, mode, uid, acts, down, held);
    var b, s' := |s.attempts|, After(BeginAttempt(s, c, mode, uid), acts);
    assert AttemptOk(s.n, s'.clients, s'.attempts[b]);
  }
}
