/** Nothing wedges: from every reachable state, whatever has failed before, the system
    can be brought to rest by actions in which nothing fails. */
module Completion {
  import opened Counting
  import opened Quorum
  import opened Collector
  import opened ClientMutex
  import opened Protocol
  import opened Backing
  import opened Availability
  import opened Quiescence

  // ---------------------------------------------------------------- attempts

  predicate Finished(n: nat, a: Attempt) {
    a.closed && a.col.received == n && (a.col.quorum ==> a.committed)
  }

  predicate AllFinished(s: Sys) {
    forall i :: 0 <= i < |s.attempts| ==> Finished(s.n, s.attempts[i])
  }

  /** How many steps an attempt has before it, at most. */
  function Weight(): Attempt -> nat {
    (a: Attempt) => 3 * |a.pending| + 2 * (|a.granting| + |a.refusing|) + |a.ch|
                    + (if a.closed then 0 else 1) + (if a.committed then 0 else 1)
  }

  function TotalWeight(s: Sys): nat {
    Sum(s.attempts, Weight())
  }

  lemma RemoveOne(x: nat, xs: set<nat>)
    requires x in xs
    ensures |xs - {x}| == |xs| - 1
  {
  }

  lemma ServeWeighs(a: Attempt, x: nat, granted: bool)
    requires x in a.pending && x !in a.granting && x !in a.refusing
    ensures Weight()(Executed(a, x, granted)) < Weight()(a)
  {
    RemoveOne(x, a.pending);
  }

  lemma ArriveWeighs(a: Attempt, x: nat, granted: bool)
    requires x in a.granting + a.refusing && x !in a.pending && a.granting !! a.refusing
    ensures Weight()(Returned(a, x, granted)) < Weight()(a)
  {
    assert a.pending - {x} == a.pending;
    if x in a.granting {
      RemoveOne(x, a.granting);
      assert a.refusing - {x} == a.refusing;
    } else {
      RemoveOne(x, a.refusing);
      assert a.granting - {x} == a.granting;
    }
  }

  /** An action on which nothing fails and no call begins. */
  predicate Winding(act: Action) {
    Clean(act) && !act.Begin?
  }

  predicate AllWinding(acts: seq<Action>) {
    forall k :: 0 <= k < |acts| ==> Winding(acts[k])
  }

  lemma Lighter(s: Sys, i: nat, s': Sys)
    requires i < |s.attempts| && |s'.attempts| == |s.attempts| && s'.attempts == s.attempts[i := s'.attempts[i]]
    requires Weight()(s'.attempts[i]) < Weight()(s.attempts[i])
    ensures TotalWeight(s') < TotalWeight(s)
  {
    SumUpdate(s.attempts, i, s'.attempts[i], Weight());
  }

  lemma ServeGoesOn(s: Sys, i: nat, x: nat)
    requires CanAnswer(s, i, x) && x !in s.attempts[i].granting && x !in s.attempts[i].refusing
    ensures TotalWeight(ServeRequest(s, i, x, 0)) < TotalWeight(s)
  {
    var a := s.attempts[i];
    ServeWeighs(a, x, UidServer.Acquire(s.servers[x], a.cfg.mode, a.cfg.name, a.uid, 0).1);
    Lighter(s, i, ServeRequest(s, i, x, 0));
  }

  lemma ArriveGoesOn(s: Sys, i: nat, x: nat)
    requires CanArrive(s, i, x) && x !in s.attempts[i].pending && s.attempts[i].granting !! s.attempts[i].refusing
    ensures TotalWeight(ReplyArrives(s, i, x, false)) < TotalWeight(s)
  {
    ArriveWeighs(s.attempts[i], x, x in s.attempts[i].granting && !false);
    Lighter(s, i, ReplyArrives(s, i, x, false));
  }

  lemma OneSide(s: Sys, i: nat, x: nat)
    requires Inv(s) && i < |s.attempts| && x in Out(s.attempts[i])
    ensures var a := s.attempts[i];
      && x < |s.servers| && a.granting !! a.refusing
      && (x in a.pending <==> x !in a.granting && x !in a.refusing)
  {
    var a := s.attempts[i];
    assert AttemptOk(s.n, s.clients, a);
  }

  /** An RPC that is out goes on. */
  lemma RpcGoesOn(s: Sys, i: nat) returns (act: Action)
    requires Inv(s) && i < |s.attempts| && Out(s.attempts[i]) != {}
    ensures Enabled(s, act) && Winding(act) && TotalWeight(Apply(s, act)) < TotalWeight(s)
  {
    var a := s.attempts[i];
    var x :| x in Out(a);
    OneSide(s, i, x);
    if x in a.pending {
      act := Serve(i, x, 0);
      ServeGoesOn(s, i, x);
    } else {
      act := Arrives(i, x, false);
      ArriveGoesOn(s, i, x);
    }
  }

  lemma TakeGoesOn(s: Sys, i: nat)
    requires CanTake(s, i)
    ensures TotalWeight(TakeReply(s, i)) < TotalWeight(s)
  {
    Lighter(s, i, TakeReply(s, i));
  }

  lemma ReturnGoesOn(s: Sys, i: nat)
    requires CanReturn(s, i)
    ensures TotalWeight(ReturnFrom(s, i)) < TotalWeight(s)
  {
    Lighter(s, i, ReturnFrom(s, i));
  }

  lemma CommitGoesOn(s: Sys, i: nat)
    requires CanCommit(s, i)
    ensures TotalWeight(CommitVector(s, i)) < TotalWeight(s)
  {
    Lighter(s, i, CommitVector(s, i));
  }

  /** With all RPCs back the collector, the caller, or the mutex object goes on. */
  lemma CallGoesOn(s: Sys, i: nat) returns (act: Action)
    requires Inv(s) && i < |s.attempts| && Out(s.attempts[i]) == {} && !Finished(s.n, s.attempts[i])
    ensures Enabled(s, act) && Winding(act) && TotalWeight(Apply(s, act)) < TotalWeight(s)
  {
    var a := s.attempts[i];
    assert AttemptOk(s.n, s.clients, a);
    AttemptIsNeverStuck(s, i);
    AttemptIsDisciplined(s.n, s.clients, a);
    if a.ch != [] {
      act := Take(i);
      TakeGoesOn(s, i);
    } else if !a.closed {
      act := Return(i);
      ReturnGoesOn(s, i);
    } else {
      act := Commit(i);
      CommitGoesOn(s, i);
    }
  }

  lemma WindOn(s: Sys, act: Action, rest: seq<Action>) returns (acts: seq<Action>)
    requires Enabled(s, act) && Winding(act) && CanRun(Apply(s, act), rest) && AllWinding(rest)
    ensures CanRun(s, acts) && AllWinding(acts) && After(s, acts) == After(Apply(s, act), rest)
  {
    RunOne(s, act);
    RunsCompose(s, [act], rest);
    acts := [act] + rest;
  }

  lemma {:induction false} FinishAttempts(s: Sys) returns (acts: seq<Action>)
    requires Inv(s)
    ensures CanRun(s, acts) && AllWinding(acts) && Inv(After(s, acts)) && AllFinished(After(s, acts))
    decreases TotalWeight(s)
  {
    if AllFinished(s) {
      acts := [];
    } else {
      var i :| 0 <= i < |s.attempts| && !Finished(s.n, s.attempts[i]);
      var act;
      if Out(s.attempts[i]) != {} {
        act := RpcGoesOn(s, i);
      } else {
        act := CallGoesOn(s, i);
      }
      InvKept(s, act);
      var rest := FinishAttempts(Apply(s, act));
      acts := WindOn(s, act, rest);
    }
  }

  // ---------------------------------------------------------------- mutex objects

  function Locks(): Client -> nat {
    (c: Client) => |c.mu.readersLocks| + (if CountLocked(c.mu.writeLocks) > 0 then 1 else 0)
  }

  predicate AllUnlocked(s: Sys) {
    forall c :: 0 <= c < |s.clients| ==> !CanUnlock(s.clients[c].mu, Write) && !CanUnlock(s.clients[c].mu, Read)
  }

  lemma UnlockWeighs(s: Sys, c: nat, mode: Mode)
    requires Inv(s) && CanUnlockClient(s, c, mode)
    ensures Sum(UnlockClient(s, c, mode).clients, Locks()) < Sum(s.clients, Locks())
  {
    CountBlank(s.n);
    SumUpdate(s.clients, c, Unlocked(s.clients[c], mode), Locks());
  }

  /** A lock that is held is unlocked. */
  lemma UnlockGoesOn(s: Sys) returns (act: Action)
    requires Inv(s) && AllFinished(s) && !AllUnlocked(s)
    ensures Enabled(s, act) && Winding(act) && Inv(Apply(s, act)) && AllFinished(Apply(s, act))
    ensures Sum(Apply(s, act).clients, Locks()) < Sum(s.clients, Locks())
  {
    var c :| 0 <= c < |s.clients| && (CanUnlock(s.clients[c].mu, Write) || CanUnlock(s.clients[c].mu, Read));
    var mode := if CanUnlock(s.clients[c].mu, Write) then Write else Read;
    act := Unlock(c, mode);
    UnlockWeighs(s, c, mode);
    InvKept(s, act);
  }

  lemma {:induction false} UnlockAll(s: Sys) returns (acts: seq<Action>)
    requires Inv(s) && AllFinished(s)
    ensures CanRun(s, acts) && AllWinding(acts) && Inv(After(s, acts))
    ensures AllFinished(After(s, acts)) && AllUnlocked(After(s, acts))
    decreases Sum(s.clients, Locks())
  {
    if AllUnlocked(s) {
      acts := [];
    } else {
      var act := UnlockGoesOn(s);
      var rest := UnlockAll(Apply(s, act));
      acts := WindOn(s, act, rest);
    }
  }

  // ---------------------------------------------------------------- messages

  lemma {:induction false} DeliverAll(s: Sys) returns (acts: seq<Action>)
    requires Inv(s)
    ensures CanRun(s, acts) && AllWinding(acts)
    ensures var s' := After(s, acts);
      s'.n == s.n && s'.attempts == s.attempts && s'.clients == s.clients && s'.releases == multiset{}
    decreases |s.releases|
  {
    if s.releases == multiset{} {
      acts := [];
    } else {
      var t :| t in s.releases;
      InvKept(s, ServeRelease(t));
      var rest := DeliverAll(Apply(s, ServeRelease(t)));
      acts := WindOn(s, ServeRelease(t), rest);
    }
  }

  // ---------------------------------------------------------------- rest

  lemma ThenAlso(s: Sys, p: seq<Action>, q: seq<Action>)
    requires CanRun(s, p) && CanRun(After(s, p), q) && AllWinding(p) && AllWinding(q)
    ensures CanRun(s, p + q) && AllWinding(p + q) && After(s, p + q) == After(After(s, p), q)
  {
    RunsCompose(s, p, q);
  }

  /** From every state of the invariant there is a way to rest: every call is answered and
      returns, every lock is unlocked and every release delivered, without a failure. */
  lemma RestIsReachable(s: Sys) returns (acts: seq<Action>)
    requires Inv(s)
    ensures CanRun(s, acts) && AllWinding(acts) && Quiescent(After(s, acts))
  {
    var p := FinishAttempts(s);
    var q := UnlockAll(After(s, p));
    ThenAlso(s, p, q);
    var r := DeliverAll(After(s, p + q));
    ThenAlso(s, p + q, r);
    acts := (p + q) + r;
  }

  lemma WindingIsClean(p: seq<Action>, q: seq<Action>)
    requires AllClean(p) && NonEmptyIds(p) && AllWinding(q)
    ensures AllClean(p + q) && NonEmptyIds(p + q)
  {
  }

  lemma AllEmpty(n: nat, acts: seq<Action>)
    requires n >= 2 && CanRun(Init(n), acts) && AllClean(acts) && NonEmptyIds(acts) && Quiescent(After(Init(n), acts))
    ensures After(Init(n), acts).servers == seq(n, _ => map[])
  {
    QuiescenceEmptiesServers(n, acts, 0);
    forall x: nat | x < n ensures After(Init(n), acts).servers[x] == map[] {
      QuiescenceEmptiesServers(n, acts, x);
    }
  }

  /** Every run, with any failures and crashes, can be brought to rest without a further
      failure; and if nothing has failed before and every id was proper, all servers are
      empty then. */
  lemma EveryRunCanComplete(n: nat, acts: seq<Action>) returns (more: seq<Action>)
    requires n >= 2 && CanRun(Init(n), acts)
    ensures AllWinding(more) && CanRun(Init(n), acts + more) && Quiescent(After(Init(n), acts + more))
    ensures AllClean(acts) && NonEmptyIds(acts) ==>
      After(Init(n), acts + more).servers == seq(n, _ => map[])
  {
    InitInv(n);
    RunKeepsInv(Init(n), acts);
    more := RestIsReachable(After(Init(n), acts));
    RunsCompose(Init(n), acts, more);
    if AllClean(acts) && NonEmptyIds(acts) {
      WindingIsClean(acts, more);
      AllEmpty(n, acts + more);
    }
  }
}
