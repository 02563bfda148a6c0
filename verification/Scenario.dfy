/** Runs built on purpose, for any number of nodes: an attempt whose requests are
    served, or fail, node by node, and the crash of a range of nodes. */
module Scenario {
  import opened Counting
  import opened UidServer
  import opened Collector
  import opened Protocol

  /** Attempt i has just begun. */
  predicate Begun(s: Sys, i: nat) {
    && i < |s.attempts| && |s.servers| == s.n
    && var a := s.attempts[i];
       && a.cfg.n == s.n && a.pending == Nodes(s.n) && a.granting == a.refusing == {} && a.ch == []
       && a.col == Start(a.cfg) && !a.closed && !a.committed
  }

  /** Does node x grant attempt i the lock, given which nodes can be reached? */
  predicate WouldGrant(s: Sys, i: nat, up: seq<bool>, x: nat)
    requires i < |s.attempts| && x < |s.servers| && x < |up|
  {
    var a := s.attempts[i];
    up[x] && Acquire(s.servers[x], a.cfg.mode, a.cfg.name, a.uid, 0).1
  }

  function AnswerOf(s: Sys, i: nat, up: seq<bool>, x: nat): Event
    requires i < |s.attempts| && x < |s.servers| && x < |up|
  {
    Reply(Granted(x, if WouldGrant(s, i, up, x) then s.attempts[i].uid else ""))
  }

  function Answers(s: Sys, i: nat, up: seq<bool>, j: nat): (r: seq<Event>)
    requires i < |s.attempts| && j <= |s.servers| && j <= |up|
    ensures |r| == j
  {
    if j == 0 then [] else Answers(s, i, up, j - 1) + [AnswerOf(s, i, up, j - 1)]
  }

  lemma {:induction false} AnswersPossible(s: Sys, i: nat, up: seq<bool>, j: nat)
    requires i < |s.attempts| && j <= |s.servers| && j <= |up| && j <= s.attempts[i].cfg.n
    ensures Possible(s.attempts[i].cfg, Answers(s, i, up, j))
    ensures Answered(Answers(s, i, up, j)) == Nodes(j)
    ensures Timeout !in Answers(s, i, up, j)
  {
    if j > 0 {
      AnswersPossible(s, i, up, j - 1);
      assert Answers(s, i, up, j)[..j - 1] == Answers(s, i, up, j - 1);
    }
  }

  function ServedBy(s: Sys, i: nat, up: seq<bool>, x: nat): LockMap
    requires i < |s.attempts| && x < |s.servers| && x < |up|
  {
    var a := s.attempts[i];
    if up[x] then Acquire(s.servers[x], a.cfg.mode, a.cfg.name, a.uid, 0).0 else s.servers[x]
  }

  /** The state once the first j nodes have answered and their replies were taken. */
  ghost function Progress(s: Sys, i: nat, up: seq<bool>, j: nat): Sys
    requires Begun(s, i) && |up| == s.n && j <= s.n
  {
    AnswersPossible(s, i, up, j);
    var a := s.attempts[i];
    var (col, sent) := Play(a.cfg, Answers(s, i, up, j));
    s.(servers := seq(s.n, x requires 0 <= x < s.n => if x < j then ServedBy(s, i, up, x) else s.servers[x]),
       attempts := s.attempts[i := a.(pending := Nodes(s.n) - Nodes(j), ch := [], col := col)],
       releases := s.releases + multiset(sent))
  }

  lemma ProgressStarts(s: Sys, i: nat, up: seq<bool>)
    requires Begun(s, i) && |up| == s.n
    ensures Progress(s, i, up, 0) == s
  {
    var a := s.attempts[i];
    assert Nodes(s.n) - Nodes(0) == Nodes(s.n);
    assert Progress(s, i, up, 0).servers == s.servers;
    assert Progress(s, i, up, 0).attempts == s.attempts;
    assert s.releases + multiset([]) == s.releases;
  }

  /** The request of node j is executed and answered, or fails. */
  function AnswerActions(i: nat, up: seq<bool>, j: nat): seq<Action>
    requires j < |up|
  {
    if up[j] then [Serve(i, j, 0), Arrives(i, j, false)] else [Fail(i, j, false)]
  }

  function NodeActions(i: nat, up: seq<bool>, j: nat): seq<Action>
    requires j < |up|
  {
    AnswerActions(i, up, j) + [Take(i)]
  }

  /** In between: the answer of node j is in the channel. */
  ghost function Waiting(s: Sys, i: nat, up: seq<bool>, j: nat): Sys
    requires Begun(s, i) && |up| == s.n && j < s.n
  {
    var p, q := Progress(s, i, up, j), Progress(s, i, up, j + 1);
    p.(servers := q.servers,
       attempts := p.attempts[i := p.attempts[i].(pending := Nodes(s.n) - Nodes(j + 1),
                                                  ch := [AnswerOf(s, i, up, j).grant])])
  }

  lemma ProgressServers(s: Sys, i: nat, up: seq<bool>, j: nat)
    requires Begun(s, i) && |up| == s.n && j < s.n
    ensures var p, q := Progress(s, i, up, j), Progress(s, i, up, j + 1);
      p.servers[j] == s.servers[j] && q.servers == p.servers[j := ServedBy(s, i, up, j)]
  {
  }

  /** Executed at once answered: the reply does not stay under way. */
  lemma ServeThenArrive(p: Sys, i: nat, x: nat)
    requires CanAnswer(p, i, x) && p.attempts[i].granting == p.attempts[i].refusing == {}
    ensures var a := p.attempts[i];
      var (m, granted) := Acquire(p.servers[x], a.cfg.mode, a.cfg.name, a.uid, 0);
      var q := ServeRequest(p, i, x, 0);
      && CanArrive(q, i, x)
      && ReplyArrives(q, i, x, false)
         == p.(servers := p.servers[x := m],
               attempts := p.attempts[i := a.(pending := a.pending - {x},
                                              ch := a.ch + [Granted(x, if granted then a.uid else "")])])
  {
    var a := p.attempts[i];
    var (m, granted) := Acquire(p.servers[x], a.cfg.mode, a.cfg.name, a.uid, 0);
    var a' := Executed(a, x, granted);
    assert Returned(a', x, granted)
        == a.(pending := a.pending - {x}, ch := a.ch + [Granted(x, if granted then a.uid else "")]);
  }

  lemma ProgressServe(s: Sys, i: nat, up: seq<bool>, j: nat)
    requires Begun(s, i) && |up| == s.n && j < s.n && up[j]
    ensures CanAnswer(Progress(s, i, up, j), i, j)
    ensures var q := ServeRequest(Progress(s, i, up, j), i, j, 0);
      CanArrive(q, i, j) && ReplyArrives(q, i, j, false) == Waiting(s, i, up, j)
  {
    assert Nodes(s.n) - Nodes(j) - {j} == Nodes(s.n) - Nodes(j + 1);
    assert [] + [AnswerOf(s, i, up, j).grant] == [AnswerOf(s, i, up, j).grant];
    ProgressServers(s, i, up, j);
    ServeThenArrive(Progress(s, i, up, j), i, j);
  }

  lemma ProgressFail(s: Sys, i: nat, up: seq<bool>, j: nat)
    requires Begun(s, i) && |up| == s.n && j < s.n && !up[j]
    ensures CanAnswer(Progress(s, i, up, j), i, j)
    ensures FailRequest(Progress(s, i, up, j), i, j, false) == Waiting(s, i, up, j)
  {
    var p := Progress(s, i, up, j);
    assert Nodes(s.n) - Nodes(j) - {j} == Nodes(s.n) - Nodes(j + 1);
    assert [] + [AnswerOf(s, i, up, j).grant] == [AnswerOf(s, i, up, j).grant];
    ProgressServers(s, i, up, j);
    assert p.servers[j := s.servers[j]] == p.servers;
    assert Returned(p.attempts[i], j, false) == Waiting(s, i, up, j).attempts[i];
  }

  lemma ProgressAnswer(s: Sys, i: nat, up: seq<bool>, j: nat)
    requires Begun(s, i) && |up| == s.n && j < s.n
    ensures var p := Progress(s, i, up, j);
      CanRun(p, AnswerActions(i, up, j)) && After(p, AnswerActions(i, up, j)) == Waiting(s, i, up, j)
  {
    if up[j] {
      ProgressServe(s, i, up, j);
      assert AnswerActions(i, up, j) == [Serve(i, j, 0), Arrives(i, j, false)];
      TwoActions(Progress(s, i, up, j), Serve(i, j, 0), Arrives(i, j, false));
    } else {
      ProgressFail(s, i, up, j);
      assert AnswerActions(i, up, j) == [Fail(i, j, false)];
      RunOne(Progress(s, i, up, j), Fail(i, j, false));
    }
  }

  lemma PlayNext(s: Sys, i: nat, up: seq<bool>, j: nat)
    requires Begun(s, i) && s.n >= 2 && |up| == s.n && j < s.n
    ensures var cfg, ev := s.attempts[i].cfg, Answers(s, i, up, j);
      && Possible(cfg, ev) && Possible(cfg, Answers(s, i, up, j + 1))
      && Play(cfg, ev).0.received == j
      && var (col, sent) := Step(cfg, Play(cfg, ev).0, AnswerOf(s, i, up, j));
         Play(cfg, Answers(s, i, up, j + 1)) == (col, Play(cfg, ev).1 + sent)
  {
    AnswersPossible(s, i, up, j);
    AnswersPossible(s, i, up, j + 1);
    assert Answers(s, i, up, j + 1)[..j] == Answers(s, i, up, j);
    PlayOk(s.attempts[i].cfg, Answers(s, i, up, j));
    NodesSize(j);
  }

  lemma ProgressTake(s: Sys, i: nat, up: seq<bool>, j: nat)
    requires Begun(s, i) && s.n >= 2 && |up| == s.n && j < s.n
    ensures CanTake(Waiting(s, i, up, j), i)
    ensures TakeReply(Waiting(s, i, up, j), i) == Progress(s, i, up, j + 1)
  {
    PlayNext(s, i, up, j);
    var (col, before) := Play(s.attempts[i].cfg, Answers(s, i, up, j));
    TakeOnly(Waiting(s, i, up, j), i, AnswerOf(s, i, up, j).grant);
    SentInTurn(s.releases, before, Step(s.attempts[i].cfg, col, AnswerOf(s, i, up, j)).1);
  }

  lemma SentInTurn(releases: multiset<Token>, before: seq<Token>, sent: seq<Token>)
    ensures releases + multiset(before) + multiset(sent) == releases + multiset(before + sent)
  {
    assert multiset(before + sent) == multiset(before) + multiset(sent);
  }

  /** Taking the only reply in the channel. */
  lemma TakeOnly(w: Sys, i: nat, g: Granted)
    requires i < |w.attempts| && w.attempts[i].ch == [g] && w.attempts[i].col.received < w.n
    requires Accepts(w.attempts[i].cfg, w.attempts[i].col, Reply(g))
    ensures CanTake(w, i)
    ensures var a := w.attempts[i];
      var (col, sent) := Step(a.cfg, a.col, Reply(g));
      TakeReply(w, i)
      == w.(attempts := w.attempts[i := a.(ch := [], col := col)], releases := w.releases + multiset(sent))
  {
    assert [g][1..] == [];
  }

  lemma ProgressStep(s: Sys, i: nat, up: seq<bool>, j: nat)
    requires Begun(s, i) && s.n >= 2 && |up| == s.n && j < s.n
    ensures var p := Progress(s, i, up, j);
      CanRun(p, NodeActions(i, up, j)) && After(p, NodeActions(i, up, j)) == Progress(s, i, up, j + 1)
  {
    ProgressAnswer(s, i, up, j);
    ProgressTake(s, i, up, j);
    RunOne(Waiting(s, i, up, j), Take(i));
    RunsCompose(Progress(s, i, up, j), AnswerActions(i, up, j), [Take(i)]);
  }

  lemma TwoActions(s: Sys, act: Action, next: Action)
    requires Enabled(s, act) && Enabled(Apply(s, act), next)
    ensures CanRun(s, [act, next]) && After(s, [act, next]) == Apply(Apply(s, act), next)
  {
    RunOne(s, act);
    RunOne(Apply(s, act), next);
    RunsCompose(s, [act], [next]);
    assert [act, next] == [act] + [next];
  }

  lemma FourActions(s: Sys, a: Action, b: Action, c: Action, d: Action)
    requires Enabled(s, a) && Enabled(Apply(s, a), b)
    requires var s2 := Apply(Apply(s, a), b); Enabled(s2, c) && Enabled(Apply(s2, c), d)
    ensures CanRun(s, [a, b, c, d]) && After(s, [a, b, c, d]) == Apply(Apply(Apply(Apply(s, a), b), c), d)
  {
    TwoActions(s, a, b);
    TwoActions(Apply(Apply(s, a), b), c, d);
    RunsCompose(s, [a, b], [c, d]);
    assert [a, b, c, d] == [a, b] + [c, d];
  }

  function AttemptActions(i: nat, up: seq<bool>, j: nat): seq<Action>
    requires j <= |up|
  {
    if j == 0 then [] else AttemptActions(i, up, j - 1) + NodeActions(i, up, j - 1)
  }

  lemma {:induction false} AttemptActionsKinds(i: nat, up: seq<bool>, j: nat)
    requires j <= |up|
    ensures forall act :: act in AttemptActions(i, up, j) ==>
      act.Serve? || act.Arrives? || act.Fail? || act.Take?
    ensures (forall x :: 0 <= x < |up| ==> up[x]) ==> forall act :: act in AttemptActions(i, up, j) ==> Clean(act)
  {
    if j > 0 {
      AttemptActionsKinds(i, up, j - 1);
    }
  }

  /** From the beginning of an attempt to the verdict, all replies taken. */
  lemma {:induction false} RunAttempt(s: Sys, i: nat, up: seq<bool>, j: nat)
    requires Begun(s, i) && s.n >= 2 && |up| == s.n && j <= s.n
    ensures CanRun(s, AttemptActions(i, up, j)) && After(s, AttemptActions(i, up, j)) == Progress(s, i, up, j)
  {
    if j == 0 {
      ProgressStarts(s, i, up);
    } else {
      RunAttempt(s, i, up, j - 1);
      ProgressStep(s, i, up, j - 1);
      RunsCompose(s, AttemptActions(i, up, j - 1), NodeActions(i, up, j - 1));
    }
  }

  /** How the attempt ends: it wins exactly if enough nodes grant, and its vector
      shows exactly the granting nodes. */
  lemma AttemptOutcome(s: Sys, i: nat, up: seq<bool>, granting: set<nat>)
    requires s.n >= 2 && Begun(s, i) && |up| == s.n && IsLocked(s.attempts[i].uid)
    requires forall x: nat :: x in granting <==> x < s.n && WouldGrant(s, i, up, x)
    ensures var a := Progress(s, i, up, s.n).attempts[i];
      && a.col.done && a.pending == a.granting == a.refusing == {}
      && (a.col.quorum <==> |granting| >= a.cfg.Quorum())
      && (a.col.quorum ==> LockedNodes(a.col.locks) == granting)
  {
    var cfg := s.attempts[i].cfg;
    var ev := Answers(s, i, up, s.n);
    AnswersPossible(s, i, up, s.n);
    AbortIsExact(cfg, ev);
    RefusalsCount(s, i, up, s.n, granting);
    PlayOk(cfg, ev);
    NodesSize(s.n);
    assert granting <= Nodes(s.n);
    assert granting * Nodes(s.n) == granting;
    var col := Play(cfg, ev).0;
    if col.quorum {
      forall x: nat | x < s.n ensures x in LockedNodes(col.locks) <==> x in granting {
        SlotsAreGrants(cfg, ev, x);
        AnswersShowGrants(s, i, up, s.n, x);
      }
      assert LockedNodes(col.locks) == granting;
    }
  }

  lemma OneMoreNode(granting: set<nat>, j: nat)
    ensures |granting * Nodes(j + 1)| == |granting * Nodes(j)| + (if j in granting then 1 else 0)
  {
    if j in granting {
      assert granting * Nodes(j + 1) == granting * Nodes(j) + {j};
    } else {
      assert granting * Nodes(j + 1) == granting * Nodes(j);
    }
  }

  lemma {:induction false} RefusalsCount(s: Sys, i: nat, up: seq<bool>, j: nat, granting: set<nat>)
    requires Begun(s, i) && |up| == s.n && j <= s.n && IsLocked(s.attempts[i].uid)
    requires forall x: nat :: x in granting <==> x < s.n && WouldGrant(s, i, up, x)
    ensures Refusals(Answers(s, i, up, j)) + |granting * Nodes(j)| == j
  {
    if j == 0 {
      assert granting * Nodes(0) == {};
    } else {
      RefusalsCount(s, i, up, j - 1, granting);
      OneMoreNode(granting, j - 1);
      assert Answers(s, i, up, j)[..j - 1] == Answers(s, i, up, j - 1);
    }
  }

  lemma {:induction false} AnswersShowGrants(s: Sys, i: nat, up: seq<bool>, j: nat, x: nat)
    requires Begun(s, i) && |up| == s.n && j <= s.n && x < s.n && IsLocked(s.attempts[i].uid)
    ensures GrantFrom(Answers(s, i, up, j), x) == if x < j && WouldGrant(s, i, up, x) then s.attempts[i].uid else ""
  {
    if j > 0 {
      AnswersShowGrants(s, i, up, j - 1, x);
      assert Answers(s, i, up, j)[..j - 1] == Answers(s, i, up, j - 1);
    }
  }

  // ---------------------------------------------------------------- crashes

  ghost function Crashed(s: Sys, k: nat): Sys
    requires |s.servers| == s.n == |s.lost| && k <= s.n
  {
    s.(servers := seq(s.n, x requires 0 <= x < s.n => if x < k then map[] else s.servers[x]),
       lost := seq(s.n, x requires 0 <= x < s.n => if x < k then s.lost[x] + Uids(s.servers[x]) else s.lost[x]))
  }

  /** The nodes 0..k-1 crash and restart, one after the other. */
  lemma {:induction false} RunCrashes(s: Sys, k: nat) returns (acts: seq<Action>)
    requires |s.servers| == s.n == |s.lost| && k <= s.n
    ensures CanRun(s, acts) && After(s, acts) == Crashed(s, k)
  {
    if k == 0 {
      acts := [];
      assert Crashed(s, 0).servers == s.servers && Crashed(s, 0).lost == s.lost;
    } else {
      var before := RunCrashes(s, k - 1);
      var p, act := Crashed(s, k - 1), Crash(k - 1);
      assert p.servers[k - 1] == s.servers[k - 1] && p.lost[k - 1] == s.lost[k - 1];
      assert Apply(p, act).servers == Crashed(s, k).servers;
      assert Apply(p, act).lost == Crashed(s, k).lost;
      RunOne(p, act);
      RunsCompose(s, before, [act]);
      acts := before + [act];
    }
  }
}
