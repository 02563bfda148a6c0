/** How many crashed nodes a held lock survives, exactly (README.md, "More than one
    write lock"; chaos/chaos.go, testMultipleServersOverQuorumDownDuringLockKnownError). */
module Crash {
  import opened Counting
  import opened Quorum
  import opened UidServer
  import opened Collector
  import opened ClientMutex
  import opened Protocol
  import opened Backing
  import opened Exclusion

  // ---------------------------------------------------------------- a holder over time

  /** Released for good: numbers of commits are never used twice. */
  predicate Gone(s: Sys, h: Holder) {
    match h
    case Winner(_) => false
    case Writer(c, k) => c < |s.clients| && (s.clients[c].writeCommits > k
                         || (s.clients[c].writeCommits == k && CountLocked(s.clients[c].mu.writeLocks) == 0))
    case Reader(c, k) => c < |s.clients| && s.clients[c].readUnlocks > k
  }

  /** How a mutex object changes: not at all, by one commit, or by one unlock. */
  datatype Move = Stays | Commits(mode: Mode, locks: seq<string>) | Unlocks(mode: Mode)

  predicate Moved(c: Client, c': Client, mv: Move) {
    match mv
    case Stays => c' == c
    case Commits(mode, locks) => c' == Committed(c, mode, locks)
    case Unlocks(mode) => CanUnlock(c.mu, mode) && c' == Unlocked(c, mode)
  }

  lemma ClientStepsOn(s: Sys, act: Action, c: nat) returns (mv: Move)
    requires Enabled(s, act) && c < |s.clients|
    ensures c < |Apply(s, act).clients| && Moved(s.clients[c], Apply(s, act).clients[c], mv)
  {
    mv := Stays;
    match act {
      case Commit(i) =>
        var a := s.attempts[i];
        if a.client == c {
          mv := Commits(a.cfg.mode, a.col.locks);
        }
      case Unlock(d, mode) =>
        if d == c {
          mv := Unlocks(mode);
        }
      case _ =>
    }
  }

  lemma WriterMoves(n: nat, s: Sys, s': Sys, h: Holder, mv: Move)
    requires h.Writer? && Holds(s, h) && ClientOk(n, s.clients[h.client])
    requires h.client < |s'.clients| && Moved(s.clients[h.client], s'.clients[h.client], mv)
    ensures Gone(s', h) <==> !Holds(s', h)
    ensures Holds(s', h) ==> VectorOf(s', h) == VectorOf(s, h) && NameOf(s', h) == NameOf(s, h)
  {
    CountBlank(n);
  }

  lemma ReaderMoves(n: nat, s: Sys, s': Sys, h: Holder, mv: Move)
    requires h.Reader? && Holds(s, h) && ClientOk(n, s.clients[h.client])
    requires h.client < |s'.clients| && Moved(s.clients[h.client], s'.clients[h.client], mv)
    ensures Gone(s', h) <==> !Holds(s', h)
    ensures Holds(s', h) ==> VectorOf(s', h) == VectorOf(s, h) && NameOf(s', h) == NameOf(s, h)
  {
  }

  lemma GoneMoves(n: nat, s: Sys, s': Sys, h: Holder, mv: Move)
    requires Gone(s, h) && ClientOk(n, s.clients[h.client])
    requires h.client < |s'.clients| && Moved(s.clients[h.client], s'.clients[h.client], mv)
    ensures Gone(s', h)
  {
    CountBlank(n);
  }

  /** A winner that stores its vector goes on as the writer or reader it has become. */
  function Next(s: Sys, act: Action, h: Holder): Holder
    requires Enabled(s, act)
  {
    if act.Commit? && h == Winner(act.attempt) then
      var a := s.attempts[act.attempt];
      if a.cfg.mode.Write? then Writer(a.client, s.clients[a.client].writeCommits + 1)
      else Reader(a.client, s.clients[a.client].readCommits)
    else h
  }

  function HolderAfter(s: Sys, acts: seq<Action>, h: Holder): Holder
    requires CanRun(s, acts)
    decreases |acts|
  {
    if acts == [] then h else HolderAfter(Apply(s, acts[0]), acts[1..], Next(s, acts[0], h))
  }

  lemma {:induction false} CommittedHolderStays(s: Sys, acts: seq<Action>, h: Holder)
    requires CanRun(s, acts) && !h.Winner?
    ensures HolderAfter(s, acts, h) == h
    decreases |acts|
  {
    if acts != [] {
      CommittedHolderStays(Apply(s, acts[0]), acts[1..], h);
    }
  }

  ghost predicate SameLock(s: Sys, h: Holder, s': Sys, h': Holder)
    requires Holds(s, h) && Holds(s', h')
  {
    VectorOf(s', h') == VectorOf(s, h) && NameOf(s', h') == NameOf(s, h) && ModeOf(s', h') == ModeOf(s, h)
  }

  lemma WinnerCommits(s: Sys, i: nat)
    requires Inv(s) && CanCommit(s, i) && Holds(s, Winner(i))
    ensures var s', h' := CommitVector(s, i), Next(s, Commit(i), Winner(i));
      Holds(s', h') && SameLock(s, Winner(i), s', h')
  {
    var a := s.attempts[i];
    assert AttemptOk(s.n, s.clients, a);
    assert ClientOk(s.n, s.clients[a.client]);
    QuorumSizes(s.n, a.cfg.mode, a.cfg.mode);
  }

  lemma OnlyCommitCommits(s: Sys, act: Action, i: nat)
    requires Enabled(s, act) && i < |s.attempts| && act != Commit(i)
    ensures i < |Apply(s, act).attempts| && Apply(s, act).attempts[i].committed == s.attempts[i].committed
  {
  }

  /** A vector that has won does not change until it is stored. */
  lemma WinnerWaits(s: Sys, act: Action, i: nat)
    requires Inv(s) && Enabled(s, act) && Holds(s, Winner(i)) && act != Commit(i)
    ensures Holds(Apply(s, act), Winner(i)) && SameLock(s, Winner(i), Apply(s, act), Winner(i))
  {
    AttemptStepsOn(s, act, i);
    OnlyCommitCommits(s, act, i);
    VerdictStays(s, act, s.attempts[i], Apply(s, act).attempts[i]);
  }

  lemma CommittedStepsOn(s: Sys, act: Action, h: Holder)
    requires Inv(s) && Enabled(s, act) && !h.Winner? && Holds(s, h)
    ensures Gone(Apply(s, act), h) <==> !Holds(Apply(s, act), h)
    ensures Holds(Apply(s, act), h) ==> SameLock(s, h, Apply(s, act), h)
  {
    var mv := ClientStepsOn(s, act, h.client);
    if h.Writer? {
      WriterMoves(s.n, s, Apply(s, act), h, mv);
    } else {
      ReaderMoves(s.n, s, Apply(s, act), h, mv);
    }
  }

  /** One action later a holder has the same vector, or is gone for good. */
  lemma HolderStepsOn(s: Sys, act: Action, h: Holder)
    requires Inv(s) && Enabled(s, act) && Holds(s, h)
    ensures var s', h' := Apply(s, act), Next(s, act, h);
      && (Gone(s', h') <==> !Holds(s', h'))
      && (Holds(s', h') ==> SameLock(s, h, s', h'))
  {
    if !h.Winner? {
      CommittedStepsOn(s, act, h);
    } else if act == Commit(h.attempt) {
      WinnerCommits(s, h.attempt);
    } else {
      WinnerWaits(s, act, h.attempt);
    }
  }

  lemma GoneForGood(s: Sys, act: Action, h: Holder)
    requires Inv(s) && Enabled(s, act) && Gone(s, h)
    ensures Gone(Apply(s, act), h)
  {
    var mv := ClientStepsOn(s, act, h.client);
    GoneMoves(s.n, s, Apply(s, act), h, mv);
  }

  lemma {:induction false} RunStaysGone(s: Sys, acts: seq<Action>, h: Holder)
    requires Inv(s) && CanRun(s, acts) && Gone(s, h)
    ensures !Holds(After(s, acts), HolderAfter(s, acts, h))
    decreases |acts|
  {
    if acts != [] {
      InvKept(s, acts[0]);
      GoneForGood(s, acts[0], h);
      RunStaysGone(Apply(s, acts[0]), acts[1..], h);
    }
  }

  /** Held from the one end of the run to the other. */
  predicate HeldThrough(s: Sys, acts: seq<Action>, h: Holder)
    requires CanRun(s, acts)
  {
    Holds(s, h) && Holds(After(s, acts), HolderAfter(s, acts, h))
  }

  lemma HeldOneLater(s: Sys, acts: seq<Action>, h: Holder)
    requires Inv(s) && CanRun(s, acts) && acts != [] && HeldThrough(s, acts, h)
    ensures var s', h' := Apply(s, acts[0]), Next(s, acts[0], h);
      Inv(s') && HeldThrough(s', acts[1..], h') && SameLock(s, h, s', h')
  {
    InvKept(s, acts[0]);
    HolderStepsOn(s, acts[0], h);
    if Gone(Apply(s, acts[0]), Next(s, acts[0], h)) {
      RunStaysGone(Apply(s, acts[0]), acts[1..], Next(s, acts[0], h));
    }
  }

  // ---------------------------------------------------------------- what still excludes

  /** The attempt has no grant of node x, in its vector, in its channel or under way. */
  predicate NoGrant(a: Attempt, x: nat) {
    && x !in a.granting
    && (x < |a.col.locks| ==> a.col.locks[x] == "")
    && (forall k :: 0 <= k < |a.ch| && a.ch[k].index == x ==> a.ch[k].lockUID == "")
  }

  /** Where the holder's entry survives, the rival gets no grant. */
  ghost predicate Barred(s: Sys, h: Holder, b: nat)
    requires Holds(s, h)
  {
    b < |s.attempts| ==>
      forall x: nat :: x < |VectorOf(s, h)| && Tracked(s, GrantAt(s, h, x)) ==> NoGrant(s.attempts[b], x)
  }

  predicate Rivals(s: Sys, h: Holder, b: nat)
    requires Holds(s, h)
  {
    b < |s.attempts| ==>
      s.attempts[b].cfg.name == NameOf(s, h) && Conflict(s.attempts[b].cfg.mode, ModeOf(s, h))
  }

  lemma RefusedWhereHeld(s: Sys, h: Holder, b: nat, x: nat, now: int)
    requires Inv(s) && Holds(s, h) && b < |s.attempts| && Rivals(s, h, b)
    requires x < |VectorOf(s, h)| && x < s.n && Tracked(s, GrantAt(s, h, x))
    ensures var a := s.attempts[b]; !Acquire(s.servers[x], a.cfg.mode, a.cfg.name, a.uid, now).1
  {
    var a, t := s.attempts[b], GrantAt(s, h, x);
    HolderIsCounted(s, h, x);
    assert EntryCount(s.servers[x], t.name, t.mode, t.uid) >= 1;
    AcquireEffect(s.servers[x], a.cfg.mode, a.cfg.name, a.uid, now);
  }

  lemma NoGrantMoves(s: Sys, act: Action, a: Attempt, a': Attempt, x: nat)
    requires AttemptMoved(s, act, a, a') && |a.col.locks| == a.cfg.n && NoGrant(a, x)
    requires act.Serve? && act.node == x && x < |s.servers| ==>
      !Acquire(s.servers[x], a.cfg.mode, a.cfg.name, a.uid, act.now).1
    ensures NoGrant(a', x)
  {
    if a.ch != [] && Accepts(a.cfg, a.col, Reply(a.ch[0])) {
      StepValues(a.cfg, a.col, Reply(a.ch[0]));
    }
    StepValues(a.cfg, a.col, Timeout);
  }

  lemma LostGrows(s: Sys, act: Action)
    requires Enabled(s, act)
    ensures Apply(s, act).n == s.n && |Apply(s, act).lost| == |s.lost|
    ensures forall x :: 0 <= x < |s.lost| ==> s.lost[x] <= Apply(s, act).lost[x]
    ensures forall x: nat :: x < |s.lost| && act != Protocol.Action.Crash(x) ==> Apply(s, act).lost[x] == s.lost[x]
  {
  }

  /** A fresh attempt has no grants at all. */
  lemma AttemptsGrow(s: Sys, act: Action)
    requires Enabled(s, act)
    ensures forall b, x: nat :: |s.attempts| <= b < |Apply(s, act).attempts| ==> NoGrant(Apply(s, act).attempts[b], x)
  {
  }

  lemma StillNoGrant(s: Sys, act: Action, h: Holder, b: nat, x: nat, a': Attempt)
    requires Inv(s) && Holds(s, h) && b < |s.attempts| && Rivals(s, h, b) && Barred(s, h, b)
    requires x < |VectorOf(s, h)| && x < s.n && Tracked(s, GrantAt(s, h, x))
    requires AttemptMoved(s, act, s.attempts[b], a')
    ensures NoGrant(a', x)
  {
    assert AttemptOk(s.n, s.clients, s.attempts[b]);
    assert NoGrant(s.attempts[b], x);
    if act.Serve? {
      RefusedWhereHeld(s, h, b, x, act.now);
    }
    NoGrantMoves(s, act, s.attempts[b], a', x);
  }

  lemma BarredAt(s: Sys, act: Action, h: Holder, b: nat, x: nat)
    requires Inv(s) && Enabled(s, act) && Holds(s, h) && Rivals(s, h, b) && Barred(s, h, b)
    requires x < |VectorOf(s, h)| && x < s.n && Tracked(Apply(s, act), GrantAt(s, h, x))
    requires b < |Apply(s, act).attempts|
    ensures NoGrant(Apply(s, act).attempts[b], x)
  {
    LostGrows(s, act);
    if b < |s.attempts| {
      AttemptStepsOn(s, act, b);
      StillNoGrant(s, act, h, b, x, Apply(s, act).attempts[b]);
    } else {
      AttemptsGrow(s, act);
    }
  }

  lemma BarredKept(s: Sys, act: Action, h: Holder, h': Holder, b: nat)
    requires Inv(s) && Enabled(s, act) && Holds(s, h) && Holds(Apply(s, act), h') && SameLock(s, h, Apply(s, act), h')
    requires Rivals(s, h, b) && Barred(s, h, b)
    ensures Barred(Apply(s, act), h', b)
  {
    var s' := Apply(s, act);
    HolderHasQuorum(s, h);
    if b < |s'.attempts| {
      forall x: nat | x < |VectorOf(s', h')| && Tracked(s', GrantAt(s', h', x)) ensures NoGrant(s'.attempts[b], x) {
        assert GrantAt(s', h', x) == GrantAt(s, h, x);
        BarredAt(s, act, h, b, x);
      }
    }
  }

  lemma RivalsBefore(s: Sys, act: Action, h: Holder, h': Holder, b: nat)
    requires Enabled(s, act) && Holds(s, h) && Holds(Apply(s, act), h') && SameLock(s, h, Apply(s, act), h')
    ensures Rivals(Apply(s, act), h', b) ==> Rivals(s, h, b)
  {
    if b < |s.attempts| {
      AttemptStepsOn(s, act, b);
    }
  }

  /** The holder's slots whose entries are still there. */
  function Surviving(s: Sys, h: Holder): set<nat>
    requires Holds(s, h)
  {
    set x | x in LockedNodes(VectorOf(s, h)) && x < |s.lost| && VectorOf(s, h)[x] !in s.lost[x]
  }

  lemma {:induction false} RunBars(s: Sys, acts: seq<Action>, h: Holder, b: nat)
    requires Inv(s) && CanRun(s, acts) && HeldThrough(s, acts, h)
    requires Barred(s, h, b) && Rivals(After(s, acts), HolderAfter(s, acts, h), b)
    ensures Inv(After(s, acts)) && After(s, acts).n == s.n
    ensures Barred(After(s, acts), HolderAfter(s, acts, h), b) && Rivals(s, h, b)
    decreases |acts|
  {
    if acts != [] {
      var s1, h1 := Apply(s, acts[0]), Next(s, acts[0], h);
      HeldOneLater(s, acts, h);
      RunBarsBack(s1, acts[1..], h1, b);
      RivalsBefore(s, acts[0], h, h1, b);
      BarredKept(s, acts[0], h, h1, b);
      RunBars(s1, acts[1..], h1, b);
    }
  }

  lemma {:induction false} RunBarsBack(s: Sys, acts: seq<Action>, h: Holder, b: nat)
    requires Inv(s) && CanRun(s, acts) && HeldThrough(s, acts, h)
    requires Rivals(After(s, acts), HolderAfter(s, acts, h), b)
    ensures Rivals(s, h, b)
    decreases |acts|
  {
    if acts != [] {
      var s1, h1 := Apply(s, acts[0]), Next(s, acts[0], h);
      HeldOneLater(s, acts, h);
      RunBarsBack(s1, acts[1..], h1, b);
      RivalsBefore(s, acts[0], h, h1, b);
    }
  }

  lemma BarredCannotWin(s: Sys, h: Holder, b: nat)
    requires Inv(s) && Holds(s, h) && b < |s.attempts| && Barred(s, h, b)
    requires |Surviving(s, h)| > s.n - s.attempts[b].cfg.Quorum()
    ensures !s.attempts[b].col.quorum
  {
    var a := s.attempts[b];
    assert AttemptOk(s.n, s.clients, a);
    if a.col.quorum {
      HolderHasQuorum(s, h);
      CountIsSize(a.col.locks);
      forall x | x in Surviving(s, h) ensures x !in LockedNodes(a.col.locks) {
        assert Tracked(s, GrantAt(s, h, x));
        assert NoGrant(a, x);
      }
      DisjointFit(s.n, LockedNodes(a.col.locks), Surviving(s, h));
    }
  }

  /** Crash tolerance, the safe direction, for every run with any crashes: from the
      moment a lock is won, stored or not, and while it is held, no attempt begun since
      on the same resource wins in a conflicting mode if the surviving grants outnumber
      the nodes the attempt can do without. */
  lemma SurvivorsExclude(s: Sys, acts: seq<Action>, h: Holder, b: nat)
    requires Inv(s) && CanRun(s, acts) && HeldThrough(s, acts, h)
    requires |s.attempts| <= b < |After(s, acts).attempts| && Rivals(After(s, acts), HolderAfter(s, acts, h), b)
    requires |Surviving(After(s, acts), HolderAfter(s, acts, h))| > s.n - After(s, acts).attempts[b].cfg.Quorum()
    ensures !After(s, acts).attempts[b].col.quorum
  {
    RunBars(s, acts, h, b);
    BarredCannotWin(After(s, acts), HolderAfter(s, acts, h), b);
  }

  lemma CrashLoses(s: Sys, h: Holder, x: nat)
    requires Inv(s) && Holds(s, h) && x < s.n && x < |VectorOf(s, h)| && Tracked(s, GrantAt(s, h, x))
    ensures VectorOf(s, h)[x] in CrashNode(s, x).lost[x]
  {
    HolderIsCounted(s, h, x);
    var t := GrantAt(s, h, x);
    CountPositive(s.servers[x][t.name], t.mode, t.uid);
  }

  lemma KeptUnlessCrash(s: Sys, act: Action, h: Holder, h': Holder, x: nat)
    requires Inv(s) && Enabled(s, act) && Holds(s, h) && Holds(Apply(s, act), h') && SameLock(s, h, Apply(s, act), h')
    requires x < s.n && x < |VectorOf(s, h)| && Tracked(s, GrantAt(s, h, x))
    requires act != Protocol.Action.Crash(x)
    ensures Apply(s, act).n == s.n && Tracked(Apply(s, act), GrantAt(Apply(s, act), h', x))
  {
    LostGrows(s, act);
  }

  lemma LostByCrash(s: Sys, h: Holder, x: nat)
    requires Inv(s) && Holds(s, h)
    requires x < s.n && x < |VectorOf(s, h)| && Tracked(s, GrantAt(s, h, x))
    ensures Enabled(s, Protocol.Action.Crash(x))
    ensures var s' := Apply(s, Protocol.Action.Crash(x)); x < |s'.lost| && VectorOf(s, h)[x] in s'.lost[x]
  {
    CrashLoses(s, h, x);
  }

  lemma {:induction false} LostIfCrash(s: Sys, acts: seq<Action>, h: Holder, x: nat)
    requires Inv(s) && CanRun(s, acts) && HeldThrough(s, acts, h)
    requires x < s.n && x < |VectorOf(s, h)| && Tracked(s, GrantAt(s, h, x))
    requires Protocol.Action.Crash(x) in acts
    ensures x < |After(s, acts).lost| && VectorOf(s, h)[x] in After(s, acts).lost[x]
    decreases |acts|
  {
    HeldOneLater(s, acts, h);
    if acts[0] == Protocol.Action.Crash(x) {
      LostByCrash(s, h, x);
      LostStaysLost(Apply(s, acts[0]), acts[1..], x, VectorOf(s, h)[x]);
    } else {
      KeptUnlessCrash(s, acts[0], h, Next(s, acts[0], h), x);
      LostIfCrash(Apply(s, acts[0]), acts[1..], Next(s, acts[0], h), x);
    }
  }

  lemma {:induction false} LostOnlyByCrash(s: Sys, acts: seq<Action>, x: nat, uid: string)
    requires CanRun(s, acts) && x < |s.lost| && uid !in s.lost[x] && Protocol.Action.Crash(x) !in acts
    ensures x < |After(s, acts).lost| && uid !in After(s, acts).lost[x]
    decreases |acts|
  {
    if acts != [] {
      assert acts[0] in acts;
      LostGrows(s, acts[0]);
      LostOnlyByCrash(Apply(s, acts[0]), acts[1..], x, uid);
    }
  }

  /** A grant of a held lock is lost exactly by a crash of its node. */
  lemma LostExactlyByCrash(s: Sys, acts: seq<Action>, h: Holder, x: nat)
    requires Inv(s) && CanRun(s, acts) && HeldThrough(s, acts, h)
    requires x < s.n && x < |VectorOf(s, h)| && Tracked(s, GrantAt(s, h, x))
    ensures x < |After(s, acts).lost|
    ensures VectorOf(s, h)[x] in After(s, acts).lost[x] <==> Protocol.Action.Crash(x) in acts
  {
    if Protocol.Action.Crash(x) in acts {
      LostIfCrash(s, acts, h, x);
    } else {
      LostOnlyByCrash(s, acts, x, VectorOf(s, h)[x]);
    }
  }

  lemma {:induction false} LostStaysLost(s: Sys, acts: seq<Action>, x: nat, uid: string)
    requires CanRun(s, acts) && x < |s.lost| && uid in s.lost[x]
    ensures x < |After(s, acts).lost| && uid in After(s, acts).lost[x]
    decreases |acts|
  {
    if acts != [] {
      LostGrows(s, acts[0]);
      LostStaysLost(Apply(s, acts[0]), acts[1..], x, uid);
    }
  }
}
