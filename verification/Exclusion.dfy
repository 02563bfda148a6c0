/** What the backing invariant gives: mutual exclusion over every run without node
    crash, and with it that the mutex objects never lose a live grant. */
module Exclusion {
  import opened Counting
  import opened Quorum
  import opened UidServer
  import opened Collector
  import opened ClientMutex
  import opened Protocol
  import opened Backing
  import opened RWLock

  /** Who has the lock: an attempt that has won and not yet stored its vector, the
      latest write commit of a mutex object, or one of its read commits by number. */
  datatype Holder =
    | Winner(attempt: nat)
    | Writer(client: nat, serial: nat)
    | Reader(client: nat, serial: nat)

  predicate Holds(s: Sys, h: Holder) {
    match h
    case Winner(i) => i < |s.attempts| && s.attempts[i].col.done && s.attempts[i].col.quorum
                      && !s.attempts[i].committed
    case Writer(c, k) => c < |s.clients| && s.clients[c].writeCommits == k
                         && CountLocked(s.clients[c].mu.writeLocks) > 0
    case Reader(c, k) => c < |s.clients| && s.clients[c].readUnlocks <= k < s.clients[c].readCommits
                         && s.clients[c].readCommits == s.clients[c].readUnlocks + |s.clients[c].mu.readersLocks|
  }

  function VectorOf(s: Sys, h: Holder): seq<string>
    requires Holds(s, h)
  {
    match h
    case Winner(i) => s.attempts[i].col.locks
    case Writer(c, _) => s.clients[c].mu.writeLocks
    case Reader(c, k) => s.clients[c].mu.readersLocks[k - s.clients[c].readUnlocks]
  }

  function NameOf(s: Sys, h: Holder): string
    requires Holds(s, h)
  {
    match h
    case Winner(i) => s.attempts[i].cfg.name
    case Writer(c, _) => s.clients[c].mu.name
    case Reader(c, _) => s.clients[c].mu.name
  }

  function ModeOf(s: Sys, h: Holder): Mode
    requires Holds(s, h)
  {
    match h
    case Winner(i) => s.attempts[i].cfg.mode
    case Writer(_, _) => Write
    case Reader(_, _) => Read
  }

  /** The grant of node x in the holder's vector. */
  function GrantAt(s: Sys, h: Holder, x: nat): Token
    requires Holds(s, h) && x < |VectorOf(s, h)|
  {
    Token(x, NameOf(s, h), ModeOf(s, h), VectorOf(s, h)[x])
  }

  lemma HolderHasQuorum(s: Sys, h: Holder)
    requires Shape(s) && Holds(s, h)
    ensures |VectorOf(s, h)| == s.n
    ensures LockedNodes(VectorOf(s, h)) <= Nodes(s.n)
    ensures |LockedNodes(VectorOf(s, h))| >= QuorumOf(s.n, ModeOf(s, h))
  {
    match h {
      case Winner(i) => assert AttemptOk(s.n, s.clients, s.attempts[i]);
      case Writer(c, _) => assert ClientOk(s.n, s.clients[c]);
      case Reader(c, _) => assert ClientOk(s.n, s.clients[c]);
    }
    CountIsSize(VectorOf(s, h));
  }

  lemma WinnerIsCounted(s: Sys, i: nat, t: Token)
    requires Holds(s, Winner(i)) && IsLocked(t.uid) && SlotCount(s.attempts[i].cfg, s.attempts[i].col.locks, t) == 1
    ensures OfAttempt(t)(s.attempts[i]) >= 1
  {
  }

  lemma WriterIsCounted(cl: Client, t: Token)
    requires VectorShare(cl.mu.name, Write, cl.mu.writeLocks, t) == 1
    ensures OfClient(t)(cl) >= 1
  {
  }

  lemma HolderIsCounted(s: Sys, h: Holder, x: nat)
    requires Shape(s) && Holds(s, h) && x < |VectorOf(s, h)| && IsLocked(VectorOf(s, h)[x])
    ensures Held(s, GrantAt(s, h, x)) >= 1
  {
    var t := GrantAt(s, h, x);
    match h
    case Winner(i) =>
      WinnerIsCounted(s, i, t);
      SumAtLeastOne(s.attempts, i, OfAttempt(t));
    case Writer(c, _) =>
      WriterIsCounted(s.clients[c], t);
      SumAtLeastOne(s.clients, c, OfClient(t));
    case Reader(c, k) =>
      SumAtLeastOne(s.clients, c, OfClient(t));
      ReaderIsCounted(s.clients[c], k - s.clients[c].readUnlocks, t);
  }

  lemma ReaderIsCounted(cl: Client, k: nat, t: Token)
    requires k < |cl.mu.readersLocks| && VectorShare(cl.mu.name, Read, cl.mu.readersLocks[k], t) == 1
    ensures ClientShare(cl, t) >= 1
  {
    SumAtLeastOne(cl.mu.readersLocks, k, OfVector(cl.mu.name, t));
  }

  /** Two writers that show the same grant are counted twice, even under one UID. */
  lemma TwoWritersCountTwice(s: Sys, g: Holder, h: Holder, x: nat)
    requires Shape(s) && Holds(s, g) && Holds(s, h) && g != h
    requires ModeOf(s, g) == ModeOf(s, h) == Write
    requires x < |VectorOf(s, g)| && x < |VectorOf(s, h)| && IsLocked(VectorOf(s, g)[x])
    requires GrantAt(s, g, x) == GrantAt(s, h, x)
    ensures Held(s, GrantAt(s, g, x)) >= 2
  {
    var t := GrantAt(s, g, x);
    match (g, h) {
      case (Winner(i), Winner(j)) => TwoWinners(s, if i < j then i else j, if i < j then j else i, t);
      case (Winner(i), Writer(c, _)) => WinnerAndWriter(s, i, c, t);
      case (Writer(c, _), Winner(i)) => WinnerAndWriter(s, i, c, t);
      case (Writer(c, _), Writer(d, _)) =>
        WriterIsCounted(s.clients[c], t);
        WriterIsCounted(s.clients[d], t);
        SumAtLeastTwo(s.clients, if c < d then c else d, if c < d then d else c, OfClient(t));
    }
  }

  lemma TwoWinners(s: Sys, i: nat, j: nat, t: Token)
    requires i < j && Holds(s, Winner(i)) && Holds(s, Winner(j)) && IsLocked(t.uid)
    requires SlotCount(s.attempts[i].cfg, s.attempts[i].col.locks, t) == 1
    requires SlotCount(s.attempts[j].cfg, s.attempts[j].col.locks, t) == 1
    ensures Held(s, t) >= 2
  {
    WinnerIsCounted(s, i, t);
    WinnerIsCounted(s, j, t);
    SumAtLeastTwo(s.attempts, i, j, OfAttempt(t));
  }

  lemma WinnerAndWriter(s: Sys, i: nat, c: nat, t: Token)
    requires Holds(s, Winner(i)) && c < |s.clients| && IsLocked(t.uid)
    requires SlotCount(s.attempts[i].cfg, s.attempts[i].col.locks, t) == 1
    requires VectorShare(s.clients[c].mu.name, Write, s.clients[c].mu.writeLocks, t) == 1
    ensures Held(s, t) >= 2
  {
    WinnerIsCounted(s, i, t);
    WriterIsCounted(s.clients[c], t);
    SumAtLeastOne(s.attempts, i, OfAttempt(t));
    SumAtLeastOne(s.clients, c, OfClient(t));
  }

  /** No node serves two conflicting holders with entries it still has. */
  lemma NoNodeServesBoth(s: Sys, g: Holder, h: Holder, x: nat)
    requires Inv(s) && Holds(s, g) && Holds(s, h) && g != h
    requires NameOf(s, g) == NameOf(s, h) && Conflict(ModeOf(s, g), ModeOf(s, h))
    requires x < s.n && x < |VectorOf(s, g)| && x < |VectorOf(s, h)|
    requires Tracked(s, GrantAt(s, g, x))
    ensures !Tracked(s, GrantAt(s, h, x))
  {
    if Tracked(s, GrantAt(s, h, x)) {
      var t, u := GrantAt(s, g, x), GrantAt(s, h, x);
      HolderIsCounted(s, g, x);
      HolderIsCounted(s, h, x);
      NoConflictingEntries(s.servers[x], t.name, t.mode, t.uid, u.mode, u.uid);
      TwoWritersCountTwice(s, g, h, x);
    }
  }

  /** Mutual exclusion: as long as no entry was dropped, two holders of one resource
      are both readers. */
  lemma MutualExclusion(s: Sys, g: Holder, h: Holder)
    requires Inv(s) && NothingLost(s) && Holds(s, g) && Holds(s, h) && g != h
    requires NameOf(s, g) == NameOf(s, h)
    ensures ModeOf(s, g) == ModeOf(s, h) == Read
  {
    if Conflict(ModeOf(s, g), ModeOf(s, h)) {
      HolderHasQuorum(s, g);
      HolderHasQuorum(s, h);
      var x := ConflictingQuorumsMeet(s.n, ModeOf(s, g), ModeOf(s, h),
                                      LockedNodes(VectorOf(s, g)), LockedNodes(VectorOf(s, h)));
      NoNodeServesBoth(s, g, h, x);
    }
  }

  /** The same over every run: any number of clients, any interleaving, timeouts,
      delayed, lost and stray messages, UIDs shared or not. */
  lemma MutualExclusionOverRuns(n: nat, acts: seq<Action>, g: Holder, h: Holder)
    requires n >= 2 && CanRun(Init(n), acts) && CrashFree(acts)
    requires Holds(After(Init(n), acts), g) && Holds(After(Init(n), acts), h) && g != h
    requires NameOf(After(Init(n), acts), g) == NameOf(After(Init(n), acts), h)
    ensures ModeOf(After(Init(n), acts), g) == ModeOf(After(Init(n), acts), h) == Read
  {
    ReachableInv(n, acts);
    MutualExclusion(After(Init(n), acts), g, h);
  }

  lemma ReachableInv(n: nat, acts: seq<Action>)
    requires n >= 2 && CanRun(Init(n), acts) && CrashFree(acts)
    ensures Inv(After(Init(n), acts)) && NothingLost(After(Init(n), acts))
    ensures After(Init(n), acts).n == n
  {
    InitInv(n);
    RunKeepsInv(Init(n), acts);
    CrashFreeLosesNothing(Init(n), acts);
  }

  // ---------------------------------------------------------------- the mutex object

  /** A won write vector is never stored over one that is still held. */
  lemma NoLiveGrantIsOverwritten(s: Sys, act: Action)
    requires Inv(s) && NothingLost(s) && Enabled(s, act)
    ensures !Overwrites(s, act)
  {
    if Overwrites(s, act) {
      var a := s.attempts[act.attempt];
      assert AttemptOk(s.n, s.clients, a);
      MutualExclusion(s, Winner(act.attempt), Writer(a.client, s.clients[a.client].writeCommits));
    }
  }

  predicate HistoryOk(c: Client) {
    c.writeCommits == c.writeUnlocks + (if CountLocked(c.mu.writeLocks) > 0 then 1 else 0)
  }

  /** The write vector tells the history: set, with at least a quorum, exactly when
      there is one more commit than unlocks. */
  ghost predicate WriteHistory(s: Sys) {
    forall c :: 0 <= c < |s.clients| ==> HistoryOk(s.clients[c])
  }

  lemma HistoryOfCommit(s: Sys, i: nat)
    requires Inv(s) && NothingLost(s) && CanCommit(s, i) && WriteHistory(s)
    ensures WriteHistory(CommitVector(s, i))
  {
    var a := s.attempts[i];
    NoLiveGrantIsOverwritten(s, Commit(i));
    assert AttemptOk(s.n, s.clients, a);
    QuorumSizes(s.n, Write, Write);
    assert HistoryOk(s.clients[a.client]);
    assert HistoryOk(Committed(s.clients[a.client], a.cfg.mode, a.col.locks));
  }

  lemma HistoryOfUnlock(s: Sys, c: nat, mode: Mode)
    requires Inv(s) && CanUnlockClient(s, c, mode) && WriteHistory(s)
    ensures WriteHistory(UnlockClient(s, c, mode))
  {
    CountBlank(s.n);
    assert ClientOk(s.n, s.clients[c]);
    assert HistoryOk(s.clients[c]);
    assert HistoryOk(Unlocked(s.clients[c], mode));
  }

  lemma WriteHistoryKept(s: Sys, act: Action)
    requires Inv(s) && NothingLost(s) && Enabled(s, act) && WriteHistory(s)
    ensures WriteHistory(Apply(s, act))
  {
    match act
    case Commit(i) => HistoryOfCommit(s, i);
    case Unlock(c, mode) => HistoryOfUnlock(s, c, mode);
    case NewClient(name) => CountBlank(s.n);
    case _ =>
  }

  lemma {:induction false} RunKeepsWriteHistory(s: Sys, acts: seq<Action>)
    requires Inv(s) && NothingLost(s) && WriteHistory(s) && CanRun(s, acts) && CrashFree(acts)
    ensures WriteHistory(After(s, acts))
    decreases |acts|
  {
    if acts != [] {
      InvKept(s, acts[0]);
      assert !acts[0].Crash?;
      WriteHistoryKept(s, acts[0]);
      RunKeepsWriteHistory(Apply(s, acts[0]), acts[1..]);
    }
  }

  /** Unlock panics exactly when no write lock is committed, RUnlock exactly when no
      read lock is; a write vector has no set slot or at least a quorum of them. */
  lemma UnlockPanicsExactly(n: nat, acts: seq<Action>, c: nat)
    requires n >= 2 && CanRun(Init(n), acts) && CrashFree(acts) && c < |After(Init(n), acts).clients|
    ensures var cl := After(Init(n), acts).clients[c];
      && cl.writeUnlocks <= cl.writeCommits <= cl.writeUnlocks + 1
      && (CanUnlock(cl.mu, Write) <==> cl.writeCommits == cl.writeUnlocks + 1)
      && (CanUnlock(cl.mu, Read) <==> cl.readCommits > cl.readUnlocks)
      && (CountLocked(cl.mu.writeLocks) == 0 || CountLocked(cl.mu.writeLocks) >= WriteQuorum(n))
  {
    ReachableInv(n, acts);
    InitInv(n);
    RunKeepsWriteHistory(Init(n), acts);
    assert ClientOk(n, After(Init(n), acts).clients[c]);
    assert HistoryOk(After(Init(n), acts).clients[c]);
  }

  /** Every set slot of a queued read vector has its entry at the node. */
  lemma QueuedGrantIsBacked(s: Sys, c: nat, k: nat, x: nat)
    requires Inv(s) && NothingLost(s) && c < |s.clients| && k < |s.clients[c].mu.readersLocks|
    requires x < |s.clients[c].mu.readersLocks[k]| && IsLocked(s.clients[c].mu.readersLocks[k][x])
    ensures var mu := s.clients[c].mu;
      Entries(s, Token(x, mu.name, Read, mu.readersLocks[k][x])) >= 1
  {
    var cl := s.clients[c];
    assert ClientOk(s.n, cl);
    HolderIsCounted(s, Reader(c, cl.readUnlocks + k), x);
    assert Tracked(s, Token(x, cl.mu.name, Read, cl.mu.readersLocks[k][x]));
  }

  /** FIFO release is sound: whichever vector an RUnlock dropped, as many read quorums
      are left as readers are inside, every slot of them with its entry at the node;
      and while a reader is inside, whoever else has the lock is a reader. */
  lemma ReadersKeepWritersOut(n: nat, acts: seq<Action>, c: nat)
    requires n >= 2 && CanRun(Init(n), acts) && CrashFree(acts) && c < |After(Init(n), acts).clients|
    ensures var s := After(Init(n), acts);
      var cl := s.clients[c];
      && |cl.mu.readersLocks| == cl.readCommits - cl.readUnlocks
      && (forall k :: 0 <= k < |cl.mu.readersLocks| ==> CountLocked(cl.mu.readersLocks[k]) >= ReadQuorum(n))
      && (forall k, x: nat ::
            0 <= k < |cl.mu.readersLocks| && x < |cl.mu.readersLocks[k]| && IsLocked(cl.mu.readersLocks[k][x]) ==>
              Entries(s, Token(x, cl.mu.name, Read, cl.mu.readersLocks[k][x])) >= 1)
      && (cl.readCommits > cl.readUnlocks ==>
            forall h :: Holds(s, h) && NameOf(s, h) == cl.mu.name ==> ModeOf(s, h) == Read)
  {
    ReachableInv(n, acts);
    var s := After(Init(n), acts);
    var cl := s.clients[c];
    assert ClientOk(n, cl);
    forall k: nat, x: nat
      | k < |cl.mu.readersLocks| && x < |cl.mu.readersLocks[k]| && IsLocked(cl.mu.readersLocks[k][x])
      ensures Entries(s, Token(x, cl.mu.name, Read, cl.mu.readersLocks[k][x])) >= 1
    {
      QueuedGrantIsBacked(s, c, k, x);
    }
    if cl.readCommits > cl.readUnlocks {
      forall h | Holds(s, h) && NameOf(s, h) == cl.mu.name ensures ModeOf(s, h) == Read {
        if h != Reader(c, cl.readUnlocks) {
          MutualExclusion(s, h, Reader(c, cl.readUnlocks));
        }
      }
    }
  }

  // ---------------------------------------------------------------- refinement

  function WritersOf(name: string): Client -> nat {
    (c: Client) => if c.mu.name == name && CountLocked(c.mu.writeLocks) > 0 then 1 else 0
  }

  function ReadersOf(name: string): Client -> nat {
    (c: Client) => if c.mu.name == name then |c.mu.readersLocks| else 0
  }

  /** The lock on a resource as its users see it. */
  function Abs(s: Sys, name: string): RW {
    RW(Sum(s.clients, WritersOf(name)), Sum(s.clients, ReadersOf(name)))
  }

  /** The abstract step an action amounts to. */
  ghost predicate Refines(s: Sys, act: Action, name: string)
    requires Enabled(s, act)
  {
    var l, l' := Abs(s, name), Abs(Apply(s, act), name);
    if act.Commit? && s.attempts[act.attempt].cfg.name == name then
      CanAcquire(l, s.attempts[act.attempt].cfg.mode) && l' == Acquired(l, s.attempts[act.attempt].cfg.mode)
    else if act.Unlock? && s.clients[act.client].mu.name == name then
      CanRelease(l, act.mode) && l' == Released(l, act.mode)
    else l' == l
  }

  lemma AbsAfterClient(s: Sys, c: nat, cl: Client, name: string)
    requires c < |s.clients|
    ensures Sum(s.clients[c := cl], WritersOf(name))
         == Sum(s.clients, WritersOf(name)) - WritersOf(name)(s.clients[c]) + WritersOf(name)(cl)
    ensures Sum(s.clients[c := cl], ReadersOf(name))
         == Sum(s.clients, ReadersOf(name)) - ReadersOf(name)(s.clients[c]) + ReadersOf(name)(cl)
  {
    SumUpdate(s.clients, c, cl, WritersOf(name));
    SumUpdate(s.clients, c, cl, ReadersOf(name));
  }

  /** An attempt that has won finds the lock free for its mode. */
  lemma WinnerFindsLockFree(s: Sys, i: nat)
    requires Inv(s) && NothingLost(s) && Holds(s, Winner(i))
    ensures CanAcquire(Abs(s, s.attempts[i].cfg.name), s.attempts[i].cfg.mode)
  {
    var a := s.attempts[i];
    var name := a.cfg.name;
    forall c | 0 <= c < |s.clients|
      ensures WritersOf(name)(s.clients[c]) == 0
      ensures a.cfg.mode.Write? ==> ReadersOf(name)(s.clients[c]) == 0
    {
      var cl := s.clients[c];
      assert ClientOk(s.n, cl);
      if cl.mu.name == name {
        if CountLocked(cl.mu.writeLocks) > 0 {
          MutualExclusion(s, Winner(i), Writer(c, cl.writeCommits));
        }
        if a.cfg.mode.Write? && cl.mu.readersLocks != [] {
          MutualExclusion(s, Winner(i), Reader(c, cl.readUnlocks));
        }
      }
    }
    SumZero(s.clients, WritersOf(name));
    if a.cfg.mode.Write? {
      SumZero(s.clients, ReadersOf(name));
    }
  }

  lemma RefinesCommit(s: Sys, i: nat, name: string)
    requires Inv(s) && NothingLost(s) && CanCommit(s, i)
    ensures var l, l' := Abs(s, name), Abs(CommitVector(s, i), name);
      if s.attempts[i].cfg.name == name
      then CanAcquire(l, s.attempts[i].cfg.mode) && l' == Acquired(l, s.attempts[i].cfg.mode)
      else l' == l
  {
    var a := s.attempts[i];
    assert AttemptOk(s.n, s.clients, a);
    NoLiveGrantIsOverwritten(s, Commit(i));
    AbsAfterClient(s, a.client, Committed(s.clients[a.client], a.cfg.mode, a.col.locks), name);
    QuorumSizes(s.n, Write, Write);
    if a.cfg.name == name {
      WinnerFindsLockFree(s, i);
    }
  }

  lemma RefinesUnlock(s: Sys, c: nat, mode: Mode, name: string)
    requires Inv(s) && CanUnlockClient(s, c, mode)
    ensures var l, l' := Abs(s, name), Abs(UnlockClient(s, c, mode), name);
      if s.clients[c].mu.name == name then CanRelease(l, mode) && l' == Released(l, mode) else l' == l
  {
    var cl := s.clients[c];
    assert ClientOk(s.n, cl);
    CountBlank(s.n);
    AbsAfterClient(s, c, Unlocked(cl, mode), name);
    SumAtLeastOne(s.clients, c, WritersOf(name));
    SumAtLeastOne(s.clients, c, ReadersOf(name));
  }

  lemma RefinesJoin(s: Sys, arriving: string, name: string)
    ensures Abs(Join(s, arriving), name) == Abs(s, name)
  {
    var cl := Client(NewMutex(s.n, arriving), 0, 0, 0, 0);
    CountBlank(s.n);
    SumAppend(s.clients, cl, WritersOf(name));
    SumAppend(s.clients, cl, ReadersOf(name));
  }

  /** Every action of the protocol is, for every resource, a step of the promised
      reader/writer lock or invisible to its users. */
  lemma ProtocolRefinesRWLock(s: Sys, act: Action, name: string)
    requires Inv(s) && NothingLost(s) && Enabled(s, act) && !act.Crash?
    ensures Refines(s, act, name)
  {
    match act
    case Commit(i) => RefinesCommit(s, i, name);
    case Unlock(c, mode) => RefinesUnlock(s, c, mode, name);
    case NewClient(arriving) => RefinesJoin(s, arriving, name);
    case _ =>
  }

  lemma StepStaysExclusive(s: Sys, act: Action, name: string)
    requires Inv(s) && NothingLost(s) && Enabled(s, act) && !act.Crash? && Exclusive(Abs(s, name))
    ensures Exclusive(Abs(Apply(s, act), name))
  {
    ProtocolRefinesRWLock(s, act, name);
    ExclusionIsKept(Abs(s, name), Write);
    ExclusionIsKept(Abs(s, name), Read);
  }

  lemma {:induction false} RunStaysExclusive(s: Sys, acts: seq<Action>, name: string)
    requires Inv(s) && NothingLost(s) && CanRun(s, acts) && CrashFree(acts) && Exclusive(Abs(s, name))
    ensures Exclusive(Abs(After(s, acts), name))
    decreases |acts|
  {
    if acts != [] {
      var act := acts[0];
      assert !act.Crash?;
      InvKept(s, act);
      StepStaysExclusive(s, act, name);
      RunStaysExclusive(Apply(s, act), acts[1..], name);
    }
  }
}
