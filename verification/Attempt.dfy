/** The collecting goroutine as it is written (drwmutex.go:217-316): a loop over
    the reply channel that fills `locks` in place, counts refusals, aborts, times
    out, and finally drains. Each method is proved to play the state machine of
    module Collector, and the whole to come to the verdict of module Verdict. */
module Attempt {
  import opened Quorum
  import opened Collector
  import opened Verdict

  /** quorumMet */
  method CheckQuorum(locks: array<string>, isReadLock: bool, quorum: nat, quorumReads: nat) returns (met: bool)
    ensures met <==> |LockedNodes(locks[..])| >= if isReadLock then quorumReads else quorum
  {
    var count := 0;
    for k := 0 to locks.Length
      invariant count == CountLocked(locks[..k])
    {
      assert locks[..k + 1][..k] == locks[..k];
      if IsLocked(locks[k]) {
        count := count + 1;
      }
    }
    assert locks[..locks.Length] == locks[..];
    CountIsSize(locks[..]);
    if isReadLock {
      met := count >= quorumReads;
    } else {
      met := count >= quorum;
    }
  }

  /** releaseAll: a release for every set slot, in node order, and the slot cleared. */
  method ReleaseAll(cfg: Config, locks: array<string>) returns (sent: seq<Token>)
    requires locks.Length == cfg.n
    modifies locks
    ensures locks[..] == Blank(cfg.n)
    ensures sent == Tokens(cfg, old(locks[..]))
  {
    sent := [];
    for k := 0 to cfg.n
      invariant sent == Tokens(cfg, old(locks[..])[..k])
      invariant forall i :: 0 <= i < k ==> locks[i] == ""
      invariant forall i :: k <= i < cfg.n ==> locks[i] == old(locks[..])[i]
    {
      assert old(locks[..])[..k + 1][..k] == old(locks[..])[..k];
      if IsLocked(locks[k]) {
        sent := sent + [Token(k, cfg.name, cfg.mode, locks[k])];
        locks[k] := "";
      }
    }
    assert old(locks[..])[..cfg.n] == old(locks[..]);
  }

  /** One reply inside the loop; `abort` is set on a refusal too many. */
  method TakeReply(cfg: Config, locks: array<string>, grant: Granted, failed: nat, ghost i: nat)
    returns (locksFailed: nat, abort: bool, sent: seq<Token>)
    requires locks.Length == cfg.n && grant.index < cfg.n
    modifies locks
    ensures Step(cfg, State(i, failed, old(locks[..]), false, false), Reply(grant))
         == (State(i + 1, locksFailed, locks[..], abort || i + 1 == cfg.n,
                   (abort || i + 1 == cfg.n) && QuorumMet(cfg, locks[..])), sent)
  {
    var quorumWrites, quorumReads := WriteQuorum(cfg.n), ReadQuorum(cfg.n);
    var isReadLock := cfg.mode.Read?;
    locksFailed, abort, sent := failed, false, [];
    if IsLocked(grant.lockUID) {
      locks[grant.index] := grant.lockUID;
      assert locks[..] == old(locks[..])[grant.index := grant.lockUID];
    } else {
      locksFailed := locksFailed + 1;
      if (!isReadLock && locksFailed > cfg.n - quorumWrites) || (isReadLock && locksFailed > cfg.n - quorumReads) {
        abort := true;
        sent := ReleaseAll(cfg, locks);
      }
    }
  }

  /** The timer inside the loop. */
  method TakeTimeout(cfg: Config, locks: array<string>, ghost i: nat, ghost failed: nat) returns (sent: seq<Token>)
    requires locks.Length == cfg.n
    modifies locks
    ensures Step(cfg, State(i, failed, old(locks[..]), false, false), Timeout)
         == (State(i, failed, locks[..], true, QuorumMet(cfg, locks[..])), sent)
  {
    sent := [];
    CountIsSize(locks[..]);
    var met := CheckQuorum(locks, cfg.mode.Read?, WriteQuorum(cfg.n), ReadQuorum(cfg.n));
    if !met {
      sent := ReleaseAll(cfg, locks);
    }
  }

  /** The loop has taken i replies, none of them the last or a refusal too many. */
  ghost predicate Collecting(cfg: Config, ch: seq<Granted>, i: nat, failed: nat, locks: seq<string>, sent: seq<Token>)
    requires i <= |ch|
  {
    && Possible(cfg, Replies(ch, i))
    && Play(cfg, Replies(ch, i)) == (State(i, failed, locks, false, false), sent)
  }

  /** The loop was left after i replies, with or without the timeout. */
  ghost predicate Left(cfg: Config, ch: seq<Granted>, timeoutAt: nat, timed: bool, i: nat,
                       failed: nat, locks: seq<string>, sent: seq<Token>)
    requires i <= |ch| && (timed ==> timeoutAt <= i)
  {
    && Possible(cfg, Seen(ch, timeoutAt, timed, i))
    && Play(cfg, Seen(ch, timeoutAt, timed, i)) == (State(i, failed, locks, true, QuorumMet(cfg, locks)), sent)
  }

  lemma StartsCollecting(cfg: Config, ch: seq<Granted>)
    ensures Collecting(cfg, ch, 0, 0, Blank(cfg.n), [])
  {
  }

  lemma CollectingIsNotDone(cfg: Config, ch: seq<Granted>, i: nat, failed: nat, locks: seq<string>, sent: seq<Token>)
    requires Arrivals(cfg, ch) && i <= |ch| && Collecting(cfg, ch, i, failed, locks, sent)
    ensures !DoneAt(cfg, ch, i)
  {
  }

  lemma LeftIsDone(cfg: Config, ch: seq<Granted>, timeoutAt: nat, i: nat, failed: nat, locks: seq<string>,
                   sent: seq<Token>)
    requires Arrivals(cfg, ch) && i <= |ch| && Left(cfg, ch, timeoutAt, false, i, failed, locks, sent)
    ensures DoneAt(cfg, ch, i)
  {
  }

  method ReplyIteration(cfg: Config, locks: array<string>, ch: seq<Granted>, i: nat, failed: nat, sent: seq<Token>,
                        ghost timeoutAt: nat)
    returns (locksFailed: nat, abort: bool, sent': seq<Token>)
    requires locks.Length == cfg.n == |ch| && i < cfg.n && Arrivals(cfg, ch)
    requires Collecting(cfg, ch, i, failed, locks[..], sent)
    modifies locks
    ensures if abort || i + 1 == cfg.n then Left(cfg, ch, timeoutAt, false, i + 1, locksFailed, locks[..], sent')
            else Collecting(cfg, ch, i + 1, locksFailed, locks[..], sent')
  {
    SeenNext(cfg, ch, timeoutAt, false, i);
    var released;
    locksFailed, abort, released := TakeReply(cfg, locks, ch[i], failed, i);
    sent' := sent + released;
  }

  method TimeoutIteration(cfg: Config, locks: array<string>, ghost ch: seq<Granted>, ghost i: nat, ghost failed: nat,
                          sent: seq<Token>)
    returns (sent': seq<Token>)
    requires locks.Length == cfg.n == |ch| && i < cfg.n && Arrivals(cfg, ch)
    requires Collecting(cfg, ch, i, failed, locks[..], sent)
    modifies locks
    ensures Left(cfg, ch, i, true, i, failed, locks[..], sent')
  {
    TimeoutNext(cfg, ch, i);
    var released := TakeTimeout(cfg, locks, i, failed);
    sent' := sent + released;
  }

  /** The collecting loop up to the verdict: `i` replies taken from the channel. */
  method AwaitVerdict(cfg: Config, locks: array<string>, ch: seq<Granted>, timeoutAt: nat)
    returns (i: nat, quorum: bool, sent: seq<Token>, ghost failed: nat, ghost timed: bool)
    requires cfg.n >= 2 && locks.Length == cfg.n == |ch|
    requires locks[..] == Blank(cfg.n)
    requires Arrivals(cfg, ch)
    modifies locks
    ensures i <= cfg.n
    ensures timed ==> i == timeoutAt < cfg.n && !DoneAt(cfg, ch, timeoutAt)
    ensures !timed ==> i <= timeoutAt && DoneAt(cfg, ch, i)
    ensures quorum == QuorumMet(cfg, locks[..])
    ensures Left(cfg, ch, timeoutAt, timed, i, failed, locks[..], sent)
  {
    var locksFailed, done := 0, false;
    i, sent, timed := 0, [], false;
    StartsCollecting(cfg, ch);

    while i < cfg.n
      invariant i <= cfg.n && i <= timeoutAt && !timed
      invariant i < cfg.n ==> Collecting(cfg, ch, i, locksFailed, locks[..], sent)
      invariant i == cfg.n ==> Left(cfg, ch, timeoutAt, false, i, locksFailed, locks[..], sent)
    {
      if i == timeoutAt {
        done := true;
        timed := true;
        CollectingIsNotDone(cfg, ch, i, locksFailed, locks[..], sent);
        sent := TimeoutIteration(cfg, locks, ch, i, locksFailed, sent);
      } else {
        locksFailed, done, sent := ReplyIteration(cfg, locks, ch, i, locksFailed, sent, timeoutAt);
        if done {
          i := i + 1;
        }
      }
      if done {
        break;
      }
      i := i + 1;
    }

    if !timed {
      LeftIsDone(cfg, ch, timeoutAt, i, locksFailed, locks[..], sent);
    }
    CountIsSize(locks[..]);
    quorum := CheckQuorum(locks, cfg.mode.Read?, WriteQuorum(cfg.n), ReadQuorum(cfg.n));
    failed := locksFailed;
  }

  /** The loop after the verdict: late grants are released at once. */
  method Drain(cfg: Config, ch: seq<Granted>, from: nat, already: seq<Token>) returns (sent: seq<Token>)
    requires from <= |ch| == cfg.n
    ensures sent == already + ReleasesOf(cfg, ch[from..])
  {
    sent := already;
    for i := from to cfg.n
      invariant sent == already + ReleasesOf(cfg, ch[from..i])
    {
      ReleasesSnoc(cfg, ch, from, i);
      var late := ch[i];
      if IsLocked(late.lockUID) {
        sent := sent + [Token(late.index, cfg.name, cfg.mode, late.lockUID)];
      }
    }
    assert ch[from..cfg.n] == ch[from..];
  }

  /** The collecting goroutine: await the verdict, then take the remaining replies
      and release late grants at once. `ch` is the channel content in order of
      arrival; the timer fires at the iteration numbered `timeoutAt`, if ever. */
  method Collect(cfg: Config, locks: array<string>, ch: seq<Granted>, timeoutAt: nat)
    returns (quorum: bool, sent: seq<Token>)
    requires cfg.n >= 2 && locks.Length == cfg.n == |ch|
    requires locks[..] == Blank(cfg.n)
    requires Arrivals(cfg, ch)
    modifies locks
    ensures Possible(cfg, Script(cfg, ch, timeoutAt))
    ensures var c := Play(cfg, Script(cfg, ch, timeoutAt)).0;
      c.done && c.received == cfg.n && c.quorum == quorum && c.locks == locks[..]
    ensures sent == Play(cfg, Script(cfg, ch, timeoutAt)).1
    ensures multiset(Tokens(cfg, locks[..])) + multiset(sent) == Grants(cfg, Replies(ch, |ch|))
    ensures if quorum then |LockedNodes(locks[..])| >= cfg.Quorum() else locks[..] == Blank(cfg.n)
    ensures Outcome(cfg, ch, InTime(cfg.n, timeoutAt), quorum, locks[..], sent)
  {
    ghost var failed, timed;
    var i;
    i, quorum, sent, failed, timed := AwaitVerdict(cfg, locks, ch, timeoutAt);
    DrainReleases(cfg, ch, timeoutAt, timed, i, State(i, failed, locks[..], true, quorum), sent);
    sent := Drain(cfg, ch, i, sent);
    SeenIsScript(cfg, ch, timeoutAt, timed, i);
    VerdictAccounts(cfg, ch, timeoutAt);
    VerdictIsExact(cfg, ch, timeoutAt);
  }
}
