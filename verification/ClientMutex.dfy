/** The client-side mutex object (drwmutex.go, DRWMutex): the vector of a held
    write lock and the queue of vectors of held read locks. All its operations run
    under `dm.m`, so each is one atomic change of the object. */
module ClientMutex {
  import opened Quorum
  import opened Collector

  datatype Mutex = Mutex(name: string, writeLocks: seq<string>, readersLocks: seq<seq<string>>)

  function NewMutex(n: nat, name: string): Mutex {
    Mutex(name, Blank(n), [])
  }

  /** What lockBlocking stores after a won attempt. */
  function Store(mu: Mutex, mode: Mode, locks: seq<string>): Mutex {
    if mode.Read? then mu.(readersLocks := mu.readersLocks + [locks])
    else mu.(writeLocks := locks)
  }

  predicate CanUnlock(mu: Mutex, mode: Mode) {
    if mode.Read? then mu.readersLocks != [] else CountLocked(mu.writeLocks) > 0
  }

  /** The vector an unlock takes out: the write vector, or the oldest reader's. */
  function Oldest(mu: Mutex, mode: Mode): seq<string>
    requires CanUnlock(mu, mode)
  {
    if mode.Read? then mu.readersLocks[0] else mu.writeLocks
  }

  function TakeOut(mu: Mutex, mode: Mode): Mutex
    requires CanUnlock(mu, mode)
  {
    if mode.Read? then mu.(readersLocks := mu.readersLocks[1..])
    else mu.(writeLocks := Blank(|mu.writeLocks|))
  }

  predicate Shaped(n: nat, mu: Mutex) {
    && |mu.writeLocks| == n
    && (forall k :: 0 <= k < |mu.readersLocks| ==> |mu.readersLocks[k]| == n)
  }

  datatype UnlockResult = Panicked | Sent(releases: seq<Token>)

  /** The outcome of one attempt, and whether the deadline has passed after it. */
  datatype Verdict = Verdict(success: bool, locks: seq<string>, pastDeadline: bool)

  datatype LockResult = Locked(attempt: nat) | GaveUp(attempt: nat) | StillTrying

  class DRWMutex {
    const name: string
    const dNodeCount: nat
    var writeLocks: seq<string>
    var readersLocks: seq<seq<string>>

    function View(): Mutex
      reads this
    {
      Mutex(name, writeLocks, readersLocks)
    }

    ghost predicate Valid()
      reads this
    {
      Shaped(dNodeCount, View())
    }

    constructor (n: nat, name: string)
      ensures Valid() && dNodeCount == n && View() == NewMutex(n, name)
    {
      this.name := name;
      dNodeCount := n;
      writeLocks := Blank(n);
      readersLocks := [];
    }

    /** lockBlocking: retries until an attempt wins or the deadline has passed. */
    method LockBlocking(mode: Mode, attempts: seq<Verdict>) returns (r: LockResult)
      requires Valid()
      requires forall k :: 0 <= k < |attempts| ==> |attempts[k].locks| == dNodeCount
      modifies this
      ensures Valid()
      ensures r.Locked? || r.GaveUp? ==> r.attempt < |attempts|
      ensures var tried := if r.StillTrying? then |attempts| else r.attempt;
        forall j :: 0 <= j < tried ==> !attempts[j].success && !attempts[j].pastDeadline
      ensures r.Locked? ==>
        && attempts[r.attempt].success
        && View() == Store(old(View()), mode, attempts[r.attempt].locks)
        && (mode == Read ==> readersLocks == old(readersLocks) + [attempts[r.attempt].locks])
        && (mode == Write ==> writeLocks == attempts[r.attempt].locks && readersLocks == old(readersLocks))
      ensures r.GaveUp? ==> !attempts[r.attempt].success && attempts[r.attempt].pastDeadline
      ensures !r.Locked? ==> View() == old(View())
    {
      for k := 0 to |attempts|
        invariant View() == old(View())
        invariant forall j :: 0 <= j < k ==> !attempts[j].success && !attempts[j].pastDeadline
      {
        if attempts[k].success {
          if mode.Read? {
            readersLocks := readersLocks + [attempts[k].locks];
          } else {
            writeLocks := attempts[k].locks;
          }
          return Locked(k);
        }
        if attempts[k].pastDeadline {
          return GaveUp(k);
        }
      }
      r := StillTrying;
    }

    /** Unlock: panics when no slot is set, otherwise clears the vector and
        releases every grant in it. */
    method Unlock() returns (r: UnlockResult)
      requires Valid()
      modifies this
      ensures Valid()
      ensures r.Panicked? <==> !CanUnlock(old(View()), Write)
      ensures r.Panicked? <==> forall k :: 0 <= k < dNodeCount ==> old(writeLocks)[k] == ""
      ensures r.Panicked? ==> View() == old(View())
      ensures !r.Panicked? ==> LockedNodes(writeLocks) == {} && readersLocks == old(readersLocks)
      ensures !r.Panicked? ==>
        && View() == TakeOut(old(View()), Write)
        && r.releases == Tokens(Config(dNodeCount, Write, name), old(writeLocks))
    {
      var lockFound := false;
      CountZero(writeLocks);
      for k := 0 to |writeLocks|
        invariant !lockFound
        invariant forall j :: 0 <= j < k ==> !IsLocked(writeLocks[j])
      {
        if IsLocked(writeLocks[k]) {
          lockFound := true;
          break;
        }
      }
      if !lockFound {
        return Panicked;
      }
      var locks := writeLocks;
      writeLocks := Blank(dNodeCount);
      var sent := SendReleases(Config(dNodeCount, Write, name), locks);
      r := Sent(sent);
    }

    /** RUnlock: takes the oldest reader's vector out of the queue. */
    method RUnlock() returns (r: UnlockResult)
      requires Valid()
      modifies this
      ensures Valid()
      ensures r.Panicked? <==> !CanUnlock(old(View()), Read)
      ensures r.Panicked? <==> old(readersLocks) == []
      ensures r.Panicked? ==> View() == old(View())
      ensures !r.Panicked? ==>
        [old(readersLocks)[0]] + readersLocks == old(readersLocks) && writeLocks == old(writeLocks)
      ensures !r.Panicked? ==>
        && View() == TakeOut(old(View()), Read)
        && r.releases == Tokens(Config(dNodeCount, Read, name), old(readersLocks)[0])
    {
      if |readersLocks| == 0 {
        return Panicked;
      }
      var locks := readersLocks[0];
      readersLocks := readersLocks[1..];
      var sent := SendReleases(Config(dNodeCount, Read, name), locks);
      r := Sent(sent);
    }
  }

  /** unlock: a release to every node that granted, in node order. */
  method SendReleases(cfg: Config, locks: seq<string>) returns (sent: seq<Token>)
    requires |locks| == cfg.n
    ensures sent == Tokens(cfg, locks)
  {
    sent := [];
    for k := 0 to |locks|
      invariant sent == Tokens(cfg, locks[..k])
    {
      assert locks[..k + 1][..k] == locks[..k];
      if IsLocked(locks[k]) {
        sent := sent + [Token(k, cfg.name, cfg.mode, locks[k])];
      }
    }
    assert locks[..|locks|] == locks;
  }
}
