/** The lock server that keeps one counter per resource
    (performance/performance-server.go): -1 for a write lock, otherwise the
    number of read locks. It ignores UIDs. */
module CounterServer {
  import opened Int64
  import opened Quorum
  import opened UidServer

  const WRITE_LOCK: int := -1
  const READ_LOCK: int := 1

  type CounterMap = map<string, int>

  function CounterAcquire(m: CounterMap, mode: Mode, name: string): (CounterMap, bool) {
    if name !in m then (m[name := if mode.Write? then WRITE_LOCK else READ_LOCK], true)
    else if mode.Read? && m[name] != WRITE_LOCK then (m[name := Wrap64(m[name] + READ_LOCK)], true)
    else (m, false)
  }

  function CounterRelease(m: CounterMap, mode: Mode, name: string): (CounterMap, Response) {
    if name !in m then (m, Response(false, NotLocked))
    else if mode.Write? && m[name] != WRITE_LOCK then (m, Response(false, ReadLocked(m[name])))
    else if mode.Read? && m[name] == WRITE_LOCK then (m, Response(false, WriteLocked))
    else if mode.Read? && m[name] > READ_LOCK then (m[name := m[name] - READ_LOCK], Response(true, NoError))
    else (m - {name}, Response(true, NoError))
  }

  class LockServer {
    var lockMap: CounterMap

    constructor ()
      ensures lockMap == map[]
    {
      lockMap := map[];
    }

    method Lock(name: string) returns (reply: bool)
      modifies this
      ensures (lockMap, reply) == CounterAcquire(old(lockMap), Write, name)
    {
      reply := name in lockMap;
      if !reply {
        lockMap := lockMap[name := WRITE_LOCK];
      }
      reply := !reply;
    }

    method Unlock(name: string) returns (resp: Response)
      modifies this
      ensures (lockMap, resp) == CounterRelease(old(lockMap), Write, name)
    {
      if name !in lockMap {
        return Response(false, NotLocked);
      }
      var locksHeld := lockMap[name];
      if locksHeld != WRITE_LOCK {
        return Response(false, ReadLocked(locksHeld));
      }
      lockMap := lockMap - {name};
      resp := Response(true, NoError);
    }

    method RLock(name: string) returns (reply: bool)
      modifies this
      ensures (lockMap, reply) == CounterAcquire(old(lockMap), Read, name)
    {
      if name !in lockMap {
        lockMap := lockMap[name := READ_LOCK];
        reply := true;
      } else {
        var locksHeld := lockMap[name];
        reply := locksHeld != WRITE_LOCK;
        if reply {
          lockMap := lockMap[name := Wrap64(locksHeld + READ_LOCK)];
        }
      }
    }

    method RUnlock(name: string) returns (resp: Response)
      modifies this
      ensures (lockMap, resp) == CounterRelease(old(lockMap), Read, name)
    {
      if name !in lockMap {
        return Response(false, NotLocked);
      }
      var locksHeld := lockMap[name];
      if locksHeld == WRITE_LOCK {
        return Response(false, WriteLocked);
      }
      if locksHeld > READ_LOCK {
        lockMap := lockMap[name := locksHeld - READ_LOCK];
      } else {
        lockMap := lockMap - {name};
      }
      resp := Response(true, NoError);
    }
  }

  // ---------------------------------------------------------------- simulation

  datatype Op =
    | Take(mode: Mode, name: string, uid: string, now: int)
    | Drop(mode: Mode, name: string, uid: string)

  function UidStep(m: LockMap, op: Op): (LockMap, Response) {
    match op
    case Take(mode, name, uid, now) =>
      var (m', granted) := Acquire(m, mode, name, uid, now);
      (m', Response(granted, NoError))
    case Drop(mode, name, uid) => Release(m, mode, name, uid)
  }

  function CounterStep(m: CounterMap, op: Op): (CounterMap, Response) {
    match op
    case Take(mode, name, _, _) =>
      var (m', granted) := CounterAcquire(m, mode, name);
      (m', Response(granted, NoError))
    case Drop(mode, name, _) => CounterRelease(m, mode, name)
  }

  function UidReplies(m: LockMap, ops: seq<Op>): seq<Response>
    decreases |ops|
  {
    if ops == [] then []
    else var (m', r) := UidStep(m, ops[0]); [r] + UidReplies(m', ops[1..])
  }

  function UidAfter(m: LockMap, ops: seq<Op>): LockMap
    decreases |ops|
  {
    if ops == [] then m else UidAfter(UidStep(m, ops[0]).0, ops[1..])
  }

  function CounterReplies(m: CounterMap, ops: seq<Op>): seq<Response>
    decreases |ops|
  {
    if ops == [] then []
    else var (m', r) := CounterStep(m, ops[0]); [r] + CounterReplies(m', ops[1..])
  }

  function CounterAfter(m: CounterMap, ops: seq<Op>): CounterMap
    decreases |ops|
  {
    if ops == [] then m else CounterAfter(CounterStep(m, ops[0]).0, ops[1..])
  }

  function Count(lri: seq<Entry>): int {
    if IsWriteLock(lri) then WRITE_LOCK else |lri|
  }

  /** Forget the UIDs: a writer becomes -1, readers become their number. */
  function Forget(m: LockMap): CounterMap {
    map r | r in m :: Count(m[r])
  }

  /** A release that meets a lock of its own mode names a UID held there. */
  predicate Faithful(m: LockMap, op: Op) {
    op.Drop? && op.name in m && IsWriteLock(m[op.name]) == op.mode.Write? ==> HasUid(m[op.name], op.uid)
  }

  predicate AllFaithful(m: LockMap, ops: seq<Op>)
    decreases |ops|
  {
    ops == [] || (Faithful(m, ops[0]) && AllFaithful(UidStep(m, ops[0]).0, ops[1..]))
  }

  /** No resource has so many entries that the counter could overflow within
      this many further operations. */
  ghost predicate Room(m: LockMap, further: nat) {
    forall r :: r in m ==> |m[r]| + further < TWO_63
  }

  lemma ForgetUpdates(m: LockMap, name: string, lri: seq<Entry>)
    ensures Forget(m[name := lri]) == Forget(m)[name := Count(lri)]
    ensures Forget(m - {name}) == Forget(m) - {name}
  {
  }

  lemma TakeSimulates(m: LockMap, mode: Mode, name: string, uid: string, now: int)
    requires WellFormed(m) && Room(m, 1)
    ensures CounterAcquire(Forget(m), mode, name)
         == (Forget(Acquire(m, mode, name, uid, now).0), Acquire(m, mode, name, uid, now).1)
  {
    var e := Entry(mode.Write?, uid, now, now);
    if name in m {
      ForgetUpdates(m, name, m[name] + [e]);
    } else {
      ForgetUpdates(m, name, [e]);
    }
  }

  lemma DropSimulates(m: LockMap, mode: Mode, name: string, uid: string)
    requires WellFormed(m)
    ensures Faithful(m, Drop(mode, name, uid)) ==>
      CounterRelease(Forget(m), mode, name) == (Forget(Release(m, mode, name, uid).0), Release(m, mode, name, uid).1)
    ensures !Faithful(m, Drop(mode, name, uid)) ==>
      CounterRelease(Forget(m), mode, name).1 != Release(m, mode, name, uid).1
  {
    if name in m && HasUid(m[name], uid) {
      ForgetUpdates(m, name, RemoveFirst(m[name], uid));
      if |m[name]| > 1 {
        ReadersStayReaders(m[name], uid);
      }
    }
  }

  /** One operation: the servers answer alike and stay related exactly when the
      operation is faithful; otherwise already the answers differ. */
  lemma StepSimulates(m: LockMap, op: Op)
    requires WellFormed(m) && Room(m, 1)
    ensures WellFormed(UidStep(m, op).0)
    ensures Faithful(m, op) ==> CounterStep(Forget(m), op) == (Forget(UidStep(m, op).0), UidStep(m, op).1)
    ensures !Faithful(m, op) ==> CounterStep(Forget(m), op).1 != UidStep(m, op).1
  {
    match op
    case Take(mode, name, uid, now) =>
      AcquireEffect(m, mode, name, uid, now);
      TakeSimulates(m, mode, name, uid, now);
    case Drop(mode, name, uid) =>
      ReleaseEffect(m, mode, name, uid);
      DropSimulates(m, mode, name, uid);
  }

  /** Without room the relation is lost: one reader too many turns the counter negative. */
  lemma CounterOverflows(m: LockMap, name: string, uid: string, now: int)
    requires WellFormed(m) && name in m && !IsWriteLock(m[name])
    requires |m[name]| == TWO_63 - 1
    ensures CounterAcquire(Forget(m), Read, name).0[name] == -TWO_63
    ensures CounterAcquire(Forget(m), Read, name).0 != Forget(Acquire(m, Read, name, uid, now).0)
  {
    var c := CounterAcquire(Forget(m), Read, name).0;
    assert Forget(m)[name] == TWO_63 - 1;
    assert Forget(Acquire(m, Read, name, uid, now).0)[name] >= WRITE_LOCK;
  }

  lemma RoomShrinks(m: LockMap, op: Op, further: nat)
    requires WellFormed(m) && Room(m, further + 1) && further + 1 < TWO_63
    ensures Room(UidStep(m, op).0, further)
  {
  }

  /** Over a whole history the two servers give the same answers if and only if
      every release is faithful; and then the counters are the UID lists with
      the UIDs forgotten. */
  lemma {:induction false} HistorySimulates(m: LockMap, ops: seq<Op>)
    requires WellFormed(m) && Room(m, |ops|) && |ops| < TWO_63
    ensures UidReplies(m, ops) == CounterReplies(Forget(m), ops) <==> AllFaithful(m, ops)
    ensures AllFaithful(m, ops) ==> CounterAfter(Forget(m), ops) == Forget(UidAfter(m, ops))
    decreases |ops|
  {
    if ops != [] {
      var (m', r) := UidStep(m, ops[0]);
      var (c', q) := CounterStep(Forget(m), ops[0]);
      StepSimulates(m, ops[0]);
      RoomShrinks(m, ops[0], |ops| - 1);
      assert UidReplies(m, ops)[0] == r && CounterReplies(Forget(m), ops)[0] == q;
      if Faithful(m, ops[0]) {
        HistorySimulates(m', ops[1..]);
        assert UidReplies(m, ops)[1..] == UidReplies(m', ops[1..]);
        assert CounterReplies(Forget(m), ops)[1..] == CounterReplies(c', ops[1..]);
      }
    }
  }

  lemma {:induction false} CounterServerSimulates(ops: seq<Op>)
    requires |ops| < TWO_63
    ensures UidReplies(map[], ops) == CounterReplies(map[], ops) <==> AllFaithful(map[], ops)
    ensures AllFaithful(map[], ops) ==> CounterAfter(map[], ops) == Forget(UidAfter(map[], ops))
  {
    assert Forget(map[]) == map[];
    HistorySimulates(map[], ops);
  }

  /** A release under a foreign UID: the counter server gives the lock away. */
  lemma ForeignReleaseDiverges()
    ensures var ops := [Take(Write, "r", "a", 0), Drop(Write, "r", "b"), Take(Write, "r", "c", 1)];
      !AllFaithful(map[], ops) && UidReplies(map[], ops) != CounterReplies(map[], ops)
  {
    var ops := [Take(Write, "r", "a", 0), Drop(Write, "r", "b"), Take(Write, "r", "c", 1)];
    var m := UidStep(map[], ops[0]).0;
    assert m["r"] == [Entry(true, "a", 0, 0)];
    assert ops[1..][0] == Drop(Write, "r", "b");
    assert "a" != "b";
    assert !Faithful(m, ops[1..][0]);
    CounterServerSimulates(ops);
  }

  /** Every server history keeps the map well formed. */
  lemma {:induction false} HistoryWellFormed(m: LockMap, ops: seq<Op>)
    requires WellFormed(m)
    ensures WellFormed(UidAfter(m, ops))
    decreases |ops|
  {
    if ops != [] {
      match ops[0] {
        case Take(mode, name, uid, now) => AcquireEffect(m, mode, name, uid, now);
        case Drop(mode, name, uid) => ReleaseEffect(m, mode, name, uid);
      }
      HistoryWellFormed(UidStep(m, ops[0]).0, ops[1..]);
    }
  }
}
