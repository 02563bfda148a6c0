/** The lock server that keeps one entry per granted lock (chaos/lock-rpc-server.go).
    The handlers are given first as functions on the lock map, then as a class
    whose methods update the map in place and are proved against them. */
module UidServer {
  import opened Quorum

  datatype Entry = Entry(writer: bool, uid: string, timestamp: int, timeLastCheck: int)

  type LockMap = map<string, seq<Entry>>

  /** What an RPC hands back: the reply value and, on failure, an error. */
  datatype LockError =
    | NoError
    | NotLocked
    | ReadLocked(readers: int)
    | WriteLocked
    | UnknownUid

  datatype Response = Response(reply: bool, error: LockError)

  predicate IsWriteLock(lri: seq<Entry>) {
    |lri| == 1 && lri[0].writer
  }

  /** Entries of one resource: either a single writer, or only readers. */
  predicate OneWriterOrReaders(lri: seq<Entry>) {
    IsWriteLock(lri) || forall i :: 0 <= i < |lri| ==> !lri[i].writer
  }

  predicate WellFormed(m: LockMap) {
    forall r :: r in m ==> m[r] != [] && OneWriterOrReaders(m[r])
  }

  /** The lock handlers: the write handler wants no entry at all, the read
      handler only that there is no write entry. */
  function Acquire(m: LockMap, mode: Mode, name: string, uid: string, now: int): (LockMap, bool) {
    var entry := Entry(mode.Write?, uid, now, now);
    if name !in m then (m[name := [entry]], true)
    else if mode.Read? && !IsWriteLock(m[name]) then (m[name := m[name] + [entry]], true)
    else (m, false)
  }

  /** Drops the first entry with this UID. */
  function RemoveFirst(lri: seq<Entry>, uid: string): (r: seq<Entry>)
    ensures |r| <= |lri|
  {
    if lri == [] then []
    else if lri[0].uid == uid then lri[1..]
    else [lri[0]] + RemoveFirst(lri[1..], uid)
  }

  predicate HasUid(lri: seq<Entry>, uid: string) {
    exists i :: 0 <= i < |lri| && lri[i].uid == uid
  }

  /** removeEntry: deletes the key when its last entry goes. */
  function RemoveEntry(m: LockMap, name: string, uid: string): LockMap
    requires name in m
  {
    if !HasUid(m[name], uid) then m
    else if |m[name]| == 1 then m - {name}
    else m[name := RemoveFirst(m[name], uid)]
  }

  /** removeEntryIfExists, the removal used by lock maintenance. */
  function RemoveEntryIfExists(m: LockMap, name: string, uid: string): LockMap {
    if name in m then RemoveEntry(m, name, uid) else m
  }

  /** The unlock handlers. */
  function Release(m: LockMap, mode: Mode, name: string, uid: string): (LockMap, Response) {
    if name !in m then (m, Response(false, NotLocked))
    else if mode.Write? && !IsWriteLock(m[name]) then (m, Response(false, ReadLocked(|m[name]|)))
    else if mode.Read? && IsWriteLock(m[name]) then (m, Response(false, WriteLocked))
    else if !HasUid(m[name], uid) then (m, Response(true, UnknownUid))
    else (RemoveEntry(m, name, uid), Response(true, NoError))
  }

  // ---------------------------------------------------------------- counting

  function CountIn(lri: seq<Entry>, mode: Mode, uid: string): nat {
    if lri == [] then 0
    else (if lri[0].writer == mode.Write? && lri[0].uid == uid then 1 else 0) + CountIn(lri[1..], mode, uid)
  }

  /** How many entries a server keeps for a resource, mode and UID. */
  function EntryCount(m: LockMap, name: string, mode: Mode, uid: string): nat {
    if name in m then CountIn(m[name], mode, uid) else 0
  }

  lemma {:induction false} CountAppend(lri: seq<Entry>, e: Entry, mode: Mode, uid: string)
    ensures CountIn(lri + [e], mode, uid)
         == CountIn(lri, mode, uid) + (if e.writer == mode.Write? && e.uid == uid then 1 else 0)
  {
    if lri == [] {
      assert lri + [e] == [e];
    } else {
      CountAppend(lri[1..], e, mode, uid);
      assert (lri + [e])[1..] == lri[1..] + [e];
    }
  }

  lemma {:induction false} CountPositive(lri: seq<Entry>, mode: Mode, uid: string)
    ensures CountIn(lri, mode, uid) > 0 <==>
      exists i :: 0 <= i < |lri| && lri[i].writer == mode.Write? && lri[i].uid == uid
  {
    if lri != [] {
      CountPositive(lri[1..], mode, uid);
      assert forall i :: 1 <= i < |lri| ==> lri[i] == lri[1..][i - 1];
      assert forall i :: 0 <= i < |lri| - 1 ==> lri[1..][i] == lri[i + 1];
    }
  }

  /** A well-formed list shows at most one writer, and a writer is alone. */
  lemma WriterIsAlone(lri: seq<Entry>, uid: string)
    requires OneWriterOrReaders(lri)
    ensures CountIn(lri, Write, uid) <= 1
    ensures CountIn(lri, Write, uid) == 1 ==> lri == [lri[0]] && lri[0].writer && lri[0].uid == uid
  {
    CountPositive(lri, Write, uid);
    if IsWriteLock(lri) {
      assert lri == [lri[0]];
      assert lri[1..] == [];
    }
  }

  lemma {:induction false} RemoveFirstEffect(lri: seq<Entry>, uid: string, mode: Mode, other: string)
    requires HasUid(lri, uid)
    requires forall i :: 0 <= i < |lri| ==> lri[i].writer == mode.Write?
    ensures |RemoveFirst(lri, uid)| == |lri| - 1
    ensures forall e :: e in RemoveFirst(lri, uid) ==> e in lri
    ensures CountIn(RemoveFirst(lri, uid), mode, other) == CountIn(lri, mode, other) - (if other == uid then 1 else 0)
  {
    if lri[0].uid != uid {
      var j :| 0 <= j < |lri| && lri[j].uid == uid;
      assert lri[1..][j - 1].uid == uid;
      RemoveFirstEffect(lri[1..], uid, mode, other);
      assert ([lri[0]] + RemoveFirst(lri[1..], uid))[1..] == RemoveFirst(lri[1..], uid);
    }
  }

  lemma {:induction false} RemoveFirstAt(lri: seq<Entry>, uid: string, k: nat)
    requires k < |lri| && lri[k].uid == uid
    requires forall i :: 0 <= i < k ==> lri[i].uid != uid
    ensures RemoveFirst(lri, uid) == lri[..k] + lri[k + 1..]
  {
    if k > 0 {
      var tail := lri[1..];
      assert forall i :: 0 <= i < k - 1 ==> tail[i] == lri[i + 1];
      RemoveFirstAt(tail, uid, k - 1);
      assert lri[..k] + lri[k + 1..] == [lri[0]] + (tail[..k - 1] + tail[k..]);
    }
  }

  /** The removal takes out exactly one entry, the first with this UID, and keeps
      the others in their order. */
  lemma RemoveFirstSplices(lri: seq<Entry>, uid: string) returns (k: nat)
    requires HasUid(lri, uid)
    ensures k < |lri| && lri[k].uid == uid
    ensures forall i :: 0 <= i < k ==> lri[i].uid != uid
    ensures RemoveFirst(lri, uid) == lri[..k] + lri[k + 1..]
  {
    k := 0;
    while lri[k].uid != uid
      invariant k < |lri|
      invariant forall i :: 0 <= i < k ==> lri[i].uid != uid
      decreases |lri| - k
    {
      k := k + 1;
    }
    RemoveFirstAt(lri, uid, k);
  }

  // ---------------------------------------------------------------- handlers

  ghost predicate SameElsewhere(m: LockMap, m': LockMap, name: string) {
    forall r :: r != name ==> (r in m <==> r in m') && (r in m ==> m'[r] == m[r])
  }

  /** The request is the last entry of its resource, behind those that were there. */
  predicate Appended(before: seq<Entry>, after: seq<Entry>, mode: Mode, uid: string, now: int) {
    && |after| == |before| + 1 && after[..|before|] == before
    && var e := after[|before|];
       (e.writer <==> mode == Write) && e.uid == uid && e.timestamp == now && e.timeLastCheck == now
  }

  /** A lock request is granted exactly when no conflicting entry is kept; a grant
      appends its entry and a refusal changes nothing. */
  lemma AcquireEffect(m: LockMap, mode: Mode, name: string, uid: string, now: int)
    requires WellFormed(m)
    ensures var (m', granted) := Acquire(m, mode, name, uid, now);
      && WellFormed(m')
      && SameElsewhere(m, m', name)
      && (granted <==> forall md, u :: Conflict(mode, md) ==> EntryCount(m, name, md, u) == 0)
      && (!granted ==> m' == m)
      && (granted ==> name in m' && Appended(if name in m then m[name] else [], m'[name], mode, uid, now))
  {
    var (m', granted) := Acquire(m, mode, name, uid, now);
    if name in m {
      var e := m[name][0];
      var md := if e.writer then Write else Read;
      CountPositive(m[name], md, e.uid);
      assert EntryCount(m, name, md, e.uid) > 0;
      forall u ensures EntryCount(m, name, Write, u) > 0 ==> IsWriteLock(m[name]) {
        CountPositive(m[name], Write, u);
      }
    }
  }

  lemma AcquireCounts(m: LockMap, mode: Mode, name: string, uid: string, now: int, r: string, md: Mode, u: string)
    ensures var (m', granted) := Acquire(m, mode, name, uid, now);
      EntryCount(m', r, md, u)
      == EntryCount(m, r, md, u) + (if granted && r == name && md == mode && u == uid then 1 else 0)
  {
    var e := Entry(mode.Write?, uid, now, now);
    if name in m {
      CountAppend(m[name], e, md, u);
    } else {
      CountAppend([], e, md, u);
      assert [] + [e] == [e];
    }
  }

  lemma ReadersStayReaders(lri: seq<Entry>, uid: string)
    requires HasUid(lri, uid)
    requires forall i :: 0 <= i < |lri| ==> !lri[i].writer
    ensures |RemoveFirst(lri, uid)| == |lri| - 1
    ensures forall i :: 0 <= i < |RemoveFirst(lri, uid)| ==> !RemoveFirst(lri, uid)[i].writer
  {
    RemoveFirstEffect(lri, uid, Read, uid);
    forall i | 0 <= i < |RemoveFirst(lri, uid)| ensures !RemoveFirst(lri, uid)[i].writer {
      assert RemoveFirst(lri, uid)[i] in lri;
    }
  }

  lemma RemoveEntryWellFormed(m: LockMap, name: string, uid: string)
    requires WellFormed(m)
    ensures WellFormed(RemoveEntryIfExists(m, name, uid))
    ensures SameElsewhere(m, RemoveEntryIfExists(m, name, uid), name)
  {
    if name in m && HasUid(m[name], uid) && |m[name]| > 1 {
      ReadersStayReaders(m[name], uid);
    }
  }

  /** An entry of either mode under this UID goes, the first one; nothing else. */
  lemma RemoveEntryCounts(m: LockMap, name: string, uid: string, r: string, md: Mode, u: string)
    requires WellFormed(m)
    ensures EntryCount(RemoveEntryIfExists(m, name, uid), r, md, u)
         == EntryCount(m, r, md, u) - (if r == name && u == uid && EntryCount(m, r, md, u) > 0 then 1 else 0)
  {
    if name in m {
      var lri := m[name];
      CountPositive(lri, md, u);
      if HasUid(lri, uid) {
        if |lri| == 1 {
          assert lri == [lri[0]] && lri[1..] == [];
        } else if md == Read {
          RemoveFirstEffect(lri, uid, Read, u);
          if r == name && u == uid {
            var i :| 0 <= i < |lri| && lri[i].uid == uid;
            assert !lri[i].writer;
          }
        } else {
          ReadersStayReaders(lri, uid);
          CountPositive(RemoveFirst(lri, uid), Write, u);
        }
      }
    }
  }

  /** A release that finds its entry takes away exactly that entry and reports no
      error; any other release changes nothing and reports an error. */
  lemma ReleaseEffect(m: LockMap, mode: Mode, name: string, uid: string)
    requires WellFormed(m)
    ensures var (m', resp) := Release(m, mode, name, uid);
      && WellFormed(m')
      && SameElsewhere(m, m', name)
      && (resp.error.NoError? <==> EntryCount(m, name, mode, uid) > 0)
      && (resp.error.NoError? ==> resp.reply)
      && (!resp.error.NoError? ==> m' == m)
      && (resp.error.NoError? ==> m' == RemoveEntryIfExists(m, name, uid))
  {
    RemoveEntryWellFormed(m, name, uid);
    if name in m {
      CountPositive(m[name], mode, uid);
    }
  }

  /** Some entry of this mode is kept. */
  ghost predicate HeldIn(m: LockMap, name: string, mode: Mode) {
    exists u :: EntryCount(m, name, mode, u) > 0
  }

  lemma {:induction false} CountsAddUp(lri: seq<Entry>, mode: Mode, uids: multiset<string>)
    requires forall i :: 0 <= i < |lri| ==> lri[i].writer == mode.Write?
    requires forall u :: uids[u] == CountIn(lri, mode, u)
    ensures |uids| == |lri|
  {
    if lri == [] {
      assert uids == multiset{};
    } else {
      var first := lri[0].uid;
      assert uids[first] > 0;
      var rest := uids - multiset{first};
      forall u ensures rest[u] == CountIn(lri[1..], mode, u) {
      }
      CountsAddUp(lri[1..], mode, rest);
      assert uids == rest + multiset{first};
    }
  }

  lemma KeptMode(m: LockMap, name: string)
    requires WellFormed(m)
    ensures HeldIn(m, name, Write) <==> name in m && IsWriteLock(m[name])
    ensures HeldIn(m, name, Read) <==> name in m && !IsWriteLock(m[name])
  {
    if name in m {
      var e := m[name][0];
      CountPositive(m[name], if e.writer then Write else Read, e.uid);
      assert EntryCount(m, name, if e.writer then Write else Read, e.uid) > 0;
      forall u
        ensures EntryCount(m, name, Write, u) > 0 ==> IsWriteLock(m[name])
        ensures EntryCount(m, name, Read, u) > 0 ==> !IsWriteLock(m[name])
      {
        CountPositive(m[name], Write, u);
        CountPositive(m[name], Read, u);
      }
    }
  }

  /** The whole answer to a release, from the entries alone: the reply says whether a
      lock of its mode is held at all, the error whether nothing is held, a lock of the
      other mode (and how many readers), or the mode but not this UID. */
  lemma ReleaseAnswers(m: LockMap, mode: Mode, name: string, uid: string)
    requires WellFormed(m)
    ensures var resp := Release(m, mode, name, uid).1;
      && (resp.reply <==> HeldIn(m, name, mode))
      && (resp.error.NoError? <==> EntryCount(m, name, mode, uid) > 0)
      && (resp.error.UnknownUid? <==> HeldIn(m, name, mode) && EntryCount(m, name, mode, uid) == 0)
      && (resp.error.NotLocked? <==> !HeldIn(m, name, Write) && !HeldIn(m, name, Read))
      && (resp.error.ReadLocked? <==> mode == Write && HeldIn(m, name, Read))
      && (resp.error.WriteLocked? <==> mode == Read && HeldIn(m, name, Write))
      && (resp.error.ReadLocked? ==>
            forall uids: multiset<string> :: (forall u :: uids[u] == EntryCount(m, name, Read, u)) ==>
              resp.error.readers == |uids|)
  {
    ReleaseEffect(m, mode, name, uid);
    KeptMode(m, name);
    var resp := Release(m, mode, name, uid).1;
    if resp.error.ReadLocked? {
      forall uids: multiset<string> | forall u :: uids[u] == EntryCount(m, name, Read, u)
        ensures resp.error.readers == |uids|
      {
        CountsAddUp(m[name], Read, uids);
      }
    }
  }

  lemma ReleaseCounts(m: LockMap, mode: Mode, name: string, uid: string, r: string, md: Mode, u: string)
    requires WellFormed(m)
    ensures EntryCount(Release(m, mode, name, uid).0, r, md, u)
         == EntryCount(m, r, md, u)
            - (if r == name && md == mode && u == uid && EntryCount(m, r, md, u) > 0 then 1 else 0)
  {
    ReleaseEffect(m, mode, name, uid);
    RemoveEntryCounts(m, name, uid, r, md, u);
    if name in m && r == name && u == uid {
      CountPositive(m[name], Write, u);
      CountPositive(m[name], Read, u);
    }
  }

  /** A well-formed server never keeps two conflicting grants. */
  lemma NoConflictingEntries(m: LockMap, name: string, md1: Mode, u1: string, md2: Mode, u2: string)
    requires WellFormed(m) && Conflict(md1, md2)
    requires EntryCount(m, name, md1, u1) >= 1 && EntryCount(m, name, md2, u2) >= 1
    ensures md1 == md2 == Write && u1 == u2 && EntryCount(m, name, Write, u1) == 1
  {
    WriterIsAlone(m[name], u1);
    WriterIsAlone(m[name], u2);
    CountPositive(m[name], md1, u1);
    CountPositive(m[name], md2, u2);
  }

  // ---------------------------------------------------------------- the server object

  class LockServer {
    var lockMap: LockMap

    constructor ()
      ensures lockMap == map[]
    {
      lockMap := map[];
    }

    method Lock(name: string, uid: string, now: int) returns (reply: bool)
      modifies this
      ensures (lockMap, reply) == Acquire(old(lockMap), Write, name, uid, now)
    {
      reply := name in lockMap;
      if !reply {
        lockMap := lockMap[name := [Entry(true, uid, now, now)]];
      }
      reply := !reply;
    }

    method RLock(name: string, uid: string, now: int) returns (reply: bool)
      modifies this
      ensures (lockMap, reply) == Acquire(old(lockMap), Read, name, uid, now)
    {
      var lrInfo := Entry(false, uid, now, now);
      if name in lockMap {
        reply := !IsWriteLock(lockMap[name]);
        if reply {
          lockMap := lockMap[name := lockMap[name] + [lrInfo]];
        }
      } else {
        lockMap := lockMap[name := [lrInfo]];
        reply := true;
      }
    }

    method Unlock(name: string, uid: string) returns (resp: Response)
      modifies this
      ensures (lockMap, resp) == Release(old(lockMap), Write, name, uid)
    {
      if name !in lockMap {
        return Response(false, NotLocked);
      }
      if !IsWriteLock(lockMap[name]) {
        return Response(false, ReadLocked(|lockMap[name]|));
      }
      var removed := RemoveEntryLoop(name, uid);
      resp := Response(true, if removed then NoError else UnknownUid);
    }

    method RUnlock(name: string, uid: string) returns (resp: Response)
      modifies this
      ensures (lockMap, resp) == Release(old(lockMap), Read, name, uid)
    {
      if name !in lockMap {
        return Response(false, NotLocked);
      }
      if IsWriteLock(lockMap[name]) {
        return Response(false, WriteLocked);
      }
      var removed := RemoveEntryLoop(name, uid);
      resp := Response(true, if removed then NoError else UnknownUid);
    }

    /** removeEntry: scan for the UID, then splice the slice or drop the key. */
    method RemoveEntryLoop(name: string, uid: string) returns (removed: bool)
      requires name in lockMap
      modifies this
      ensures lockMap == RemoveEntry(old(lockMap), name, uid)
      ensures removed <==> HasUid(old(lockMap)[name], uid)
    {
      var lri := lockMap[name];
      for index := 0 to |lri|
        invariant lockMap == old(lockMap)
        invariant forall i :: 0 <= i < index ==> lri[i].uid != uid
      {
        if lri[index].uid == uid {
          if |lri| == 1 {
            lockMap := lockMap - {name};
          } else {
            RemoveFirstAt(lri, uid, index);
            lockMap := lockMap[name := lri[..index] + lri[index + 1..]];
          }
          return true;
        }
      }
      removed := false;
    }

    method RemoveIfExists(name: string, uid: string)
      modifies this
      ensures lockMap == RemoveEntryIfExists(old(lockMap), name, uid)
    {
      if name in lockMap {
        var _ := RemoveEntryLoop(name, uid);
      }
    }
  }
}
