/** The reader/writer lock that clients are promised: nothing but its holders. */
module RWLock {
  import opened Quorum

  datatype RW = RW(writers: nat, readers: nat)

  const FREE := RW(0, 0)

  predicate CanAcquire(l: RW, mode: Mode) {
    l.writers == 0 && (mode.Write? ==> l.readers == 0)
  }

  function Acquired(l: RW, mode: Mode): RW {
    if mode.Write? then l.(writers := l.writers + 1) else l.(readers := l.readers + 1)
  }

  predicate CanRelease(l: RW, mode: Mode) {
    if mode.Write? then l.writers > 0 else l.readers > 0
  }

  function Released(l: RW, mode: Mode): RW
    requires CanRelease(l, mode)
  {
    if mode.Write? then l.(writers := l.writers - 1) else l.(readers := l.readers - 1)
  }

  /** What mutual exclusion means for the counts. */
  predicate Exclusive(l: RW) {
    l.writers <= 1 && (l.writers == 1 ==> l.readers == 0)
  }

  lemma ExclusionIsKept(l: RW, mode: Mode)
    requires Exclusive(l)
    ensures CanAcquire(l, mode) <==> Exclusive(Acquired(l, mode))
    ensures CanRelease(l, mode) ==> Exclusive(Released(l, mode))
  {
  }
}
