/** Who uses the wrapper's locks and in which mode, read off the actions alone. */
module CallerModes {
  import opened Counting
  import opened Quorum
  import opened RWLock
  import opened WriterPriority

  /** The mode of the caller's latest call. */
  function CalledAs(acts: seq<Act>, p: nat): Mode {
    if acts == [] then Write
    else
      var last := acts[|acts| - 1];
      if last.Call? && last.p == p then last.mode else CalledAs(acts[..|acts| - 1], p)
  }

  /** Past taking `rw` and not yet past leaving. */
  predicate InRw(acts: seq<Act>, p: nat) {
    acts != [] &&
    var last := acts[|acts| - 1];
    last == TakeRw(p) || (last != Leave(p) && InRw(acts[..|acts| - 1], p))
  }

  /** Past taking `excl` and not yet past giving it back. */
  predicate InExcl(acts: seq<Act>, p: nat) {
    acts != [] &&
    var last := acts[|acts| - 1];
    last == TakeExcl(p) || (last != DropExcl(p) && InExcl(acts[..|acts| - 1], p))
  }

  /** The callers that use `rw` in this mode. */
  function UsersOf(acts: seq<Act>, procs: nat, mode: Mode): set<nat> {
    set p: nat | p < procs && InRw(acts, p) && CalledAs(acts, p) == mode
  }

  function HoldersOf(acts: seq<Act>, procs: nat): set<nat> {
    set p: nat | p < procs && InExcl(acts, p)
  }

  lemma {:induction false} RunSnoc(s: World, acts: seq<Act>)
    requires CanRun(s, acts) && acts != []
    ensures var k := |acts| - 1;
      CanRun(s, acts[..k]) && Enabled(After(s, acts[..k]), acts[k])
      && After(s, acts) == Apply(After(s, acts[..k]), acts[k])
    decreases |acts|
  {
    var k := |acts| - 1;
    if k > 0 {
      RunSnoc(Apply(s, acts[0]), acts[1..]);
      assert acts[..k][0] == acts[0] && acts[..k][1..] == acts[1..][..k - 1];
    } else {
      assert acts[..k] == [];
    }
  }

  lemma ReadOff(acts: seq<Act>, a: Act, p: nat)
    ensures CalledAs(acts + [a], p) == if a.Call? && a.p == p then a.mode else CalledAs(acts, p)
    ensures InRw(acts + [a], p) <==> a == TakeRw(p) || (a != Leave(p) && InRw(acts, p))
    ensures InExcl(acts + [a], p) <==> a == TakeExcl(p) || (a != DropExcl(p) && InExcl(acts, p))
  {
    assert (acts + [a])[..|acts|] == acts;
  }

  /** Where the actions have brought the caller. */
  predicate Tells(acts: seq<Act>, p: nat, pc: Pc) {
    && (pc.HasBoth? || pc.Inside? <==> InRw(acts, p))
    && (pc.WantRw? || pc.HasBoth? <==> InExcl(acts, p))
    && (!pc.Idle? ==> pc.mode == CalledAs(acts, p))
  }

  lemma {:induction false} ActionsTell(procs: nat, acts: seq<Act>, p: nat)
    requires CanRun(Start(procs), acts) && p < procs
    ensures |After(Start(procs), acts).procs| == procs && Tells(acts, p, After(Start(procs), acts).procs[p])
    decreases |acts|
  {
    if acts != [] {
      RunSnoc(Start(procs), acts);
      ActionsTell(procs, acts[..|acts| - 1], p);
    }
  }

  /** Both locks from the actions alone, over every run: `excl` counts the callers past
      taking it and not yet past giving it back; `rw` counts the callers past taking it
      and not yet past leaving, as writers or readers by the mode of their latest call. */
  lemma LocksCountCallers(procs: nat, acts: seq<Act>)
    requires CanRun(Start(procs), acts)
    ensures var s := After(Start(procs), acts);
      && s.excl == RW(|HoldersOf(acts, procs)|, 0)
      && s.rw == RW(|UsersOf(acts, procs, Write)|, |UsersOf(acts, procs, Read)|)
  {
    var s := After(Start(procs), acts);
    StartInv(procs);
    RunKeepsInv(Start(procs), acts);
    ProcsStay(procs, acts);
    forall p: nat | p < procs ensures Tells(acts, p, s.procs[p]) {
      ActionsTell(procs, acts, p);
    }
    ExclCounts(s.procs, acts);
    RwCounts(s.procs, acts, Write);
    RwCounts(s.procs, acts, Read);
  }

  lemma {:induction false} ProcsStay(procs: nat, acts: seq<Act>)
    requires CanRun(Start(procs), acts)
    ensures |After(Start(procs), acts).procs| == procs
    decreases |acts|
  {
    if acts != [] {
      RunSnoc(Start(procs), acts);
      ProcsStay(procs, acts[..|acts| - 1]);
    }
  }

  lemma RwCounts(procs: seq<Pc>, acts: seq<Act>, mode: Mode)
    requires forall p: nat :: p < |procs| ==> Tells(acts, p, procs[p])
    ensures Sum(procs, HoldsRw(mode)) == |UsersOf(acts, |procs|, mode)|
  {
    SumOfOnes(procs, HoldsRw(mode));
    forall p: nat ensures p in Ones(procs, HoldsRw(mode)) <==> p in UsersOf(acts, |procs|, mode) {
      if p < |procs| {
        assert Tells(acts, p, procs[p]);
      }
    }
    assert Ones(procs, HoldsRw(mode)) == UsersOf(acts, |procs|, mode);
  }

  lemma ExclCounts(procs: seq<Pc>, acts: seq<Act>)
    requires forall p: nat :: p < |procs| ==> Tells(acts, p, procs[p])
    ensures Sum(procs, HoldsExcl()) == |HoldersOf(acts, |procs|)|
  {
    SumOfOnes(procs, HoldsExcl());
    forall p: nat ensures p in Ones(procs, HoldsExcl()) <==> p in HoldersOf(acts, |procs|) {
      if p < |procs| {
        assert Tells(acts, p, procs[p]);
      }
    }
    assert Ones(procs, HoldsExcl()) == HoldersOf(acts, |procs|);
  }

  /** With readers only, nobody shuts the others out: `rw` has no writer, and whoever
      has `excl` can take `rw` however many readers are inside. */
  lemma ReadersShare(procs: nat, acts: seq<Act>, p: nat)
    requires CanRun(Start(procs), acts) && p < procs
    requires forall act :: act in acts && act.Call? ==> act.mode == Read
    ensures After(Start(procs), acts).rw.writers == 0
    ensures |After(Start(procs), acts).procs| == procs
    ensures After(Start(procs), acts).procs[p].WantRw? ==> Enabled(After(Start(procs), acts), TakeRw(p))
  {
    LocksCountCallers(procs, acts);
    ProcsStay(procs, acts);
    ActionsTell(procs, acts, p);
    forall q: nat | q < procs ensures q !in UsersOf(acts, procs, Write) {
      ActionsTell(procs, acts, q);
      OnlyReadCalls(procs, acts, q);
    }
    OnlyReadCalls(procs, acts, p);
    assert UsersOf(acts, procs, Write) == {};
  }

  lemma {:induction false} OnlyReadCalls(procs: nat, acts: seq<Act>, p: nat)
    requires CanRun(Start(procs), acts) && p < procs
    requires forall act :: act in acts && act.Call? ==> act.mode == Read
    ensures |After(Start(procs), acts).procs| == procs
    ensures !After(Start(procs), acts).procs[p].Idle? ==> CalledAs(acts, p) == Read
    decreases |acts|
  {
    if acts != [] {
      RunSnoc(Start(procs), acts);
      OnlyReadCalls(procs, acts[..|acts| - 1], p);
      assert acts[|acts| - 1] in acts;
    }
  }

  /** A call and its exit undo each other: from any state in which the locks are free for
      an idle caller, it goes all the way in, counted in its mode, and out again, and the
      world is as it was. */
  lemma CallRoundTrip(s: World, p: nat, mode: Mode)
    requires p < |s.procs| && s.procs[p].Idle? && CanAcquire(s.excl, Write) && CanAcquire(s.rw, mode)
    ensures Enabled(s, Call(p, mode))
    ensures var s1 := Apply(s, Call(p, mode));
      && Enabled(s1, TakeExcl(p))
      && var s2 := Apply(s1, TakeExcl(p));
      && Enabled(s2, TakeRw(p))
      && var s3 := Apply(s2, TakeRw(p));
      && Enabled(s3, DropExcl(p))
      && var s4 := Apply(s3, DropExcl(p));
      && s4.excl == s.excl && s4.rw == Acquired(s.rw, mode)
      && Enabled(s4, Leave(p)) && Apply(s4, Leave(p)) == s
  {
    Overwrite(s.procs, p, WantExcl(mode), WantRw(mode));
    Overwrite(s.procs, p, WantRw(mode), HasBoth(mode));
    Overwrite(s.procs, p, HasBoth(mode), Inside(mode));
    Overwrite(s.procs, p, Inside(mode), Idle);
    Overwrite(s.procs, p, Idle, Idle);
    GoesIn(s, p, mode);
  }

  lemma GoesIn(s: World, p: nat, mode: Mode)
    requires p < |s.procs| && s.procs[p].Idle? && CanAcquire(s.excl, Write) && CanAcquire(s.rw, mode)
    ensures Apply(s, Call(p, mode)) == World(s.procs[p := WantExcl(mode)], s.excl, s.rw)
    ensures var s1 := World(s.procs[p := WantExcl(mode)], s.excl, s.rw);
      Enabled(s1, TakeExcl(p))
      && Apply(s1, TakeExcl(p))
         == World(s.procs[p := WantExcl(mode)][p := WantRw(mode)], Acquired(s.excl, Write), s.rw)
  {
  }
}
