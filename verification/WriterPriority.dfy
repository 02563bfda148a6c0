/** The wrapper that keeps writers from starving (chaos/chaos.go:534-566): every
    caller first takes `excl` in write mode, then `rw` in its own mode, then gives
    `excl` back. Both are locks of the kind module Exclusion proves the protocol to
    be; here they are stepped by any number of concurrent callers. */
module WriterPriority {
  import opened Counting
  import opened Quorum
  import opened RWLock

  /** Where a caller is. `HasBoth` is just before the deferred unlock of `excl`. */
  datatype Pc =
    | Idle
    | WantExcl(mode: Mode)
    | WantRw(mode: Mode)
    | HasBoth(mode: Mode)
    | Inside(mode: Mode)

  datatype World = World(procs: seq<Pc>, excl: RW, rw: RW)

  datatype Act = Call(p: nat, mode: Mode) | TakeExcl(p: nat) | TakeRw(p: nat) | DropExcl(p: nat) | Leave(p: nat)

  function Start(procs: nat): World {
    World(seq(procs, _ => Idle), FREE, FREE)
  }

  predicate Enabled(s: World, act: Act) {
    act.p < |s.procs| &&
    match act
    case Call(p, _) => s.procs[p].Idle?
    case TakeExcl(p) => s.procs[p].WantExcl? && CanAcquire(s.excl, Write)
    case TakeRw(p) => s.procs[p].WantRw? && CanAcquire(s.rw, s.procs[p].mode)
    case DropExcl(p) => s.procs[p].HasBoth? && CanRelease(s.excl, Write)
    case Leave(p) => s.procs[p].Inside? && CanRelease(s.rw, s.procs[p].mode)
  }

  function Apply(s: World, act: Act): World
    requires Enabled(s, act)
  {
    match act
    case Call(p, mode) => s.(procs := s.procs[p := WantExcl(mode)])
    case TakeExcl(p) => s.(procs := s.procs[p := WantRw(s.procs[p].mode)], excl := Acquired(s.excl, Write))
    case TakeRw(p) => s.(procs := s.procs[p := HasBoth(s.procs[p].mode)], rw := Acquired(s.rw, s.procs[p].mode))
    case DropExcl(p) => s.(procs := s.procs[p := Inside(s.procs[p].mode)], excl := Released(s.excl, Write))
    case Leave(p) => s.(procs := s.procs[p := Idle], rw := Released(s.rw, s.procs[p].mode))
  }

  predicate CanRun(s: World, acts: seq<Act>)
    decreases |acts|
  {
    acts == [] || (Enabled(s, acts[0]) && CanRun(Apply(s, acts[0]), acts[1..]))
  }

  function After(s: World, acts: seq<Act>): World
    requires CanRun(s, acts)
    decreases |acts|
  {
    if acts == [] then s else After(Apply(s, acts[0]), acts[1..])
  }

  // ---------------------------------------------------------------- the invariant

  function HoldsExcl(): Pc -> nat {
    (q: Pc) => if q.WantRw? || q.HasBoth? then 1 else 0
  }

  function HoldsRw(mode: Mode): Pc -> nat {
    (q: Pc) => if (q.HasBoth? || q.Inside?) && q.mode == mode then 1 else 0
  }

  /** The locks count exactly the callers that are past the respective Lock call. */
  predicate Inv(s: World) {
    && s.excl == RW(Sum(s.procs, HoldsExcl()), 0)
    && s.rw == RW(Sum(s.procs, HoldsRw(Write)), Sum(s.procs, HoldsRw(Read)))
    && Exclusive(s.excl) && Exclusive(s.rw)
  }

  lemma StartInv(procs: nat)
    ensures Inv(Start(procs))
  {
    var s := Start(procs);
    SumZero(s.procs, HoldsExcl());
    SumZero(s.procs, HoldsRw(Write));
    SumZero(s.procs, HoldsRw(Read));
  }

  lemma InvKept(s: World, act: Act)
    requires Inv(s) && Enabled(s, act)
    ensures Inv(Apply(s, act))
  {
    var q := Apply(s, act).procs[act.p];
    SumUpdate(s.procs, act.p, q, HoldsExcl());
    SumUpdate(s.procs, act.p, q, HoldsRw(Write));
    SumUpdate(s.procs, act.p, q, HoldsRw(Read));
  }

  /** At most one caller is between taking and returning `excl`. */
  lemma OneHoldsExcl(s: World, p: nat, q: nat)
    requires Inv(s) && p < |s.procs| && q < |s.procs| && p != q
    requires s.procs[p].WantRw? || s.procs[p].HasBoth?
    ensures !s.procs[q].WantRw? && !s.procs[q].HasBoth?
    ensures !CanAcquire(s.excl, Write)
  {
    SumAtLeastOne(s.procs, p, HoldsExcl());
    SumAtLeastTwo(s.procs, if p < q then p else q, if p < q then q else p, HoldsExcl());
  }

  // ---------------------------------------------------------------- priority

  /** A writer has `excl` and waits for `rw`. */
  predicate Waiting(s: World, p: nat) {
    p < |s.procs| && s.procs[p] == WantRw(Write)
  }

  /** The writer that has the lock, or else the readers that have it. */
  function Users(l: RW): nat {
    if l.writers > 0 then l.writers else l.readers
  }

  /** Meanwhile nobody else acquires `rw`, in either mode, and the number of its
      users never rises; a Leave makes it one less. */
  lemma PriorityStep(s: World, p: nat, act: Act)
    requires Inv(s) && Waiting(s, p) && Enabled(s, act) && act != TakeRw(p)
    ensures !act.TakeRw?
    ensures Waiting(Apply(s, act), p)
    ensures Apply(s, act).rw.readers <= s.rw.readers
    ensures Users(Apply(s, act).rw) == Users(s.rw) - (if act.Leave? then 1 else 0)
  {
    if act.p != p {
      OneHoldsExcl(s, p, act.p);
    }
  }

  function Leaves(acts: seq<Act>): nat {
    if acts == [] then 0 else (if acts[0].Leave? then 1 else 0) + Leaves(acts[1..])
  }

  lemma FreeHasNoUsers(l: RW)
    ensures CanAcquire(l, Write) <==> Users(l) == 0
  {
  }

  lemma WaitingEnters(s: World, p: nat)
    requires Waiting(s, p)
    ensures Enabled(s, TakeRw(p)) <==> CanAcquire(s.rw, Write)
  {
  }

  lemma {:induction false} PriorityRun(s: World, p: nat, acts: seq<Act>)
    requires Inv(s) && Waiting(s, p) && CanRun(s, acts) && TakeRw(p) !in acts
    ensures Inv(After(s, acts)) && Waiting(After(s, acts), p)
    ensures After(s, acts).rw.readers <= s.rw.readers
    ensures Users(After(s, acts).rw) == Users(s.rw) - Leaves(acts)
    ensures forall act :: act in acts ==> !act.TakeRw?
    decreases |acts|
  {
    if acts != [] {
      var act, rest := acts[0], acts[1..];
      assert acts == [act] + rest;
      InvKept(s, act);
      PriorityStep(s, p, act);
      PriorityRun(Apply(s, act), p, rest);
    }
  }

  /** Writer priority over every run: from taking `excl` until it takes `rw`, nobody
      else takes `rw`, the number of readers inside never rises, and the writer gets
      in exactly after as many exits as there were users. */
  lemma WriterHasPriority(procs: nat, before: seq<Act>, p: nat, acts: seq<Act>)
    requires CanRun(Start(procs), before) && Waiting(After(Start(procs), before), p)
    requires CanRun(After(Start(procs), before), acts) && TakeRw(p) !in acts
    ensures var s, s' := After(Start(procs), before), After(After(Start(procs), before), acts);
      && (forall act :: act in acts ==> !act.TakeRw?)
      && s'.rw.readers <= s.rw.readers
      && (Enabled(s', TakeRw(p)) <==> Leaves(acts) == Users(s.rw))
  {
    StartInv(procs);
    RunKeepsInv(Start(procs), before);
    PriorityRun(After(Start(procs), before), p, acts);
    WaitingEnters(After(After(Start(procs), before), acts), p);
    FreeHasNoUsers(After(After(Start(procs), before), acts).rw);
  }

  // ---------------------------------------------------------------- progress

  lemma {:induction false} FindUser(procs: seq<Pc>, mode: Mode) returns (q: nat)
    requires Sum(procs, HoldsRw(mode)) > 0
    ensures q < |procs| && HoldsRw(mode)(procs[q]) == 1
  {
    var k := |procs| - 1;
    if HoldsRw(mode)(procs[k]) == 1 {
      q := k;
    } else {
      q := FindUser(procs[..k], mode);
    }
  }

  /** Leaving never needs `excl`: a caller inside can always leave. */
  lemma LeaveIsAlwaysPossible(s: World, q: nat)
    requires Inv(s) && q < |s.procs| && s.procs[q].Inside?
    ensures Enabled(s, Leave(q))
  {
    SumAtLeastOne(s.procs, q, HoldsRw(s.procs[q].mode));
  }

  /** While a writer waits, every user of `rw` is inside and free to leave. */
  lemma SomebodyCanLeave(s: World, p: nat) returns (q: nat)
    requires Inv(s) && Waiting(s, p) && Users(s.rw) > 0
    ensures q < |s.procs| && Enabled(s, Leave(q))
  {
    q := FindUser(s.procs, if s.rw.writers > 0 then Write else Read);
    OneHoldsExcl(s, p, q);
    LeaveIsAlwaysPossible(s, q);
  }

  lemma RunPrefix(s: World, act: Act, rest: seq<Act>)
    requires Enabled(s, act) && CanRun(Apply(s, act), rest)
    ensures CanRun(s, [act] + rest) && After(s, [act] + rest) == After(Apply(s, act), rest)
  {
    assert ([act] + rest)[1..] == rest;
  }

  lemma OneLeaves(s: World, p: nat) returns (act: Act, s': World)
    requires Inv(s) && Waiting(s, p) && Users(s.rw) > 0
    ensures act.Leave? && Enabled(s, act) && s' == Apply(s, act)
    ensures Inv(s') && Waiting(s', p) && Users(s'.rw) == Users(s.rw) - 1
  {
    var q := SomebodyCanLeave(s, p);
    act := Leave(q);
    s' := Apply(s, act);
    InvKept(s, act);
    PriorityStep(s, p, act);
  }

  lemma {:induction false} AllLeave(s: World, p: nat, users: nat) returns (acts: seq<Act>)
    requires Inv(s) && Waiting(s, p) && Users(s.rw) == users
    ensures CanRun(s, acts) && |acts| == users
    ensures forall act :: act in acts ==> act.Leave?
    ensures Waiting(After(s, acts), p) && Users(After(s, acts).rw) == 0
    decreases users
  {
    if users == 0 {
      acts := [];
    } else {
      var act, s' := OneLeaves(s, p);
      var rest := AllLeave(s', p, users - 1);
      RunPrefix(s, act, rest);
      acts := [act] + rest;
    }
  }

  /** The exits of the present users are enough: a run of exits alone, one per user,
      lets the waiting writer in. */
  lemma ExitsUnblockTheWriter(procs: nat, before: seq<Act>, p: nat) returns (acts: seq<Act>)
    requires CanRun(Start(procs), before) && Waiting(After(Start(procs), before), p)
    ensures CanRun(After(Start(procs), before), acts) && |acts| == Users(After(Start(procs), before).rw)
    ensures forall act :: act in acts ==> act.Leave?
    ensures Enabled(After(After(Start(procs), before), acts), TakeRw(p))
  {
    StartInv(procs);
    RunKeepsInv(Start(procs), before);
    acts := AllLeave(After(Start(procs), before), p, Users(After(Start(procs), before).rw));
    FreeHasNoUsers(After(After(Start(procs), before), acts).rw);
    WaitingEnters(After(After(Start(procs), before), acts), p);
  }

  /** No circular wait: whenever somebody is not idle, somebody can go on. */
  lemma NobodyIsStuck(s: World, p: nat) returns (act: Act)
    requires Inv(s) && p < |s.procs| && !s.procs[p].Idle?
    ensures Enabled(s, act) && !act.Call?
  {
    var r := p;
    if s.procs[p].WantExcl? {
      if CanAcquire(s.excl, Write) {
        return TakeExcl(p);
      }
      r := FindExclHolder(s.procs);
    }
    if s.procs[r].HasBoth? {
      SumAtLeastOne(s.procs, r, HoldsExcl());
      return DropExcl(r);
    }
    if s.procs[r].Inside? {
      LeaveIsAlwaysPossible(s, r);
      return Leave(r);
    }
    if CanAcquire(s.rw, s.procs[r].mode) {
      return TakeRw(r);
    }
    var q := FindUser(s.procs, if s.rw.writers > 0 then Write else Read);
    OneHoldsExcl(s, r, q);
    LeaveIsAlwaysPossible(s, q);
    act := Leave(q);
  }

  lemma {:induction false} FindExclHolder(procs: seq<Pc>) returns (q: nat)
    requires Sum(procs, HoldsExcl()) > 0
    ensures q < |procs| && HoldsExcl()(procs[q]) == 1
  {
    var k := |procs| - 1;
    if HoldsExcl()(procs[k]) == 1 {
      q := k;
    } else {
      q := FindExclHolder(procs[..k]);
    }
  }

  lemma {:induction false} RunKeepsInv(s: World, acts: seq<Act>)
    requires Inv(s) && CanRun(s, acts)
    ensures Inv(After(s, acts))
    decreases |acts|
  {
    if acts != [] {
      InvKept(s, acts[0]);
      RunKeepsInv(Apply(s, acts[0]), acts[1..]);
    }
  }

  // ---------------------------------------------------------------- the object

  /** How far a call gets from here without waiting, and what it holds then. */
  function Advance(excl: RW, rw: RW, at: Pc): (RW, RW, Pc)
    requires at.WantRw? ==> CanRelease(excl, Write)
    decreases at.WantExcl?
  {
    match at
    case WantExcl(mode) =>
      if CanAcquire(excl, Write) then Advance(Acquired(excl, Write), rw, WantRw(mode)) else (excl, rw, at)
    case WantRw(mode) =>
      if CanAcquire(rw, mode) then (Released(excl, Write), Acquired(rw, mode), Inside(mode)) else (excl, rw, at)
    case _ => (excl, rw, at)
  }

  /** The world after caller p has gone on as far as it can. */
  function Advanced(s: World, p: nat): World
    requires p < |s.procs| && (s.procs[p].WantRw? ==> CanRelease(s.excl, Write))
  {
    var (excl, rw, pc) := Advance(s.excl, s.rw, s.procs[p]);
    World(s.procs[p := pc], excl, rw)
  }

  predicate StepOf(act: Act, p: nat) {
    act in [TakeExcl(p), TakeRw(p), DropExcl(p)]
  }

  lemma HolderCanRelease(s: World, p: nat)
    requires Inv(s) && p < |s.procs| && (s.procs[p].WantRw? || s.procs[p].HasBoth?)
    ensures CanRelease(s.excl, Write)
  {
    SumAtLeastOne(s.procs, p, HoldsExcl());
  }

  lemma TwoActions(s: World, act: Act, next: Act)
    requires Enabled(s, act) && Enabled(Apply(s, act), next)
    ensures CanRun(s, [act, next]) && After(s, [act, next]) == Apply(Apply(s, act), next)
  {
    RunPrefix(Apply(s, act), next, []);
    assert [next] + [] == [next] && [act] + [next] == [act, next];
    RunPrefix(s, act, [next]);
  }

  lemma EntersFromExcl(s: World, p: nat)
    requires Inv(s) && p < |s.procs| && s.procs[p].WantRw? && CanAcquire(s.rw, s.procs[p].mode)
    ensures CanRelease(s.excl, Write)
    ensures CanRun(s, [TakeRw(p), DropExcl(p)]) && After(s, [TakeRw(p), DropExcl(p)]) == Advanced(s, p)
  {
    HolderCanRelease(s, p);
    var mode := s.procs[p].mode;
    Overwrite(s.procs, p, HasBoth(mode), Inside(mode));
    assert Apply(Apply(s, TakeRw(p)), DropExcl(p)) == Advanced(s, p);
    TwoActions(s, TakeRw(p), DropExcl(p));
  }

  /** Where a caller stands that cannot go on by itself. */
  ghost predicate Stopped(s: World, p: nat) {
    forall act :: StepOf(act, p) ==> !Enabled(s, act)
  }

  lemma AdvanceFromRw(s: World, p: nat) returns (acts: seq<Act>)
    requires Inv(s) && p < |s.procs| && s.procs[p].WantRw?
    ensures CanRelease(s.excl, Write)
    ensures CanRun(s, acts) && After(s, acts) == Advanced(s, p)
    ensures (forall act :: act in acts ==> StepOf(act, p)) && Stopped(Advanced(s, p), p)
  {
    HolderCanRelease(s, p);
    if CanAcquire(s.rw, s.procs[p].mode) {
      acts := [TakeRw(p), DropExcl(p)];
      EntersFromExcl(s, p);
    } else {
      acts := [];
      assert s.procs[p := s.procs[p]] == s.procs;
    }
  }

  lemma Overwrite(procs: seq<Pc>, p: nat, first: Pc, second: Pc)
    requires p < |procs|
    ensures procs[p := first][p := second] == procs[p := second]
    ensures first == procs[p] ==> procs[p := first] == procs
  {
  }

  lemma AdvanceByExcl(s: World, p: nat)
    requires p < |s.procs| && s.procs[p].WantExcl? && CanAcquire(s.excl, Write)
    ensures Advanced(Apply(s, TakeExcl(p)), p) == Advanced(s, p)
  {
    var mode := s.procs[p].mode;
    Overwrite(s.procs, p, WantRw(mode), Advance(s.excl, s.rw, s.procs[p]).2);
  }

  /** Going on from wherever it waits is a run of the caller's own actions, and it stops
      only where the caller has to wait or is inside. */
  lemma AdvanceIsARun(s: World, p: nat) returns (acts: seq<Act>)
    requires Inv(s) && p < |s.procs| && (s.procs[p].WantExcl? || s.procs[p].WantRw?)
    ensures s.procs[p].WantRw? ==> CanRelease(s.excl, Write)
    ensures CanRun(s, acts) && After(s, acts) == Advanced(s, p)
    ensures (forall act :: act in acts ==> StepOf(act, p)) && Stopped(Advanced(s, p), p)
  {
    if s.procs[p].WantRw? {
      acts := AdvanceFromRw(s, p);
    } else if CanAcquire(s.excl, Write) {
      var s1 := Apply(s, TakeExcl(p));
      InvKept(s, TakeExcl(p));
      var rest := AdvanceFromRw(s1, p);
      RunPrefix(s, TakeExcl(p), rest);
      acts := [TakeExcl(p)] + rest;
      AdvanceByExcl(s, p);
    } else {
      acts := [];
      Overwrite(s.procs, p, s.procs[p], s.procs[p]);
    }
  }

  /** The wrapper object. A call that has to wait reports where it stands, and Resume
      takes it up again from there. */
  class DRWMutexNoWriterStarvation {
    var excl: RW
    var rw: RW

    constructor ()
      ensures excl == rw == FREE
    {
      excl, rw := FREE, FREE;
    }

    method Lock() returns (at: Pc)
      modifies this
      ensures (excl, rw, at) == Advance(old(excl), old(rw), WantExcl(Write))
    {
      at := Resume(WantExcl(Write));
    }

    method RLock() returns (at: Pc)
      modifies this
      ensures (excl, rw, at) == Advance(old(excl), old(rw), WantExcl(Read))
    {
      at := Resume(WantExcl(Read));
    }

    method Resume(from: Pc) returns (at: Pc)
      requires from.WantRw? ==> CanRelease(excl, Write)
      modifies this
      ensures (excl, rw, at) == Advance(old(excl), old(rw), from)
    {
      at := from;
      if at.WantExcl? && CanAcquire(excl, Write) {
        excl := Acquired(excl, Write);
        at := WantRw(at.mode);
      }
      if at.WantRw? && CanAcquire(rw, at.mode) {
        rw := Acquired(rw, at.mode);
        excl := Released(excl, Write);
        at := Inside(at.mode);
      }
    }

    method Unlock() returns (panicked: bool)
      modifies this`rw
      ensures panicked <==> !CanRelease(old(rw), Write)
      ensures rw == if panicked then old(rw) else Released(old(rw), Write)
    {
      panicked := !CanRelease(rw, Write);
      if !panicked {
        rw := Released(rw, Write);
      }
    }

    method RUnlock() returns (panicked: bool)
      modifies this`rw
      ensures panicked <==> !CanRelease(old(rw), Read)
      ensures rw == if panicked then old(rw) else Released(old(rw), Read)
    {
      panicked := !CanRelease(rw, Read);
      if !panicked {
        rw := Released(rw, Read);
      }
    }
  }
}
