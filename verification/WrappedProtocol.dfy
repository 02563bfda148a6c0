/** The wrapper against writer starvation on top of the protocol itself: `excl` and
    `rw` are two resources of the system, a caller goes on when an attempt of its is
    committed, and everything else happens in between. */
module WrappedProtocol {
  import opened Quorum
  import opened RWLock
  import opened Backing
  import opened Exclusion
  import P = Protocol
  import W = WriterPriority
  import M = CallerModes

  datatype Names = Names(excl: string, rw: string)

  datatype State = State(sys: P.Sys, procs: seq<W.Pc>)

  datatype Act =
    | System(act: P.Action)
    | Call(p: nat, mode: Mode)
    | TakeExcl(p: nat, attempt: nat)
    | TakeRw(p: nat, attempt: nat)
    | DropExcl(p: nat, client: nat)
    | Leave(p: nat, client: nat)

  function Start(n: nat, procs: nat): State {
    State(P.Init(n), W.Start(procs).procs)
  }

  /** A commit or an unlock of this resource. */
  predicate Uses(s: P.Sys, act: P.Action, name: string)
    requires P.Enabled(s, act)
  {
    (act.Commit? && s.attempts[act.attempt].cfg.name == name) || (act.Unlock? && s.clients[act.client].mu.name == name)
  }

  predicate Commits(s: P.Sys, i: nat, name: string, mode: Mode) {
    P.CanCommit(s, i) && s.attempts[i].cfg.name == name && s.attempts[i].cfg.mode == mode
  }

  predicate Unlocks(s: P.Sys, c: nat, name: string, mode: Mode) {
    P.CanUnlockClient(s, c, mode) && s.clients[c].mu.name == name
  }

  /** `excl` and `rw` are committed and unlocked by callers of the wrapper only. */
  predicate Enabled(nm: Names, s: State, a: Act) {
    match a
    case System(act) =>
      P.Enabled(s.sys, act) && !act.Crash? && !Uses(s.sys, act, nm.excl) && !Uses(s.sys, act, nm.rw)
    case Call(p, _) => p < |s.procs| && s.procs[p].Idle?
    case TakeExcl(p, i) => p < |s.procs| && s.procs[p].WantExcl? && Commits(s.sys, i, nm.excl, Write)
    case TakeRw(p, i) => p < |s.procs| && s.procs[p].WantRw? && Commits(s.sys, i, nm.rw, s.procs[p].mode)
    case DropExcl(p, c) => p < |s.procs| && s.procs[p].HasBoth? && Unlocks(s.sys, c, nm.excl, Write)
    case Leave(p, c) => p < |s.procs| && s.procs[p].Inside? && Unlocks(s.sys, c, nm.rw, s.procs[p].mode)
  }

  function Apply(nm: Names, s: State, a: Act): State
    requires Enabled(nm, s, a)
  {
    match a
    case System(act) => s.(sys := P.Apply(s.sys, act))
    case Call(p, mode) => s.(procs := s.procs[p := W.WantExcl(mode)])
    case TakeExcl(p, i) => State(P.CommitVector(s.sys, i), s.procs[p := W.WantRw(s.procs[p].mode)])
    case TakeRw(p, i) => State(P.CommitVector(s.sys, i), s.procs[p := W.HasBoth(s.procs[p].mode)])
    case DropExcl(p, c) => State(P.UnlockClient(s.sys, c, Write), s.procs[p := W.Inside(s.procs[p].mode)])
    case Leave(p, c) => State(P.UnlockClient(s.sys, c, s.procs[p].mode), s.procs[p := W.Idle])
  }

  predicate CanRun(nm: Names, s: State, acts: seq<Act>)
    decreases |acts|
  {
    acts == [] || (Enabled(nm, s, acts[0]) && CanRun(nm, Apply(nm, s, acts[0]), acts[1..]))
  }

  function After(nm: Names, s: State, acts: seq<Act>): State
    requires CanRun(nm, s, acts)
    decreases |acts|
  {
    if acts == [] then s else After(nm, Apply(nm, s, acts[0]), acts[1..])
  }

  // ---------------------------------------------------------------- refinement

  /** The wrapper as module WriterPriority sees it. */
  function World(nm: Names, s: State): W.World {
    W.World(s.procs, Abs(s.sys, nm.excl), Abs(s.sys, nm.rw))
  }

  function AsSeen(a: Act): seq<W.Act> {
    match a
    case System(_) => []
    case Call(p, mode) => [W.Call(p, mode)]
    case TakeExcl(p, _) => [W.TakeExcl(p)]
    case TakeRw(p, _) => [W.TakeRw(p)]
    case DropExcl(p, _) => [W.DropExcl(p)]
    case Leave(p, _) => [W.Leave(p)]
  }

  function AllSeen(acts: seq<Act>): seq<W.Act> {
    if acts == [] then [] else AsSeen(acts[0]) + AllSeen(acts[1..])
  }

  ghost predicate Reached(s: State) {
    Inv(s.sys) && NothingLost(s.sys)
  }

  lemma ReachedKept(nm: Names, s: State, a: Act)
    requires Reached(s) && Enabled(nm, s, a)
    ensures Reached(Apply(nm, s, a))
  {
    match a
    case System(act) => InvKept(s.sys, act);
    case Call(_, _) =>
    case TakeExcl(_, i) => InvKept(s.sys, P.Commit(i));
    case TakeRw(_, i) => InvKept(s.sys, P.Commit(i));
    case DropExcl(_, c) => InvKept(s.sys, P.Unlock(c, Write));
    case Leave(p, c) => InvKept(s.sys, P.Unlock(c, s.procs[p].mode));
  }

  lemma CommitSeen(nm: Names, sys: P.Sys, i: nat, name: string, mode: Mode)
    requires nm.excl != nm.rw && Inv(sys) && NothingLost(sys) && Commits(sys, i, name, mode)
    ensures name == nm.excl ==>
      && CanAcquire(Abs(sys, nm.excl), mode)
      && Abs(P.CommitVector(sys, i), nm.excl) == Acquired(Abs(sys, nm.excl), mode)
      && Abs(P.CommitVector(sys, i), nm.rw) == Abs(sys, nm.rw)
    ensures name == nm.rw ==>
      && CanAcquire(Abs(sys, nm.rw), mode)
      && Abs(P.CommitVector(sys, i), nm.rw) == Acquired(Abs(sys, nm.rw), mode)
      && Abs(P.CommitVector(sys, i), nm.excl) == Abs(sys, nm.excl)
  {
    RefinesCommit(sys, i, nm.excl);
    RefinesCommit(sys, i, nm.rw);
  }

  lemma UnlockSeen(nm: Names, sys: P.Sys, c: nat, name: string, mode: Mode)
    requires nm.excl != nm.rw && Inv(sys) && Unlocks(sys, c, name, mode)
    ensures name == nm.excl ==>
      && CanRelease(Abs(sys, nm.excl), mode)
      && Abs(P.UnlockClient(sys, c, mode), nm.excl) == Released(Abs(sys, nm.excl), mode)
      && Abs(P.UnlockClient(sys, c, mode), nm.rw) == Abs(sys, nm.rw)
    ensures name == nm.rw ==>
      && CanRelease(Abs(sys, nm.rw), mode)
      && Abs(P.UnlockClient(sys, c, mode), nm.rw) == Released(Abs(sys, nm.rw), mode)
      && Abs(P.UnlockClient(sys, c, mode), nm.excl) == Abs(sys, nm.excl)
  {
    RefinesUnlock(sys, c, mode, nm.excl);
    RefinesUnlock(sys, c, mode, nm.rw);
  }

  /** Every step is a step of the abstract wrapper, or is not seen by it. */
  lemma StepRefines(nm: Names, s: State, a: Act)
    requires nm.excl != nm.rw && Reached(s) && Enabled(nm, s, a)
    ensures var w, w' := World(nm, s), World(nm, Apply(nm, s, a));
      if a.System? then w' == w else W.Enabled(w, AsSeen(a)[0]) && w' == W.Apply(w, AsSeen(a)[0])
  {
    match a
    case System(act) =>
      ProtocolRefinesRWLock(s.sys, act, nm.excl);
      ProtocolRefinesRWLock(s.sys, act, nm.rw);
    case Call(_, _) =>
    case TakeExcl(_, i) => CommitSeen(nm, s.sys, i, nm.excl, Write);
    case TakeRw(p, i) => CommitSeen(nm, s.sys, i, nm.rw, s.procs[p].mode);
    case DropExcl(_, c) => UnlockSeen(nm, s.sys, c, nm.excl, Write);
    case Leave(p, c) => UnlockSeen(nm, s.sys, c, nm.rw, s.procs[p].mode);
  }

  /** So every run of callers on the protocol is a run of the abstract wrapper. */
  lemma {:induction false} RunRefines(nm: Names, s: State, acts: seq<Act>)
    requires nm.excl != nm.rw && Reached(s) && CanRun(nm, s, acts)
    ensures Reached(After(nm, s, acts))
    ensures W.CanRun(World(nm, s), AllSeen(acts))
    ensures W.After(World(nm, s), AllSeen(acts)) == World(nm, After(nm, s, acts))
    decreases |acts|
  {
    if acts != [] {
      var a, rest := acts[0], acts[1..];
      ReachedKept(nm, s, a);
      StepRefines(nm, s, a);
      RunRefines(nm, Apply(nm, s, a), rest);
      if a.System? {
        assert AllSeen(acts) == AllSeen(rest);
      } else {
        W.RunPrefix(World(nm, s), AsSeen(a)[0], AllSeen(rest));
        assert AllSeen(acts) == [AsSeen(a)[0]] + AllSeen(rest);
      }
    }
  }

  lemma StartRefines(nm: Names, n: nat, procs: nat)
    requires n >= 2
    ensures Reached(Start(n, procs)) && World(nm, Start(n, procs)) == W.Start(procs)
  {
    InitInv(n);
  }

  lemma {:induction false} TakeIsSeen(acts: seq<Act>, a: Act)
    requires a in acts && a.TakeRw?
    ensures W.TakeRw(a.p) in AllSeen(acts)
  {
    if a != acts[0] {
      TakeIsSeen(acts[1..], a);
    }
  }

  lemma {:induction false} NotSeen(acts: seq<Act>, p: nat)
    requires forall a :: a in acts ==> !(a.TakeRw? && a.p == p)
    ensures W.TakeRw(p) !in AllSeen(acts)
  {
    if acts != [] {
      assert acts[0] in acts;
      NotSeen(acts[1..], p);
    }
  }

  // ---------------------------------------------------------------- who is where, from the actions alone

  /** The mode of the caller's latest call. */
  function CalledAs(acts: seq<Act>, p: nat): Mode {
    if acts == [] then Write
    else
      var last := acts[|acts| - 1];
      if last.Call? && last.p == p then last.mode else CalledAs(acts[..|acts| - 1], p)
  }

  /** Past its commit on `rw` and not yet past its unlock. */
  predicate InRw(acts: seq<Act>, p: nat) {
    acts != [] &&
    var last := acts[|acts| - 1];
    (last.TakeRw? && last.p == p) || (!(last.Leave? && last.p == p) && InRw(acts[..|acts| - 1], p))
  }

  function UsersOf(acts: seq<Act>, procs: nat, mode: Mode): set<nat> {
    set p: nat | p < procs && InRw(acts, p) && CalledAs(acts, p) == mode
  }

  lemma {:induction false} AllSeenSnoc(acts: seq<Act>, a: Act)
    ensures AllSeen(acts + [a]) == AllSeen(acts) + AsSeen(a)
  {
    if acts == [] {
      assert acts + [a] == [a] && [a][1..] == [];
    } else {
      assert (acts + [a])[0] == acts[0] && (acts + [a])[1..] == acts[1..] + [a];
      AllSeenSnoc(acts[1..], a);
    }
  }

  lemma ReadOff(acts: seq<Act>, a: Act, p: nat)
    ensures CalledAs(acts + [a], p) == if a.Call? && a.p == p then a.mode else CalledAs(acts, p)
    ensures InRw(acts + [a], p) <==> (a.TakeRw? && a.p == p) || (!(a.Leave? && a.p == p) && InRw(acts, p))
  {
    assert (acts + [a])[..|acts|] == acts;
  }

  /** The abstract wrapper sees the same callers in the same modes. */
  lemma {:induction false} SeenAsIs(acts: seq<Act>, p: nat)
    ensures M.CalledAs(AllSeen(acts), p) == CalledAs(acts, p) && M.InRw(AllSeen(acts), p) == InRw(acts, p)
  {
    if acts != [] {
      var prev, last := acts[..|acts| - 1], acts[|acts| - 1];
      SeenAsIs(prev, p);
      SeenOneMore(prev, last, p);
      assert acts == prev + [last];
    }
  }

  lemma SeenOneMore(prev: seq<Act>, last: Act, p: nat)
    requires M.CalledAs(AllSeen(prev), p) == CalledAs(prev, p) && M.InRw(AllSeen(prev), p) == InRw(prev, p)
    ensures M.CalledAs(AllSeen(prev + [last]), p) == CalledAs(prev + [last], p)
    ensures M.InRw(AllSeen(prev + [last]), p) == InRw(prev + [last], p)
  {
    AllSeenSnoc(prev, last);
    ReadOff(prev, last, p);
    SeenReadOff(AllSeen(prev), last, p);
  }

  lemma SeenReadOff(seen: seq<W.Act>, last: Act, p: nat)
    ensures M.CalledAs(seen + AsSeen(last), p) == if last.Call? && last.p == p then last.mode else M.CalledAs(seen, p)
    ensures M.InRw(seen + AsSeen(last), p) <==>
      (last.TakeRw? && last.p == p) || (!(last.Leave? && last.p == p) && M.InRw(seen, p))
  {
    if last.System? {
      assert seen + AsSeen(last) == seen;
    } else {
      M.ReadOff(seen, AsSeen(last)[0], p);
      assert AsSeen(last) == [AsSeen(last)[0]];
    }
  }

  /** The lock `rw` of the protocol from the actions of its callers alone: it counts the
      callers past their commit and not yet past their unlock, as writers or readers by
      the mode of their latest call. */
  lemma RwCountsCallers(nm: Names, n: nat, procs: nat, acts: seq<Act>)
    requires n >= 2 && nm.excl != nm.rw && CanRun(nm, Start(n, procs), acts)
    ensures Abs(After(nm, Start(n, procs), acts).sys, nm.rw)
         == RW(|UsersOf(acts, procs, Write)|, |UsersOf(acts, procs, Read)|)
  {
    StartRefines(nm, n, procs);
    RunRefines(nm, Start(n, procs), acts);
    M.LocksCountCallers(procs, AllSeen(acts));
    forall p: nat
      ensures M.CalledAs(AllSeen(acts), p) == CalledAs(acts, p) && M.InRw(AllSeen(acts), p) == InRw(acts, p)
    {
      SeenAsIs(acts, p);
    }
    assert M.UsersOf(AllSeen(acts), procs, Write) == UsersOf(acts, procs, Write);
    assert M.UsersOf(AllSeen(acts), procs, Read) == UsersOf(acts, procs, Read);
  }

  /** Nothing the system does is left out: an action that neither commits nor unlocks
      `excl` or `rw` is a step as it is, and one that does is the step of the caller that
      is waiting for it. */
  lemma EveryActionIsAStep(nm: Names, s: State, act: P.Action, p: nat)
    requires P.Enabled(s.sys, act) && !act.Crash? && p < |s.procs|
    ensures !Uses(s.sys, act, nm.excl) && !Uses(s.sys, act, nm.rw) ==>
      Enabled(nm, s, System(act)) && Apply(nm, s, System(act)) == State(P.Apply(s.sys, act), s.procs)
    ensures act.Commit? && s.procs[p].WantExcl? && Commits(s.sys, act.attempt, nm.excl, Write) ==>
      && Enabled(nm, s, TakeExcl(p, act.attempt))
      && Apply(nm, s, TakeExcl(p, act.attempt)).sys == P.Apply(s.sys, act)
    ensures act.Commit? && s.procs[p].WantRw? && Commits(s.sys, act.attempt, nm.rw, s.procs[p].mode) ==>
      && Enabled(nm, s, TakeRw(p, act.attempt))
      && Apply(nm, s, TakeRw(p, act.attempt)).sys == P.Apply(s.sys, act)
    ensures act.Unlock? && s.procs[p].HasBoth? && act.mode == Write && Unlocks(s.sys, act.client, nm.excl, Write) ==>
      && Enabled(nm, s, DropExcl(p, act.client))
      && Apply(nm, s, DropExcl(p, act.client)).sys == P.Apply(s.sys, act)
    ensures act.Unlock? && s.procs[p].Inside? && act.mode == s.procs[p].mode
            && Unlocks(s.sys, act.client, nm.rw, act.mode) ==>
      && Enabled(nm, s, Leave(p, act.client))
      && Apply(nm, s, Leave(p, act.client)).sys == P.Apply(s.sys, act)
  {
  }

  // ---------------------------------------------------------------- priority

  /** How many callers have left. */
  function Exits(acts: seq<Act>): nat {
    W.Leaves(AllSeen(acts))
  }

  /** Writer priority on the protocol: from the commit of a writer on `excl` until its
      commit on `rw`, no other commit on `rw` takes place in any mode, the readers
      inside never increase, and `rw` is free for the writer exactly after as many
      exits as there were users. Every interleaving with other attempts, delays,
      timeouts, lost messages and other resources is covered. */
  lemma WriterHasPriorityOnProtocol(nm: Names, n: nat, procs: nat, before: seq<Act>, p: nat, acts: seq<Act>)
    requires n >= 2 && nm.excl != nm.rw && CanRun(nm, Start(n, procs), before)
    requires var s := After(nm, Start(n, procs), before);
      && p < |s.procs| && s.procs[p] == W.WantRw(Write)
      && CanRun(nm, s, acts)
    requires forall a :: a in acts ==> !(a.TakeRw? && a.p == p)
    ensures var s := After(nm, Start(n, procs), before);
      var l, l' := Abs(s.sys, nm.rw), Abs(After(nm, s, acts).sys, nm.rw);
      && (forall a :: a in acts ==> !a.TakeRw?)
      && l'.readers <= l.readers
      && (CanAcquire(l', Write) <==> Exits(acts) == W.Users(l))
  {
    StartRefines(nm, n, procs);
    RunRefines(nm, Start(n, procs), before);
    W.StartInv(procs);
    W.RunKeepsInv(W.Start(procs), AllSeen(before));
    PriorityFrom(nm, After(nm, Start(n, procs), before), p, acts);
  }

  lemma PriorityFrom(nm: Names, s: State, p: nat, acts: seq<Act>)
    requires nm.excl != nm.rw && Reached(s) && W.Inv(World(nm, s)) && CanRun(nm, s, acts)
    requires p < |s.procs| && s.procs[p] == W.WantRw(Write)
    requires forall a :: a in acts ==> !(a.TakeRw? && a.p == p)
    ensures var l, l' := Abs(s.sys, nm.rw), Abs(After(nm, s, acts).sys, nm.rw);
      && (forall a :: a in acts ==> !a.TakeRw?)
      && l'.readers <= l.readers
      && (CanAcquire(l', Write) <==> Exits(acts) == W.Users(l))
  {
    RunRefines(nm, s, acts);
    NotSeen(acts, p);
    W.PriorityRun(World(nm, s), p, AllSeen(acts));
    W.FreeHasNoUsers(Abs(After(nm, s, acts).sys, nm.rw));
    forall a | a in acts ensures !a.TakeRw? {
      if a.TakeRw? {
        TakeIsSeen(acts, a);
      }
    }
  }
}
