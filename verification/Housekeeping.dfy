/** The whole system with lock maintenance running beside it: sweeps at any node, and
    removals of entries that were once found to have no owner. */
module Housekeeping {
  import opened Collector
  import opened Protocol
  import opened Backing
  import opened Exclusion
  import opened Maintenance
  import SweepHistory

  /** An entry that maintenance has found without an owner. */
  datatype Claim = Claim(node: nat, name: string, uid: string)

  datatype Keeper = Keeper(sys: Sys, cleared: set<Claim>)

  datatype Chore =
    | Act(act: Action)
    | SweepNode(node: nat, sweep: SweepHistory.Op)
    | Confirm(claim: Claim)
    | RemoveStale(claim: Claim)

  /** UIDs of cleared entries are not used anew; removal may come any time later. */
  ghost predicate CanDo(k: Keeper, ch: Chore) {
    match ch
    case Act(act) => Enabled(k.sys, act) && (act.Begin? ==> forall c :: c in k.cleared ==> c.uid != act.uid)
    case SweepNode(x, op) => x < |k.sys.servers| && op.Sweep? && SweepHistory.Fits(k.sys.servers[x], op)
    case Confirm(c) => c.node < |k.sys.servers| && Settled(k.sys, c.node, c.name, c.uid)
    case RemoveStale(c) => c in k.cleared && c.node < |k.sys.servers|
  }

  ghost function Do(k: Keeper, ch: Chore): Keeper
    requires CanDo(k, ch)
  {
    match ch
    case Act(act) => k.(sys := Apply(k.sys, act))
    case SweepNode(x, op) =>
      k.(sys := k.sys.(servers := k.sys.servers[x := Swept(k.sys.servers[x], op.interval, op.rs)]))
    case Confirm(c) => k.(cleared := k.cleared + {c})
    case RemoveStale(c) => k.(sys := Removed(k.sys, c.node, c.name, c.uid))
  }

  ghost predicate CanKeep(n: nat, chores: seq<Chore>)
    decreases |chores|, 0
  {
    chores == [] ||
    (CanKeep(n, chores[..|chores| - 1]) && CanDo(Kept(n, chores[..|chores| - 1]), chores[|chores| - 1]))
  }

  ghost function Kept(n: nat, chores: seq<Chore>): Keeper
    requires CanKeep(n, chores)
    decreases |chores|, 1
  {
    if chores == [] then Keeper(Init(n), {})
    else Do(Kept(n, chores[..|chores| - 1]), chores[|chores| - 1])
  }

  predicate WithoutCrash(chores: seq<Chore>) {
    forall k :: 0 <= k < |chores| && chores[k].Act? ==> !chores[k].act.Crash?
  }

  // ---------------------------------------------------------------- exclusion under maintenance

  ghost predicate AllSettled(s: Sys, cleared: set<Claim>) {
    forall c :: c in cleared ==> Settled(s, c.node, c.name, c.uid)
  }

  /** Settled or not does not depend on the lock maps. */
  lemma SettledWithoutServers(s: Sys, s': Sys, cleared: set<Claim>)
    requires s' == s.(servers := s'.servers) && AllSettled(s, cleared)
    ensures AllSettled(s', cleared)
  {
    forall c | c in cleared ensures Settled(s', c.node, c.name, c.uid) {
      forall mode ensures Held(s', Token(c.node, c.name, mode, c.uid)) == Held(s, Token(c.node, c.name, mode, c.uid)) {
      }
    }
  }

  ghost predicate Sound(k: Keeper) {
    Inv(k.sys) && AllSettled(k.sys, k.cleared)
  }

  lemma SoundOfAct(k: Keeper, act: Action)
    requires Sound(k) && CanDo(k, Act(act))
    ensures Sound(Do(k, Act(act)))
  {
    InvKept(k.sys, act);
    forall c | c in k.cleared ensures Settled(Apply(k.sys, act), c.node, c.name, c.uid) {
      SettledKept(k.sys, act, c.node, c.name, c.uid);
    }
  }

  lemma SoundKept(k: Keeper, ch: Chore)
    requires Sound(k) && CanDo(k, ch)
    ensures Sound(Do(k, ch))
  {
    match ch
    case Act(act) => SoundOfAct(k, act);
    case SweepNode(x, op) =>
      SweepKeepsInv(k.sys, x, op.interval, op.rs);
      SettledWithoutServers(k.sys, Do(k, ch).sys, k.cleared);
    case Confirm(c) =>
    case RemoveStale(c) =>
      RemovalKeepsInv(k.sys, c.node, c.name, c.uid);
      SettledWithoutServers(k.sys, Do(k, ch).sys, k.cleared);
  }

  /** Nothing is ruled out but the use of a cleared UID anew. */
  lemma ChoresGoAhead(k: Keeper, act: Action, x: nat, sweep: SweepHistory.Op)
    requires Enabled(k.sys, act) && x < |k.sys.servers| && sweep.Sweep? && SweepHistory.Fits(k.sys.servers[x], sweep)
    ensures CanDo(k, Act(act)) <==> !(act.Begin? && exists c :: c in k.cleared && c.uid == act.uid)
    ensures CanDo(k, SweepNode(x, sweep))
  {
  }

  /** What was once found without an owner may be removed at any time later. */
  lemma {:induction false} ConfirmedMayGo(n: nat, chores: seq<Chore>, a: nat, claim: Claim)
    requires CanKeep(n, chores) && a < |chores| && chores[a] == Confirm(claim)
    ensures claim in Kept(n, chores).cleared
    ensures claim.node < |Kept(n, chores).sys.servers| ==> CanDo(Kept(n, chores), RemoveStale(claim))
  {
    if a < |chores| - 1 {
      ConfirmedMayGo(n, chores[..|chores| - 1], a, claim);
    }
  }

  lemma NothingLostKept(k: Keeper, ch: Chore)
    requires CanDo(k, ch) && NothingLost(k.sys) && (ch.Act? ==> !ch.act.Crash?)
    ensures NothingLost(Do(k, ch).sys)
  {
  }

  lemma {:induction false} KeepingIsSound(n: nat, chores: seq<Chore>)
    requires n >= 2 && CanKeep(n, chores)
    ensures Sound(Kept(n, chores))
    ensures WithoutCrash(chores) ==> NothingLost(Kept(n, chores).sys)
  {
    if chores == [] {
      InitInv(n);
    } else {
      var k := |chores| - 1;
      KeepingIsSound(n, chores[..k]);
      SoundKept(Kept(n, chores[..k]), chores[k]);
      if WithoutCrash(chores) {
        NothingLostKept(Kept(n, chores[..k]), chores[k]);
      }
    }
  }

  /** Mutual exclusion with maintenance at work: sweeps at any time, and removals of
      entries found stale at any time later, never let a conflicting holder in. */
  lemma MaintainedExclusion(n: nat, chores: seq<Chore>, g: Holder, h: Holder)
    requires n >= 2 && CanKeep(n, chores) && WithoutCrash(chores)
    requires var s := Kept(n, chores).sys; Holds(s, g) && Holds(s, h) && g != h && NameOf(s, g) == NameOf(s, h)
    ensures var s := Kept(n, chores).sys; ModeOf(s, g) == ModeOf(s, h) == Quorum.Read
  {
    KeepingIsSound(n, chores);
    MutualExclusion(Kept(n, chores).sys, g, h);
  }
}
