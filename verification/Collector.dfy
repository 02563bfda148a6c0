/** One attempt to take the distributed lock, seen from the goroutine that
    collects the replies (drwmutex.go, lock/quorumMet/releaseAll). The collector
    is a small state machine; the imperative loop below is proved to play it, and
    the global protocol takes the very same steps. */
module Collector {
  import opened Counting
  import opened Quorum

  /** A grant (or a release of it): who granted which lock under which UID. */
  datatype Token = Token(node: nat, name: string, mode: Mode, uid: string)

  datatype Granted = Granted(index: nat, lockUID: string)

  predicate IsLocked(uid: string) {
    |uid| > 0
  }

  datatype Config = Config(n: nat, mode: Mode, name: string) {
    function Quorum(): nat { QuorumOf(n, mode) }
  }

  /** `done` means the loop was left; then `quorum` is the verdict. */
  datatype State = State(received: nat, failed: nat, locks: seq<string>, done: bool, quorum: bool)

  datatype Event = Reply(grant: Granted) | Timeout

  function Blank(n: nat): seq<string> {
    seq(n, _ => "")
  }

  function CountLocked(locks: seq<string>): nat {
    if locks == [] then 0
    else CountLocked(locks[..|locks| - 1]) + (if IsLocked(locks[|locks| - 1]) then 1 else 0)
  }

  predicate QuorumMet(cfg: Config, locks: seq<string>) {
    CountLocked(locks) >= cfg.Quorum()
  }

  /** The releases sent for a vector of grants, in node order. */
  function Tokens(cfg: Config, locks: seq<string>): seq<Token> {
    if locks == [] then []
    else
      var k := |locks| - 1;
      Tokens(cfg, locks[..k]) + (if IsLocked(locks[k]) then [Token(k, cfg.name, cfg.mode, locks[k])] else [])
  }

  function Start(cfg: Config): State {
    State(0, 0, Blank(cfg.n), false, false)
  }

  /** Leave the loop with this vector. */
  function Leave(cfg: Config, c: State, locks: seq<string>): State {
    c.(locks := locks, done := true, quorum := QuorumMet(cfg, locks))
  }

  predicate Accepts(cfg: Config, c: State, ev: Event) {
    |c.locks| == cfg.n && (ev.Reply? ==> ev.grant.index < cfg.n)
  }

  /** One event; the second component are the releases sent on it. */
  function Step(cfg: Config, c: State, ev: Event): (State, seq<Token>)
    requires Accepts(cfg, c, ev)
  {
    match ev
    case Timeout =>
      if c.done then (c, [])
      else if QuorumMet(cfg, c.locks) then (Leave(cfg, c, c.locks), [])
      else (Leave(cfg, c, Blank(cfg.n)), Tokens(cfg, c.locks))
    case Reply(g) =>
      var c1 := c.(received := c.received + 1);
      if c.done then
        (c1, if IsLocked(g.lockUID) then [Token(g.index, cfg.name, cfg.mode, g.lockUID)] else [])
      else if IsLocked(g.lockUID) then
        var locks := c.locks[g.index := g.lockUID];
        (if c1.received == cfg.n then Leave(cfg, c1, locks) else c1.(locks := locks), [])
      else
        var c2 := c1.(failed := c.failed + 1);
        if c2.failed > cfg.n - cfg.Quorum() then (Leave(cfg, c2, Blank(cfg.n)), Tokens(cfg, c.locks))
        else if c2.received == cfg.n then (Leave(cfg, c2, c.locks), [])
        else (c2, [])
  }

  // ---------------------------------------------------------------- vectors

  function LockedNodes(locks: seq<string>): set<nat> {
    set x: nat | x < |locks| && IsLocked(locks[x])
  }

  lemma {:induction false} CountIsSize(locks: seq<string>)
    ensures |LockedNodes(locks)| == CountLocked(locks)
  {
    if locks == [] {
      assert LockedNodes(locks) == {};
    } else {
      var k := |locks| - 1;
      CountIsSize(locks[..k]);
      assert LockedNodes(locks) == LockedNodes(locks[..k]) + (if IsLocked(locks[k]) then {k} else {});
    }
  }

  lemma {:induction false} CountBlank(n: nat)
    ensures CountLocked(Blank(n)) == 0
  {
    if n > 0 {
      CountBlank(n - 1);
      assert Blank(n)[..n - 1] == Blank(n - 1);
    }
  }

  lemma CountZero(locks: seq<string>)
    ensures CountLocked(locks) == 0 <==> forall x :: 0 <= x < |locks| ==> locks[x] == ""
  {
    CountIsSize(locks);
    if CountLocked(locks) == 0 {
      forall x | 0 <= x < |locks| ensures locks[x] == "" {
        assert x !in LockedNodes(locks);
      }
    } else {
      var x :| x in LockedNodes(locks);
    }
  }

  lemma {:induction false} CountFill(locks: seq<string>, i: nat, uid: string)
    requires i < |locks| && locks[i] == "" && IsLocked(uid)
    ensures CountLocked(locks[i := uid]) == CountLocked(locks) + 1
  {
    var k := |locks| - 1;
    if i == k {
      assert locks[i := uid][..k] == locks[..k];
    } else {
      CountFill(locks[..k], i, uid);
      assert locks[i := uid][..k] == locks[..k][i := uid];
    }
  }

  /** Whether this vector holds this token: 1 or 0. */
  function SlotCount(cfg: Config, locks: seq<string>, t: Token): nat {
    if t.name == cfg.name && t.mode == cfg.mode && t.node < |locks| && IsLocked(t.uid) && locks[t.node] == t.uid
    then 1 else 0
  }

  /** The releases sent for a vector are its slots, each exactly once. */
  lemma {:induction false} TokensAreSlots(cfg: Config, locks: seq<string>, t: Token)
    ensures multiset(Tokens(cfg, locks))[t] == SlotCount(cfg, locks, t)
  {
    if locks != [] {
      var k := |locks| - 1;
      var last := if IsLocked(locks[k]) then [Token(k, cfg.name, cfg.mode, locks[k])] else [];
      TokensAreSlots(cfg, locks[..k], t);
      assert Tokens(cfg, locks) == Tokens(cfg, locks[..k]) + last;
      assert multiset(Tokens(cfg, locks)) == multiset(Tokens(cfg, locks[..k])) + multiset(last);
      if t.node == k {
        assert SlotCount(cfg, locks[..k], t) == 0;
      } else {
        assert SlotCount(cfg, locks[..k], t) == SlotCount(cfg, locks, t);
      }
    }
  }

  // ---------------------------------------------------------------- the invariant

  predicate Ok(cfg: Config, c: State) {
    && |c.locks| == cfg.n
    && c.received <= cfg.n
    && (!c.done ==>
          && c.received < cfg.n
          && CountLocked(c.locks) + c.failed == c.received
          && c.failed <= cfg.n - cfg.Quorum()
          && !c.quorum)
    && (c.done ==>
          && c.quorum == QuorumMet(cfg, c.locks)
          && (!c.quorum ==> c.locks == Blank(cfg.n)))
  }

  /** The next reply comes from a node that has not answered yet. */
  predicate Expected(cfg: Config, c: State, ev: Event) {
    ev.Reply? ==>
      && ev.grant.index < cfg.n == |c.locks|
      && c.received < cfg.n
      && (c.done || c.locks[ev.grant.index] == "")
  }

  lemma StartOk(cfg: Config)
    requires cfg.n >= 2
    ensures Ok(cfg, Start(cfg))
  {
    CountBlank(cfg.n);
  }

  lemma StepOk(cfg: Config, c: State, ev: Event)
    requires cfg.n >= 2 && Ok(cfg, c) && Expected(cfg, c, ev)
    ensures Ok(cfg, Step(cfg, c, ev).0)
    ensures c.done ==> Step(cfg, c, ev).0 == c.(received := Step(cfg, c, ev).0.received)
    ensures Step(cfg, c, ev).0.received == c.received + (if ev.Reply? then 1 else 0)
  {
    CountBlank(cfg.n);
    if ev.Reply? && !c.done && IsLocked(ev.grant.lockUID) {
      CountFill(c.locks, ev.grant.index, ev.grant.lockUID);
    }
  }

  lemma StepSlots(cfg: Config, c: State, ev: Event)
    requires Accepts(cfg, c, ev)
    ensures LockedNodes(Step(cfg, c, ev).0.locks)
         <= LockedNodes(c.locks) + (if ev.Reply? then {ev.grant.index} else {})
  {
  }

  /** The loop is left on a refusal too many or on the last reply, with a quorum
      exactly if it was not a refusal too many. */
  lemma AbortStep(cfg: Config, c: State, ev: Event)
    requires cfg.n >= 2 && Ok(cfg, c) && Expected(cfg, c, ev) && ev.Reply? && !c.done
    ensures var failed := c.failed + (if IsLocked(ev.grant.lockUID) then 0 else 1);
      var c' := Step(cfg, c, ev).0;
      && c'.failed == failed
      && (c'.done <==> c.received + 1 == cfg.n || failed > cfg.n - cfg.Quorum())
      && (c'.done ==> (c'.quorum <==> failed <= cfg.n - cfg.Quorum()))
  {
    QuorumSizes(cfg.n, cfg.mode, cfg.mode);
    CountBlank(cfg.n);
    if IsLocked(ev.grant.lockUID) {
      CountFill(c.locks, ev.grant.index, ev.grant.lockUID);
    }
  }

  function GrantCount(cfg: Config, ev: Event, t: Token): nat {
    if ev.Reply? && IsLocked(ev.grant.lockUID) && t == Token(ev.grant.index, cfg.name, cfg.mode, ev.grant.lockUID)
    then 1 else 0
  }

  /** Every grant held or received is afterwards held or released, exactly once. */
  lemma StepAccounts(cfg: Config, c: State, ev: Event, t: Token)
    requires Ok(cfg, c) && Expected(cfg, c, ev)
    ensures SlotCount(cfg, c.locks, t) + GrantCount(cfg, ev, t)
         == SlotCount(cfg, Step(cfg, c, ev).0.locks, t) + multiset(Step(cfg, c, ev).1)[t]
  {
    if ev.Timeout? || c.done {
      LastAccounts(cfg, c, ev, t);
    } else if IsLocked(ev.grant.lockUID) {
      GrantAccounts(cfg, c, ev.grant, t);
    } else {
      RefusalAccounts(cfg, c, ev.grant, t);
    }
  }

  lemma LastAccounts(cfg: Config, c: State, ev: Event, t: Token)
    requires Ok(cfg, c) && Expected(cfg, c, ev) && (ev.Timeout? || c.done)
    ensures SlotCount(cfg, c.locks, t) + GrantCount(cfg, ev, t)
         == SlotCount(cfg, Step(cfg, c, ev).0.locks, t) + multiset(Step(cfg, c, ev).1)[t]
  {
    TokensAreSlots(cfg, c.locks, t);
  }

  lemma GrantAccounts(cfg: Config, c: State, g: Granted, t: Token)
    requires Ok(cfg, c) && Expected(cfg, c, Reply(g)) && !c.done && IsLocked(g.lockUID)
    ensures SlotCount(cfg, c.locks, t) + GrantCount(cfg, Reply(g), t)
         == SlotCount(cfg, Step(cfg, c, Reply(g)).0.locks, t) + multiset(Step(cfg, c, Reply(g)).1)[t]
  {
  }

  lemma RefusalAccounts(cfg: Config, c: State, g: Granted, t: Token)
    requires Ok(cfg, c) && Expected(cfg, c, Reply(g)) && !c.done && !IsLocked(g.lockUID)
    ensures SlotCount(cfg, c.locks, t) + GrantCount(cfg, Reply(g), t)
         == SlotCount(cfg, Step(cfg, c, Reply(g)).0.locks, t) + multiset(Step(cfg, c, Reply(g)).1)[t]
  {
    TokensAreSlots(cfg, c.locks, t);
  }

  // ---------------------------------------------------------------- whole attempts

  function Answered(events: seq<Event>): set<nat> {
    if events == [] then {}
    else
      var last := events[|events| - 1];
      Answered(events[..|events| - 1]) + (if last.Reply? then {last.grant.index} else {})
  }

  /** At most one reply per node, whatever the order and wherever the timeout. */
  predicate Possible(cfg: Config, events: seq<Event>) {
    events == [] ||
    var prev, last := events[..|events| - 1], events[|events| - 1];
    && Possible(cfg, prev)
    && (last.Reply? ==> last.grant.index < cfg.n && last.grant.index !in Answered(prev))
  }

  function Play(cfg: Config, events: seq<Event>): (r: (State, seq<Token>))
    requires Possible(cfg, events)
    ensures |r.0.locks| == cfg.n
  {
    if events == [] then (Start(cfg), [])
    else
      var (c, sent) := Play(cfg, events[..|events| - 1]);
      var (c', more) := Step(cfg, c, events[|events| - 1]);
      (c', sent + more)
  }

  function Refusals(events: seq<Event>): nat {
    if events == [] then 0
    else
      var last := events[|events| - 1];
      Refusals(events[..|events| - 1]) + (if last.Reply? && !IsLocked(last.grant.lockUID) then 1 else 0)
  }

  function Grants(cfg: Config, events: seq<Event>): multiset<Token> {
    if events == [] then multiset{}
    else
      var last := events[|events| - 1];
      Grants(cfg, events[..|events| - 1])
      + (if last.Reply? && IsLocked(last.grant.lockUID)
         then multiset{Token(last.grant.index, cfg.name, cfg.mode, last.grant.lockUID)} else multiset{})
  }

  lemma {:induction false} AnsweredSize(cfg: Config, events: seq<Event>)
    requires Possible(cfg, events)
    ensures Answered(events) <= Nodes(cfg.n)
    ensures |Answered(events)| <= cfg.n
    ensures Timeout !in events ==> |Answered(events)| == |events|
  {
    if events != [] {
      var k := |events| - 1;
      AnsweredSize(cfg, events[..k]);
      assert events[k] in events;
      assert forall e :: e in events[..k] ==> e in events;
    }
    NodesSize(cfg.n);
    SubsetSize(Answered(events), Nodes(cfg.n));
  }

  lemma {:induction false} PlayOk(cfg: Config, events: seq<Event>)
    requires cfg.n >= 2 && Possible(cfg, events)
    ensures Ok(cfg, Play(cfg, events).0)
    ensures Play(cfg, events).0.received == |Answered(events)|
    ensures LockedNodes(Play(cfg, events).0.locks) <= Answered(events)
  {
    if events == [] {
      StartOk(cfg);
    } else {
      var k := |events| - 1;
      var prev, ev := events[..k], events[k];
      PlayOk(cfg, prev);
      PlayExpects(cfg, prev, ev);
      var c := Play(cfg, prev).0;
      StepOk(cfg, c, ev);
      StepSlots(cfg, c, ev);
      assert Play(cfg, events).0 == Step(cfg, c, ev).0;
    }
  }

  lemma PlayExpects(cfg: Config, prev: seq<Event>, ev: Event)
    requires cfg.n >= 2 && Possible(cfg, prev)
    requires ev.Reply? ==> ev.grant.index < cfg.n && ev.grant.index !in Answered(prev)
    requires Ok(cfg, Play(cfg, prev).0)
    requires Play(cfg, prev).0.received == |Answered(prev)|
    requires LockedNodes(Play(cfg, prev).0.locks) <= Answered(prev)
    ensures Expected(cfg, Play(cfg, prev).0, ev)
    ensures Answered(prev) <= Nodes(cfg.n)
  {
    AnsweredSize(cfg, prev);
    if ev.Reply? {
      var c := Play(cfg, prev).0;
      assert ev.grant.index !in LockedNodes(c.locks);
      NodesSize(cfg.n);
      SubsetSize(Answered(prev) + {ev.grant.index}, Nodes(cfg.n));
    }
  }

  /** Kept and released grants together are exactly the grants received; a lost
      attempt keeps none, a won one at least the quorum. */
  lemma {:induction false} EveryGrantAccountedFor(cfg: Config, events: seq<Event>)
    requires cfg.n >= 2 && Possible(cfg, events)
    ensures var (c, sent) := Play(cfg, events);
      && multiset(Tokens(cfg, c.locks)) + multiset(sent) == Grants(cfg, events)
      && (c.done && !c.quorum ==> Tokens(cfg, c.locks) == [])
      && (c.done && c.quorum ==> |Tokens(cfg, c.locks)| >= cfg.Quorum())
  {
    var (c, sent) := Play(cfg, events);
    PlayOk(cfg, events);
    TokensLength(cfg, c.locks);
    CountBlank(cfg.n);
    forall t ensures (multiset(Tokens(cfg, c.locks)) + multiset(sent))[t] == Grants(cfg, events)[t] {
      TokensAreSlots(cfg, c.locks, t);
      PlayAccounts(cfg, events, t);
    }
  }

  lemma {:induction false} PlayAccounts(cfg: Config, events: seq<Event>, t: Token)
    requires cfg.n >= 2 && Possible(cfg, events)
    ensures var (c, sent) := Play(cfg, events);
      SlotCount(cfg, c.locks, t) + multiset(sent)[t] == Grants(cfg, events)[t]
  {
    if events != [] {
      var k := |events| - 1;
      var prev, ev := events[..k], events[k];
      PlayAccounts(cfg, prev, t);
      PlayOk(cfg, prev);
      PlayExpects(cfg, prev, ev);
      StepAccounts(cfg, Play(cfg, prev).0, ev, t);
    }
  }

  lemma {:induction false} TokensLength(cfg: Config, locks: seq<string>)
    ensures |Tokens(cfg, locks)| == CountLocked(locks)
  {
    if locks != [] {
      TokensLength(cfg, locks[..|locks| - 1]);
    }
  }

  /** The abort is exact: as long as no timeout intervenes the loop goes on
      precisely while the grants so far plus the outstanding replies can still
      make the quorum; and n replies without abort are a quorum. */
  lemma {:induction false} AbortIsExact(cfg: Config, events: seq<Event>)
    requires cfg.n >= 2 && Possible(cfg, events) && Timeout !in events
    ensures var c := Play(cfg, events).0;
      && |events| <= cfg.n
      && (c.done <==> |events| == cfg.n || cfg.n - Refusals(events) < cfg.Quorum())
      && (!c.done ==> c.failed == Refusals(events))
      && (c.done ==> (c.quorum <==> cfg.n - Refusals(events) >= cfg.Quorum()))
  {
    QuorumSizes(cfg.n, cfg.mode, cfg.mode);
    AnsweredSize(cfg, events);
    if events != [] {
      var k := |events| - 1;
      var prev, ev := events[..k], events[k];
      assert ev in events;
      assert forall e :: e in prev ==> e in events;
      AbortIsExact(cfg, prev);
      PlayOk(cfg, prev);
      PlayExpects(cfg, prev, ev);
      AnsweredSize(cfg, prev);
      var c := Play(cfg, prev).0;
      assert Play(cfg, events).0 == Step(cfg, c, ev).0;
      if c.done {
        StepOk(cfg, c, ev);
      } else {
        AbortStep(cfg, c, ev);
      }
    }
  }

  // ---------------------------------------------------------------- the vector of an attempt

  lemma VectorStep(cfg: Config, c: State, g: Granted)
    requires cfg.n >= 2 && Ok(cfg, c) && Expected(cfg, c, Reply(g)) && !c.done
    requires var c' := Step(cfg, c, Reply(g)).0; !c'.done || c'.quorum
    ensures Step(cfg, c, Reply(g)).0.locks == if IsLocked(g.lockUID) then c.locks[g.index := g.lockUID] else c.locks
  {
    CountBlank(cfg.n);
    QuorumSizes(cfg.n, cfg.mode, cfg.mode);
  }

  /** An attempt that has not failed was still collecting one reply earlier. */
  lemma StillCollecting(cfg: Config, prev: seq<Event>, ev: Event)
    requires cfg.n >= 2 && |prev| < cfg.n && Timeout !in prev && ev.Reply?
    requires Possible(cfg, prev) && Possible(cfg, prev + [ev])
    requires var c' := Play(cfg, prev + [ev]).0; !c'.done || c'.quorum
    ensures var c := Play(cfg, prev).0;
      && Ok(cfg, c) && !c.done && Expected(cfg, c, ev)
      && Play(cfg, prev + [ev]).0 == Step(cfg, c, ev).0
  {
    assert (prev + [ev])[..|prev|] == prev;
    PlayOk(cfg, prev);
    PlayExpects(cfg, prev, ev);
    AbortIsExact(cfg, prev);
    StepOk(cfg, Play(cfg, prev).0, ev);
  }

  /** The UID node x has granted under, if it has. */
  function GrantFrom(events: seq<Event>, x: nat): string {
    if events == [] then ""
    else
      var last := events[|events| - 1];
      if last.Reply? && last.grant.index == x && IsLocked(last.grant.lockUID) then last.grant.lockUID
      else GrantFrom(events[..|events| - 1], x)
  }

  /** As long as an attempt has not failed, its slots are the grants so far. */
  lemma {:induction false} SlotsAreGrants(cfg: Config, events: seq<Event>, x: nat)
    requires cfg.n >= 2 && x < cfg.n && |events| <= cfg.n && Timeout !in events && Possible(cfg, events)
    requires !Play(cfg, events).0.done || Play(cfg, events).0.quorum
    ensures Play(cfg, events).0.locks[x] == GrantFrom(events, x)
  {
    if events != [] {
      var prev, ev := events[..|events| - 1], events[|events| - 1];
      assert events == prev + [ev] && ev in events;
      StillCollecting(cfg, prev, ev);
      SlotsAreGrants(cfg, prev, x);
      VectorStep(cfg, Play(cfg, prev).0, ev.grant);
    }
  }

  /** As long as an attempt has not failed, nothing was released. */
  lemma {:induction false} NothingSentYet(cfg: Config, events: seq<Event>)
    requires cfg.n >= 2 && |events| <= cfg.n && Timeout !in events && Possible(cfg, events)
    requires !Play(cfg, events).0.done || Play(cfg, events).0.quorum
    ensures Play(cfg, events).1 == []
  {
    if events != [] {
      var prev, ev := events[..|events| - 1], events[|events| - 1];
      assert events == prev + [ev] && ev in events;
      StillCollecting(cfg, prev, ev);
      NothingSentYet(cfg, prev);
      SendsOnlyOnFailure(cfg, Play(cfg, prev).0, ev);
      assert Play(cfg, events).1 == Play(cfg, prev).1 + Step(cfg, Play(cfg, prev).0, ev).1;
    }
  }

  lemma SendsOnlyOnFailure(cfg: Config, c: State, ev: Event)
    requires cfg.n >= 2 && Accepts(cfg, c, ev) && !c.done
    requires var c' := Step(cfg, c, ev).0; !c'.done || c'.quorum
    ensures Step(cfg, c, ev).1 == []
  {
    CountBlank(cfg.n);
    QuorumSizes(cfg.n, cfg.mode, cfg.mode);
  }

  /** Releases go out in node order. */
  lemma {:induction false} TokensAscend(cfg: Config, locks: seq<string>)
    ensures forall k :: 0 <= k < |Tokens(cfg, locks)| ==> Tokens(cfg, locks)[k].node < |locks|
    ensures forall j, k :: 0 <= j < k < |Tokens(cfg, locks)| ==> Tokens(cfg, locks)[j].node < Tokens(cfg, locks)[k].node
  {
    if locks != [] {
      TokensAscend(cfg, locks[..|locks| - 1]);
    }
  }

  /** The timer fires while the loop goes on: with a quorum in hand nothing is released. */
  lemma TimerVerdict(cfg: Config, c: State, granting: set<nat>)
    requires cfg.n >= 2 && Ok(cfg, c) && !c.done && LockedNodes(c.locks) == granting
    ensures var (c', sent) := Step(cfg, c, Timeout);
      && c'.done && c'.received == c.received && (c'.quorum <==> |granting| >= cfg.Quorum())
      && (c'.quorum ==> c'.locks == c.locks && sent == [])
  {
    CountIsSize(c.locks);
    CountBlank(cfg.n);
    QuorumSizes(cfg.n, cfg.mode, cfg.mode);
  }
}
