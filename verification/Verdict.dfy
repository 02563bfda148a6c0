/** One call of `lock` from its replies alone (drwmutex.go:217-286): the replies in
    order of arrival and the moment of the timer decide the verdict, the vector and
    the releases. */
module Verdict {
  import opened Collector

  /** The first k replies, in order of arrival. */
  function Replies(ch: seq<Granted>, k: nat): seq<Event>
    requires k <= |ch|
  {
    if k == 0 then [] else Replies(ch, k - 1) + [Reply(ch[k - 1])]
  }

  /** The same with the timer firing after the first t of them. */
  function WithTimeout(ch: seq<Granted>, t: nat, k: nat): seq<Event>
    requires t <= k <= |ch|
  {
    if k == t then Replies(ch, t) + [Timeout] else WithTimeout(ch, t, k - 1) + [Reply(ch[k - 1])]
  }

  /** Every node answers at most once. */
  predicate Arrivals(cfg: Config, ch: seq<Granted>) {
    Possible(cfg, Replies(ch, |ch|))
  }

  lemma Snoc(cfg: Config, events: seq<Event>, ev: Event)
    ensures Answered(events + [ev]) == Answered(events) + (if ev.Reply? then {ev.grant.index} else {})
    ensures Possible(cfg, events + [ev]) <==>
      Possible(cfg, events) && (ev.Reply? ==> ev.grant.index < cfg.n && ev.grant.index !in Answered(events))
    ensures Grants(cfg, events + [ev])
         == Grants(cfg, events)
            + (if ev.Reply? && IsLocked(ev.grant.lockUID)
               then multiset{Token(ev.grant.index, cfg.name, cfg.mode, ev.grant.lockUID)} else multiset{})
  {
    assert (events + [ev])[..|events|] == events;
  }

  lemma PlayOneMore(cfg: Config, events: seq<Event>, ev: Event)
    requires Possible(cfg, events) && Possible(cfg, events + [ev])
    ensures var (c, sent) := Play(cfg, events);
      var (c', more) := Step(cfg, c, ev);
      Play(cfg, events + [ev]) == (c', sent + more)
  {
    assert (events + [ev])[..|events|] == events;
  }

  lemma {:induction false} PossiblePrefix(cfg: Config, ch: seq<Granted>, k: nat)
    requires Arrivals(cfg, ch) && k <= |ch|
    ensures Possible(cfg, Replies(ch, k))
    decreases |ch| - k
  {
    if k < |ch| {
      PossiblePrefix(cfg, ch, k + 1);
      Snoc(cfg, Replies(ch, k), Reply(ch[k]));
    }
  }

  /** A timeout among the replies changes nothing in who has answered or granted. */
  lemma {:induction false} PossibleWithTimeout(cfg: Config, ch: seq<Granted>, t: nat, k: nat)
    requires Arrivals(cfg, ch) && t <= k <= |ch|
    ensures Possible(cfg, WithTimeout(ch, t, k))
    ensures Answered(WithTimeout(ch, t, k)) == Answered(Replies(ch, k))
  {
    PossiblePrefix(cfg, ch, k);
    if k == t {
      Snoc(cfg, Replies(ch, t), Timeout);
    } else {
      PossibleWithTimeout(cfg, ch, t, k - 1);
      Snoc(cfg, WithTimeout(ch, t, k - 1), Reply(ch[k - 1]));
      Snoc(cfg, Replies(ch, k - 1), Reply(ch[k - 1]));
    }
  }

  lemma {:induction false} GrantsWithTimeout(cfg: Config, ch: seq<Granted>, t: nat, k: nat)
    requires t <= k <= |ch|
    ensures Grants(cfg, WithTimeout(ch, t, k)) == Grants(cfg, Replies(ch, k))
  {
    if k == t {
      Snoc(cfg, Replies(ch, t), Timeout);
    } else {
      GrantsWithTimeout(cfg, ch, t, k - 1);
      Snoc(cfg, WithTimeout(ch, t, k - 1), Reply(ch[k - 1]));
      Snoc(cfg, Replies(ch, k - 1), Reply(ch[k - 1]));
    }
  }

  ghost predicate DoneAt(cfg: Config, ch: seq<Granted>, k: nat)
    requires Arrivals(cfg, ch) && k <= |ch|
  {
    PossiblePrefix(cfg, ch, k);
    Play(cfg, Replies(ch, k)).0.done
  }

  lemma {:induction false} DoneStays(cfg: Config, ch: seq<Granted>, j: nat, k: nat)
    requires Arrivals(cfg, ch) && j <= k <= |ch| && DoneAt(cfg, ch, j)
    ensures DoneAt(cfg, ch, k)
  {
    if j < k {
      DoneStays(cfg, ch, j, k - 1);
      PossiblePrefix(cfg, ch, k - 1);
      PossiblePrefix(cfg, ch, k);
      PlayOneMore(cfg, Replies(ch, k - 1), Reply(ch[k - 1]));
    }
  }

  /** What the collector sees when the replies arrive in the order of `ch` and the
      timer fires after `timeoutAt` of them, unless the loop was left before. */
  ghost function Script(cfg: Config, ch: seq<Granted>, timeoutAt: nat): seq<Event>
    requires Arrivals(cfg, ch)
  {
    Seen(ch, timeoutAt, timeoutAt < |ch| && !DoneAt(cfg, ch, timeoutAt), |ch|)
  }

  /** The events up to reply number i, with the timeout where it was taken. */
  function Seen(ch: seq<Granted>, timeoutAt: nat, timed: bool, i: nat): seq<Event>
    requires i <= |ch| && (timed ==> timeoutAt <= i)
  {
    if timed then WithTimeout(ch, timeoutAt, i) else Replies(ch, i)
  }

  lemma SeenPossible(cfg: Config, ch: seq<Granted>, timeoutAt: nat, timed: bool, i: nat)
    requires Arrivals(cfg, ch) && i <= |ch| && (timed ==> timeoutAt <= i)
    ensures Possible(cfg, Seen(ch, timeoutAt, timed, i))
    ensures Grants(cfg, Seen(ch, timeoutAt, timed, i)) == Grants(cfg, Replies(ch, i))
  {
    if timed {
      PossibleWithTimeout(cfg, ch, timeoutAt, i);
      GrantsWithTimeout(cfg, ch, timeoutAt, i);
    } else {
      PossiblePrefix(cfg, ch, i);
    }
  }

  lemma SeenNext(cfg: Config, ch: seq<Granted>, timeoutAt: nat, timed: bool, i: nat)
    requires Arrivals(cfg, ch) && i < |ch| && (timed ==> timeoutAt <= i)
    ensures Possible(cfg, Seen(ch, timeoutAt, timed, i)) && Possible(cfg, Seen(ch, timeoutAt, timed, i + 1))
    ensures var (c, sent) := Play(cfg, Seen(ch, timeoutAt, timed, i));
      var (c', more) := Step(cfg, c, Reply(ch[i]));
      Play(cfg, Seen(ch, timeoutAt, timed, i + 1)) == (c', sent + more)
  {
    SeenPossible(cfg, ch, timeoutAt, timed, i);
    SeenPossible(cfg, ch, timeoutAt, timed, i + 1);
    PlayOneMore(cfg, Seen(ch, timeoutAt, timed, i), Reply(ch[i]));
  }

  lemma TimeoutNext(cfg: Config, ch: seq<Granted>, i: nat)
    requires Arrivals(cfg, ch) && i < |ch|
    ensures Possible(cfg, Replies(ch, i)) && Possible(cfg, Seen(ch, i, true, i))
    ensures var (c, sent) := Play(cfg, Replies(ch, i));
      var (c', more) := Step(cfg, c, Timeout);
      Play(cfg, Seen(ch, i, true, i)) == (c', sent + more)
  {
    PossiblePrefix(cfg, ch, i);
    SeenPossible(cfg, ch, i, true, i);
    PlayOneMore(cfg, Replies(ch, i), Timeout);
  }

  lemma SeenIsScript(cfg: Config, ch: seq<Granted>, timeoutAt: nat, timed: bool, left: nat)
    requires Arrivals(cfg, ch) && left <= |ch|
    requires timed ==> timeoutAt < |ch| && !DoneAt(cfg, ch, timeoutAt)
    requires !timed ==> left <= timeoutAt && DoneAt(cfg, ch, left)
    ensures Seen(ch, timeoutAt, timed, |ch|) == Script(cfg, ch, timeoutAt)
  {
    if !timed && timeoutAt < |ch| {
      DoneStays(cfg, ch, left, timeoutAt);
    }
  }

  /** After the verdict a reply changes nothing but the count, and is released. */
  lemma DrainStep(cfg: Config, c: State, i: nat, g: Granted, sent: seq<Token>)
    requires c.done && |c.locks| == cfg.n && g.index < cfg.n
    ensures var (c', more) := Step(cfg, c.(received := i), Reply(g));
      && c' == c.(received := i + 1)
      && sent + more == if IsLocked(g.lockUID) then sent + [Token(g.index, cfg.name, cfg.mode, g.lockUID)] else sent
  {
  }

  lemma DrainNext(cfg: Config, ch: seq<Granted>, timeoutAt: nat, timed: bool, i: nat, c: State, sent: seq<Token>)
    requires Arrivals(cfg, ch) && i < |ch| && (timed ==> timeoutAt <= i)
    requires Possible(cfg, Seen(ch, timeoutAt, timed, i))
    requires c.done && Play(cfg, Seen(ch, timeoutAt, timed, i)) == (c.(received := i), sent)
    ensures Possible(cfg, Seen(ch, timeoutAt, timed, i + 1))
    ensures Play(cfg, Seen(ch, timeoutAt, timed, i + 1))
         == (c.(received := i + 1),
             if IsLocked(ch[i].lockUID) then sent + [Token(ch[i].index, cfg.name, cfg.mode, ch[i].lockUID)] else sent)
  {
    SeenNext(cfg, ch, timeoutAt, timed, i);
    PossiblePrefix(cfg, ch, i + 1);
    Snoc(cfg, Replies(ch, i), Reply(ch[i]));
    DrainStep(cfg, c, i, ch[i], sent);
  }

  /** Kept and released grants partition the grants, for every arrival order and every
      moment of the timeout. */
  lemma {:induction false} VerdictAccounts(cfg: Config, ch: seq<Granted>, timeoutAt: nat)
    requires cfg.n >= 2 && Arrivals(cfg, ch)
    ensures Possible(cfg, Script(cfg, ch, timeoutAt))
    ensures var (c, sent) := Play(cfg, Script(cfg, ch, timeoutAt));
      && multiset(Tokens(cfg, c.locks)) + multiset(sent) == Grants(cfg, Replies(ch, |ch|))
      && (c.done && c.quorum ==> |LockedNodes(c.locks)| >= cfg.Quorum())
      && (c.done && !c.quorum ==> c.locks == Blank(cfg.n))
  {
    SeenPossible(cfg, ch, timeoutAt, timeoutAt < |ch| && !DoneAt(cfg, ch, timeoutAt), |ch|);
    EveryGrantAccountedFor(cfg, Script(cfg, ch, timeoutAt));
    PlayOk(cfg, Script(cfg, ch, timeoutAt));
    CountIsSize(Play(cfg, Script(cfg, ch, timeoutAt)).0.locks);
  }

  // ---------------------------------------------------------------- the verdict from the replies alone

  /** The nodes that grant in these replies. */
  function GrantNodes(ch: seq<Granted>): set<nat> {
    set k | 0 <= k < |ch| && IsLocked(ch[k].lockUID) :: ch[k].index
  }

  /** A release for each grant in these replies, in order of arrival. */
  function ReleasesOf(cfg: Config, ch: seq<Granted>): seq<Token> {
    if ch == [] then []
    else
      var k := |ch| - 1;
      ReleasesOf(cfg, ch[..k])
      + (if IsLocked(ch[k].lockUID) then [Token(ch[k].index, cfg.name, cfg.mode, ch[k].lockUID)] else [])
  }

  /** How many replies count: those that arrive before the timer fires. */
  function InTime(n: nat, timeoutAt: nat): nat {
    if timeoutAt < n then timeoutAt else n
  }

  lemma GrantNodesSnoc(ch: seq<Granted>, k: nat)
    requires k < |ch|
    ensures GrantNodes(ch[..k + 1]) == GrantNodes(ch[..k]) + (if IsLocked(ch[k].lockUID) then {ch[k].index} else {})
  {
    var next := ch[..k + 1];
    assert forall j :: 0 <= j < k ==> ch[..k][j] == next[j];
    assert next[k] == ch[k];
  }

  lemma {:induction false} RepliesLength(ch: seq<Granted>, k: nat)
    requires k <= |ch|
    ensures |Replies(ch, k)| == k && Timeout !in Replies(ch, k)
  {
    if k > 0 {
      RepliesLength(ch, k - 1);
    }
  }

  lemma RefusalsSnoc(events: seq<Event>, g: Granted)
    ensures Refusals(events + [Reply(g)]) == Refusals(events) + (if IsLocked(g.lockUID) then 0 else 1)
  {
    assert (events + [Reply(g)])[..|events|] == events;
  }

  lemma {:induction false} GrantersHaveAnswered(cfg: Config, ch: seq<Granted>, k: nat)
    requires Arrivals(cfg, ch) && k <= |ch|
    ensures GrantNodes(ch[..k]) <= Answered(Replies(ch, k))
  {
    if k > 0 {
      GrantersHaveAnswered(cfg, ch, k - 1);
      GrantNodesSnoc(ch, k - 1);
      NewcomerIsNew(cfg, ch, k - 1);
    }
  }

  lemma OneMoreGranter(cfg: Config, ch: seq<Granted>, k: nat)
    requires Arrivals(cfg, ch) && k < |ch|
    ensures |GrantNodes(ch[..k + 1])| == |GrantNodes(ch[..k])| + (if IsLocked(ch[k].lockUID) then 1 else 0)
    ensures ch[k].index !in GrantNodes(ch[..k])
  {
    GrantersHaveAnswered(cfg, ch, k);
    NewcomerIsNew(cfg, ch, k);
    GrantNodesSnoc(ch, k);
  }

  /** Every reply is a grant or a refusal. */
  lemma {:induction false} GrantsAndRefusals(cfg: Config, ch: seq<Granted>, k: nat)
    requires Arrivals(cfg, ch) && k <= |ch|
    ensures Refusals(Replies(ch, k)) + |GrantNodes(ch[..k])| == k
  {
    if k == 0 {
      assert GrantNodes(ch[..0]) == {};
    } else {
      GrantsAndRefusals(cfg, ch, k - 1);
      OneMoreGranter(cfg, ch, k - 1);
      RefusalsSnoc(Replies(ch, k - 1), ch[k - 1]);
    }
  }

  lemma NewcomerIsNew(cfg: Config, ch: seq<Granted>, k: nat)
    requires Arrivals(cfg, ch) && k < |ch|
    ensures Answered(Replies(ch, k + 1)) == Answered(Replies(ch, k)) + {ch[k].index}
    ensures ch[k].index !in Answered(Replies(ch, k))
  {
    PossiblePrefix(cfg, ch, k + 1);
    Snoc(cfg, Replies(ch, k), Reply(ch[k]));
  }

  lemma GrantFromSnoc(events: seq<Event>, g: Granted, x: nat)
    ensures GrantFrom(events + [Reply(g)], x)
         == if g.index == x && IsLocked(g.lockUID) then g.lockUID else GrantFrom(events, x)
  {
    assert (events + [Reply(g)])[..|events|] == events;
  }

  /** What a node has granted under, read off the replies. */
  lemma {:induction false} GrantersInReplies(ch: seq<Granted>, k: nat, x: nat)
    requires k <= |ch|
    ensures IsLocked(GrantFrom(Replies(ch, k), x)) <==> x in GrantNodes(ch[..k])
  {
    if k == 0 {
      assert GrantNodes(ch[..0]) == {};
    } else {
      GrantersInReplies(ch, k - 1, x);
      GrantNodesSnoc(ch, k - 1);
      GrantFromSnoc(Replies(ch, k - 1), ch[k - 1], x);
    }
  }

  lemma {:induction false} GrantFromReplies(cfg: Config, ch: seq<Granted>, k: nat, j: nat)
    requires Arrivals(cfg, ch) && j < k <= |ch| && IsLocked(ch[j].lockUID)
    ensures GrantFrom(Replies(ch, k), ch[j].index) == ch[j].lockUID
  {
    GrantFromSnoc(Replies(ch, k - 1), ch[k - 1], ch[j].index);
    if j < k - 1 {
      GrantFromReplies(cfg, ch, k - 1, j);
      OneMoreGranter(cfg, ch, k - 1);
      assert ch[..k - 1][j] == ch[j];
      assert ch[j].index in GrantNodes(ch[..k - 1]);
    }
  }

  /** This vector shows exactly the grants among these replies. */
  ghost predicate Shows(locks: seq<string>, ch: seq<Granted>) {
    && LockedNodes(locks) == GrantNodes(ch)
    && forall k :: 0 <= k < |ch| && IsLocked(ch[k].lockUID) ==>
         ch[k].index < |locks| && locks[ch[k].index] == ch[k].lockUID
  }

  /** While the loop goes on, and when it ends with a quorum, the vector shows the
      grants so far and nothing was released. */
  lemma CollectedSoFar(cfg: Config, ch: seq<Granted>, k: nat)
    requires cfg.n >= 2 && Arrivals(cfg, ch) && k <= |ch| == cfg.n
    ensures Possible(cfg, Replies(ch, k))
    ensures var (c, sent) := Play(cfg, Replies(ch, k));
      && (c.done <==> k == cfg.n || |GrantNodes(ch[..k])| < cfg.Quorum() - (cfg.n - k))
      && (c.done ==> (c.quorum <==> |GrantNodes(ch[..k])| >= cfg.Quorum() - (cfg.n - k)))
      && (!c.done || c.quorum ==> Shows(c.locks, ch[..k]) && sent == [])
  {
    var events := Replies(ch, k);
    PossiblePrefix(cfg, ch, k);
    RepliesLength(ch, k);
    GrantsAndRefusals(cfg, ch, k);
    AbortIsExact(cfg, events);
    var (c, sent) := Play(cfg, events);
    if !c.done || c.quorum {
      NothingSentYet(cfg, events);
      ShowsGrants(cfg, ch, k, c.locks);
    }
  }

  lemma ShowsGrants(cfg: Config, ch: seq<Granted>, k: nat, locks: seq<string>)
    requires cfg.n >= 2 && Arrivals(cfg, ch) && k <= |ch| == cfg.n && Possible(cfg, Replies(ch, k))
    requires var c := Play(cfg, Replies(ch, k)).0; c.locks == locks && (!c.done || c.quorum)
    ensures Shows(locks, ch[..k])
  {
    RepliesLength(ch, k);
    AnsweredSize(cfg, Replies(ch, k));
    GrantersHaveAnswered(cfg, ch, k);
    forall x: nat | x < cfg.n ensures x in LockedNodes(locks) <==> x in GrantNodes(ch[..k]) {
      SlotsAreGrants(cfg, Replies(ch, k), x);
      GrantersInReplies(ch, k, x);
    }
    assert LockedNodes(locks) == GrantNodes(ch[..k]);
    forall j | 0 <= j < k && IsLocked(ch[j].lockUID)
      ensures ch[j].index < |locks| && locks[ch[j].index] == ch[j].lockUID
    {
      assert ch[..k][j] == ch[j];
      assert ch[j].index in GrantNodes(ch[..k]);
      SlotsAreGrants(cfg, Replies(ch, k), ch[j].index);
      GrantFromReplies(cfg, ch, k, j);
    }
  }

  lemma ReleasesSnoc(cfg: Config, ch: seq<Granted>, j: nat, k: nat)
    requires j <= k < |ch|
    ensures ReleasesOf(cfg, ch[j..k + 1])
         == ReleasesOf(cfg, ch[j..k])
            + (if IsLocked(ch[k].lockUID) then [Token(ch[k].index, cfg.name, cfg.mode, ch[k].lockUID)] else [])
  {
    assert ch[j..k + 1][..k - j] == ch[j..k];
  }

  /** After the verdict each late grant is released as it arrives. */
  lemma DrainReleases(cfg: Config, ch: seq<Granted>, timeoutAt: nat, timed: bool, from: nat, c: State, sent: seq<Token>)
    requires Arrivals(cfg, ch) && from <= |ch| && (timed ==> timeoutAt <= from)
    requires Possible(cfg, Seen(ch, timeoutAt, timed, from))
    requires c.done && c.received == from && Play(cfg, Seen(ch, timeoutAt, timed, from)) == (c, sent)
    ensures Possible(cfg, Seen(ch, timeoutAt, timed, |ch|))
    ensures Play(cfg, Seen(ch, timeoutAt, timed, |ch|))
         == (c.(received := |ch|), sent + ReleasesOf(cfg, ch[from..]))
  {
    ghost var late := [];
    assert c.(received := from) == c && sent + late == sent;
    for i := from to |ch|
      invariant Possible(cfg, Seen(ch, timeoutAt, timed, i))
      invariant late == ReleasesOf(cfg, ch[from..i])
      invariant Play(cfg, Seen(ch, timeoutAt, timed, i)) == (c.(received := i), sent + late)
    {
      DrainNext(cfg, ch, timeoutAt, timed, i, c, sent + late);
      ReleasesSnoc(cfg, ch, from, i);
      if IsLocked(ch[i].lockUID) {
        JoinReleases(sent, late, [Token(ch[i].index, cfg.name, cfg.mode, ch[i].lockUID)]);
        late := late + [Token(ch[i].index, cfg.name, cfg.mode, ch[i].lockUID)];
      }
    }
    assert ch[from..|ch|] == ch[from..];
  }

  lemma JoinReleases(p: seq<Token>, a: seq<Token>, b: seq<Token>)
    ensures (p + a) + b == p + (a + b)
  {
  }

  lemma {:induction false} GrantsAreReleases(cfg: Config, ch: seq<Granted>, k: nat)
    requires k <= |ch|
    ensures Grants(cfg, Replies(ch, k)) == multiset(ReleasesOf(cfg, ch[..k]))
  {
    if k > 0 {
      GrantsAreReleases(cfg, ch, k - 1);
      Snoc(cfg, Replies(ch, k - 1), Reply(ch[k - 1]));
      ReleasesSnoc(cfg, ch, 0, k - 1);
      assert ch[0..k] == ch[..k] && ch[0..k - 1] == ch[..k - 1];
    }
  }

  /** The outcome of a call, from its replies and the moment of its timer. */
  ghost predicate Outcome(cfg: Config, ch: seq<Granted>, t: nat, quorum: bool, locks: seq<string>, sent: seq<Token>)
    requires t <= |ch|
  {
    && (quorum <==> |GrantNodes(ch[..t])| >= cfg.Quorum())
    && (quorum ==> Shows(locks, ch[..t]) && sent == ReleasesOf(cfg, ch[t..]))
    && (!quorum ==> locks == Blank(cfg.n) && multiset(sent) == multiset(ReleasesOf(cfg, ch)))
  }

  /** The timer is taken after t replies, none of them a refusal too many. */
  lemma VerdictAtTimeout(cfg: Config, ch: seq<Granted>, t: nat)
    requires cfg.n >= 2 && Arrivals(cfg, ch) && t < |ch| == cfg.n && !DoneAt(cfg, ch, t)
    ensures Possible(cfg, WithTimeout(ch, t, |ch|))
    ensures var (c, sent) := Play(cfg, WithTimeout(ch, t, |ch|));
      && c.done && (c.quorum <==> |GrantNodes(ch[..t])| >= cfg.Quorum())
      && (c.quorum ==> Shows(c.locks, ch[..t]) && sent == ReleasesOf(cfg, ch[t..]))
  {
    CollectedSoFar(cfg, ch, t);
    TimeoutNext(cfg, ch, t);
    RepliesLength(ch, t);
    PlayOk(cfg, Replies(ch, t));
    AnsweredSize(cfg, Replies(ch, t));
    var c := Play(cfg, Replies(ch, t)).0;
    TimerVerdict(cfg, c, GrantNodes(ch[..t]));
    var (c', sent) := Step(cfg, c, Timeout);
    DrainReleases(cfg, ch, t, true, t, c', [] + sent);
  }

  /** The loop is left by a reply: the last, or a refusal too many. */
  lemma VerdictAtReply(cfg: Config, ch: seq<Granted>, t: nat)
    requires cfg.n >= 2 && Arrivals(cfg, ch) && t <= |ch| == cfg.n && DoneAt(cfg, ch, t)
    ensures Possible(cfg, Replies(ch, |ch|))
    ensures var (c, sent) := Play(cfg, Replies(ch, |ch|));
      && c.done && (c.quorum <==> |GrantNodes(ch[..t])| >= cfg.Quorum())
      && (c.quorum ==> Shows(c.locks, ch[..t]) && sent == ReleasesOf(cfg, ch[t..]))
  {
    CollectedSoFar(cfg, ch, t);
    RepliesLength(ch, t);
    PlayOk(cfg, Replies(ch, t));
    AnsweredSize(cfg, Replies(ch, t));
    var (c, sent) := Play(cfg, Replies(ch, t));
    DrainReleases(cfg, ch, 0, false, t, c, sent);
    if t < |ch| {
      assert |GrantNodes(ch[..t])| < cfg.Quorum();
      assert !c.quorum;
    }
  }

  lemma LostReleasesAll(cfg: Config, ch: seq<Granted>, timeoutAt: nat)
    requires cfg.n >= 2 && Arrivals(cfg, ch)
    ensures Possible(cfg, Script(cfg, ch, timeoutAt))
    ensures var (c, sent) := Play(cfg, Script(cfg, ch, timeoutAt));
      c.done && !c.quorum ==> c.locks == Blank(cfg.n) && multiset(sent) == multiset(ReleasesOf(cfg, ch))
  {
    VerdictAccounts(cfg, ch, timeoutAt);
    GrantsAreReleases(cfg, ch, |ch|);
    TokensLength(cfg, Blank(cfg.n));
    CountBlank(cfg.n);
    assert ch[..|ch|] == ch;
  }

  /** The exact verdict, for every arrival order and every moment of the timer: the call
      wins if and only if the replies that arrived before the timer contain a quorum of
      grants; it then keeps exactly these and releases exactly the later ones; otherwise
      it releases them all. */
  lemma VerdictIsExact(cfg: Config, ch: seq<Granted>, timeoutAt: nat)
    requires cfg.n >= 2 && Arrivals(cfg, ch) && |ch| == cfg.n
    ensures Possible(cfg, Script(cfg, ch, timeoutAt))
    ensures var (c, sent) := Play(cfg, Script(cfg, ch, timeoutAt));
      c.done && Outcome(cfg, ch, InTime(cfg.n, timeoutAt), c.quorum, c.locks, sent)
  {
    var t := InTime(cfg.n, timeoutAt);
    if timeoutAt < |ch| && !DoneAt(cfg, ch, timeoutAt) {
      VerdictAtTimeout(cfg, ch, t);
    } else {
      CollectedSoFar(cfg, ch, t);
      VerdictAtReply(cfg, ch, t);
    }
    LostReleasesAll(cfg, ch, timeoutAt);
  }
}
