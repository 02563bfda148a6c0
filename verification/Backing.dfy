/** The invariant behind the lock: every grant a client still counts on, and every
    release still under way, is backed by an entry of its own at the server. It is
    kept by every action, with UIDs shared or not. */
module Backing {
  import opened Counting
  import opened Quorum
  import opened UidServer
  import opened Collector
  import opened ClientMutex
  import opened Protocol

  // ---------------------------------------------------------------- shape

  /** The nodes whose RPC has not returned yet. */
  function Out(a: Attempt): set<nat> {
    a.pending + a.granting + a.refusing
  }

  /** Every RPC is still out, or has its reply in the channel, or was taken by the
      collector: the numbers add up to n, and no node is counted twice. */
  predicate ChannelOk(a: Attempt) {
    && a.pending !! a.granting && a.pending !! a.refusing && a.granting !! a.refusing
    && |Out(a)| + |a.ch| + a.col.received == a.cfg.n
    && RepliesOk(a.cfg.n, a.uid, Out(a), a.ch)
  }

  predicate RepliesOk(n: nat, uid: string, out: set<nat>, ch: seq<Granted>) {
    && out <= Nodes(n)
    && (forall k :: 0 <= k < |ch| ==> ch[k].index < n && ch[k].index !in out && ch[k].lockUID in {"", uid})
    && (forall j, k :: 0 <= j < k < |ch| ==> ch[j].index != ch[k].index)
  }

  /** Slots are filled only from replies already taken. */
  predicate SlotsOk(a: Attempt) {
    && |a.col.locks| == a.cfg.n
    && (forall x :: 0 <= x < |a.col.locks| ==> a.col.locks[x] in {"", a.uid})
    && (!a.col.done ==> forall x: nat :: x in Out(a) && x < |a.col.locks| ==> a.col.locks[x] == "")
    && (!a.col.done ==>
          forall k :: 0 <= k < |a.ch| && a.ch[k].index < |a.col.locks| ==> a.col.locks[a.ch[k].index] == "")
  }

  predicate AttemptOk(n: nat, clients: seq<Client>, a: Attempt) {
    && a.client < |clients|
    && a.cfg.n == n && a.cfg.name == clients[a.client].mu.name
    && Ok(a.cfg, a.col)
    && ChannelOk(a)
    && SlotsOk(a)
    && (a.closed ==> Out(a) == {} && a.col.done)
    && (a.committed ==> a.closed && a.col.quorum)
  }

  /** The write vector is empty or a quorum, every queued vector is a quorum. */
  predicate ClientOk(n: nat, c: Client) {
    && Shaped(n, c.mu)
    && (CountLocked(c.mu.writeLocks) == 0 || CountLocked(c.mu.writeLocks) >= WriteQuorum(n))
    && (forall k :: 0 <= k < |c.mu.readersLocks| ==> CountLocked(c.mu.readersLocks[k]) >= ReadQuorum(n))
    && c.readCommits == c.readUnlocks + |c.mu.readersLocks|
  }

  ghost predicate Shape(s: Sys) {
    && s.n >= 2
    && |s.servers| == s.n == |s.lost|
    && (forall x :: 0 <= x < s.n ==> WellFormed(s.servers[x]))
    && (forall c :: 0 <= c < |s.clients| ==> ClientOk(s.n, s.clients[c]))
    && (forall i :: 0 <= i < |s.attempts| ==> AttemptOk(s.n, s.clients, s.attempts[i]))
    && (forall t :: t in s.releases ==> t.node < s.n && IsLocked(t.uid))
    && (forall t :: t in s.stray ==> t.node < s.n)
  }

  // ---------------------------------------------------------------- grants held

  /** Is this the grant that node x gives the attempt? */
  function Hit(a: Attempt, x: nat, t: Token): nat {
    if t == Token(x, a.cfg.name, a.cfg.mode, a.uid) then 1 else 0
  }

  function AttemptShare(a: Attempt, t: Token): nat {
    (if IsLocked(t.uid) && t.node in a.granting then Hit(a, t.node, t) else 0)
    + (if t.name == a.cfg.name && t.mode == a.cfg.mode && IsLocked(t.uid)
     then multiset(a.ch)[Granted(t.node, t.uid)] else 0)
    + (if a.committed then 0 else SlotCount(a.cfg, a.col.locks, t))
  }

  function VectorShare(name: string, mode: Mode, locks: seq<string>, t: Token): nat {
    SlotCount(Config(|locks|, mode, name), locks, t)
  }

  function OfVector(name: string, t: Token): seq<string> -> nat {
    (locks: seq<string>) => VectorShare(name, Read, locks, t)
  }

  function ClientShare(c: Client, t: Token): nat {
    VectorShare(c.mu.name, Write, c.mu.writeLocks, t) + Sum(c.mu.readersLocks, OfVector(c.mu.name, t))
  }

  function OfAttempt(t: Token): Attempt -> nat {
    (a: Attempt) => AttemptShare(a, t)
  }

  function OfClient(t: Token): Client -> nat {
    (c: Client) => ClientShare(c, t)
  }

  /** How often a grant is counted on: in a reply under way, in a channel, in an
      attempt's vector, in a mutex object, or in a release under way. */
  function Held(s: Sys, t: Token): nat {
    s.releases[t] + Sum(s.attempts, OfAttempt(t)) + Sum(s.clients, OfClient(t))
  }

  function Entries(s: Sys, t: Token): nat {
    if t.node < |s.servers| then EntryCount(s.servers[t.node], t.name, t.mode, t.uid) else 0
  }

  /** Tokens the invariant speaks about: real grants not dropped by a crash. */
  predicate Tracked(s: Sys, t: Token) {
    t.node < s.n && t.node < |s.lost| && IsLocked(t.uid) && t.uid !in s.lost[t.node]
  }

  ghost predicate Backed(s: Sys) {
    forall t :: Tracked(s, t) ==> Entries(s, t) >= Held(s, t)
  }

  ghost predicate Inv(s: Sys) {
    Shape(s) && Backed(s)
  }

  // ---------------------------------------------------------------- shape is kept

  lemma ExecutedOk(n: nat, clients: seq<Client>, a: Attempt, x: nat, granted: bool)
    requires AttemptOk(n, clients, a) && x in a.pending
    ensures AttemptOk(n, clients, Executed(a, x, granted))
  {
    OutExecuted(a, x, granted);
  }

  lemma OutExecuted(a: Attempt, x: nat, granted: bool)
    requires x in a.pending && ChannelOk(a) && SlotsOk(a)
    ensures var a' := Executed(a, x, granted);
      Out(a') == Out(a) && ChannelOk(a') && SlotsOk(a')
  {
    assert Out(Executed(a, x, granted)) == Out(a);
  }

  /** A reply, or an error, enters the channel; by ChannelOk it finds room there. */
  lemma ReturnedOk(n: nat, clients: seq<Client>, a: Attempt, x: nat, granted: bool)
    requires AttemptOk(n, clients, a) && x in Out(a)
    ensures AttemptOk(n, clients, Returned(a, x, granted))
  {
    OutReturned(a, x, granted);
    ReturnedChannelOk(a, x, granted);
    ReturnedSlotsOk(a, x, granted);
  }

  lemma OutReturned(a: Attempt, x: nat, granted: bool)
    ensures Out(Returned(a, x, granted)) == Out(a) - {x}
  {
  }

  lemma ReturnedChannelOk(a: Attempt, x: nat, granted: bool)
    requires ChannelOk(a) && x in Out(a)
    ensures ChannelOk(Returned(a, x, granted))
  {
    OutReturned(a, x, granted);
    RepliesReturned(a.cfg.n, a.uid, Out(a), a.ch, Granted(x, if granted then a.uid else ""));
  }

  lemma RepliesReturned(n: nat, uid: string, out: set<nat>, ch: seq<Granted>, g: Granted)
    requires RepliesOk(n, uid, out, ch) && g.index in out && g.lockUID in {"", uid}
    ensures RepliesOk(n, uid, out - {g.index}, ch + [g])
  {
  }

  lemma ReturnedSlotsOk(a: Attempt, x: nat, granted: bool)
    requires SlotsOk(a) && x in Out(a)
    ensures SlotsOk(Returned(a, x, granted))
  {
    var a' := Returned(a, x, granted);
    assert Out(a') <= Out(a);
    assert forall k :: 0 <= k < |a'.ch| ==> (k < |a.ch| && a'.ch[k] == a.ch[k]) || a'.ch[k].index == x;
  }

  lemma TakeOk(n: nat, clients: seq<Client>, a: Attempt)
    requires n >= 2 && AttemptOk(n, clients, a) && a.ch != []
    ensures Expected(a.cfg, a.col, Reply(a.ch[0]))
    ensures AttemptOk(n, clients, a.(ch := a.ch[1..], col := Step(a.cfg, a.col, Reply(a.ch[0])).0))
  {
    var ev := Reply(a.ch[0]);
    StepOk(a.cfg, a.col, ev);
    var a' := a.(ch := a.ch[1..], col := Step(a.cfg, a.col, ev).0);
    assert forall k :: 0 <= k < |a'.ch| ==> a'.ch[k] == a.ch[k + 1];
    StepValues(a.cfg, a.col, ev);
    assert ChannelOk(a');
  }

  lemma ExpireOk(n: nat, clients: seq<Client>, a: Attempt)
    requires n >= 2 && AttemptOk(n, clients, a) && !a.col.done
    ensures AttemptOk(n, clients, a.(col := Step(a.cfg, a.col, Timeout).0))
  {
    StepOk(a.cfg, a.col, Timeout);
    StepValues(a.cfg, a.col, Timeout);
  }

  /** A step changes at most the answered slot, or blanks them all and is done. */
  lemma StepValues(cfg: Config, c: Collector.State, ev: Event)
    requires Accepts(cfg, c, ev)
    ensures var c' := Step(cfg, c, ev).0;
      && |c'.locks| == cfg.n
      && (forall x :: 0 <= x < cfg.n ==>
            || c'.locks[x] == c.locks[x]
            || c'.locks[x] == ""
            || (ev.Reply? && x == ev.grant.index && c'.locks[x] == ev.grant.lockUID))
      && (!c'.done ==>
            && !c.done
            && forall x :: 0 <= x < cfg.n && !(ev.Reply? && x == ev.grant.index) ==> c'.locks[x] == c.locks[x])
  {
  }

  lemma StoreOk(n: nat, c: Client, a: Attempt, clients: seq<Client>)
    requires n >= 2 && ClientOk(n, c) && AttemptOk(n, clients, a) && a.col.quorum
    ensures ClientOk(n, Committed(c, a.cfg.mode, a.col.locks))
  {
    assert a.col.done && QuorumMet(a.cfg, a.col.locks);
  }

  lemma UnlockedOk(n: nat, c: Client, mode: Mode)
    requires ClientOk(n, c) && CanUnlock(c.mu, mode)
    ensures ClientOk(n, Unlocked(c, mode))
  {
    CountBlank(n);
  }

  lemma TokensOk(cfg: Config, locks: seq<string>)
    requires |locks| <= cfg.n
    ensures forall t :: t in multiset(Tokens(cfg, locks)) ==> t.node < cfg.n && IsLocked(t.uid)
  {
    forall t | t in multiset(Tokens(cfg, locks)) ensures t.node < cfg.n && IsLocked(t.uid) {
      TokensAreSlots(cfg, locks, t);
    }
  }

  lemma AttemptShapeKept(s: Sys, i: nat, a: Attempt, s': Sys)
    requires Shape(s) && i < |s.attempts| && AttemptOk(s.n, s.clients, a)
    requires s'.n == s.n && s'.servers == s.servers && s'.lost == s.lost && s'.clients == s.clients
    requires s'.attempts == s.attempts[i := a]
    requires forall t :: t in s'.releases ==> t.node < s.n && IsLocked(t.uid)
    requires forall t :: t in s'.stray ==> t.node < s.n
    ensures Shape(s')
  {
  }

  lemma ClientShapeKept(s: Sys, c: nat, cl: Client)
    requires Shape(s) && c < |s.clients| && ClientOk(s.n, cl) && cl.mu.name == s.clients[c].mu.name
    ensures Shape(s.(clients := s.clients[c := cl]))
  {
    var clients' := s.clients[c := cl];
    forall i | 0 <= i < |s.attempts| ensures AttemptOk(s.n, clients', s.attempts[i]) {
      assert AttemptOk(s.n, s.clients, s.attempts[i]);
    }
  }

  lemma ShapeOfJoin(s: Sys, name: string)
    requires Shape(s)
    ensures Shape(Join(s, name))
  {
    var s' := Join(s, name);
    CountBlank(s.n);
    forall i | 0 <= i < |s.attempts| ensures AttemptOk(s.n, s'.clients, s.attempts[i]) {
      assert AttemptOk(s.n, s.clients, s.attempts[i]);
    }
  }

  lemma ShapeOfBegin(s: Sys, c: nat, mode: Mode, uid: string)
    requires Shape(s) && c < |s.clients|
    ensures Shape(BeginAttempt(s, c, mode, uid))
  {
    var a := BeginAttempt(s, c, mode, uid).attempts[|s.attempts|];
    StartOk(a.cfg);
    NodesSize(s.n);
    assert AttemptOk(s.n, s.clients, a);
  }

  lemma ShapeOfServe(s: Sys, i: nat, x: nat, now: int)
    requires Shape(s) && CanAnswer(s, i, x)
    ensures Shape(ServeRequest(s, i, x, now))
  {
    var a := s.attempts[i];
    assert AttemptOk(s.n, s.clients, a);
    var (m, granted) := Acquire(s.servers[x], a.cfg.mode, a.cfg.name, a.uid, now);
    AcquireEffect(s.servers[x], a.cfg.mode, a.cfg.name, a.uid, now);
    ShapeOfServers(s, x, m);
    ExecutedOk(s.n, s.clients, a, x, granted);
    AttemptShapeKept(s.(servers := s.servers[x := m]), i, Executed(a, x, granted), ServeRequest(s, i, x, now));
  }

  lemma ShapeOfArrives(s: Sys, i: nat, x: nat, lost: bool)
    requires Shape(s) && CanArrive(s, i, x)
    ensures Shape(ReplyArrives(s, i, x, lost))
  {
    var a := s.attempts[i];
    assert AttemptOk(s.n, s.clients, a);
    ReturnedOk(s.n, s.clients, a, x, x in a.granting && !lost);
    AttemptShapeKept(s, i, Returned(a, x, x in a.granting && !lost), ReplyArrives(s, i, x, lost));
  }

  lemma ShapeOfFail(s: Sys, i: nat, x: nat, strays: bool)
    requires Shape(s) && CanAnswer(s, i, x)
    ensures Shape(FailRequest(s, i, x, strays))
  {
    var a := s.attempts[i];
    assert AttemptOk(s.n, s.clients, a);
    ReturnedOk(s.n, s.clients, a, x, false);
    AttemptShapeKept(s, i, Returned(a, x, false), FailRequest(s, i, x, strays));
  }

  lemma ShapeOfTake(s: Sys, i: nat)
    requires Shape(s) && CanTake(s, i)
    ensures Shape(TakeReply(s, i))
  {
    var a := s.attempts[i];
    assert AttemptOk(s.n, s.clients, a);
    TakeOk(s.n, s.clients, a);
    StepSends(a.cfg, a.col, Reply(a.ch[0]));
    AttemptShapeKept(s, i, TakeReply(s, i).attempts[i], TakeReply(s, i));
  }

  lemma ShapeOfExpire(s: Sys, i: nat)
    requires Shape(s) && CanExpire(s, i)
    ensures Shape(TimerFires(s, i))
  {
    var a := s.attempts[i];
    assert AttemptOk(s.n, s.clients, a);
    ExpireOk(s.n, s.clients, a);
    StepSends(a.cfg, a.col, Timeout);
    AttemptShapeKept(s, i, TimerFires(s, i).attempts[i], TimerFires(s, i));
  }

  lemma ShapeOfReturn(s: Sys, i: nat)
    requires Shape(s) && CanReturn(s, i)
    ensures Shape(ReturnFrom(s, i))
  {
    assert AttemptOk(s.n, s.clients, s.attempts[i]);
  }

  lemma StepSends(cfg: Config, c: Collector.State, ev: Event)
    requires Accepts(cfg, c, ev)
    ensures forall t :: t in multiset(Step(cfg, c, ev).1) ==> t.node < cfg.n && IsLocked(t.uid)
  {
    TokensOk(cfg, c.locks);
  }

  lemma ShapeOfCommit(s: Sys, i: nat)
    requires Shape(s) && CanCommit(s, i)
    ensures Shape(CommitVector(s, i))
  {
    var a := s.attempts[i];
    assert AttemptOk(s.n, s.clients, a);
    var s1 := s.(attempts := s.attempts[i := a.(committed := true)]);
    AttemptShapeKept(s, i, a.(committed := true), s1);
    StoreOk(s.n, s.clients[a.client], a, s.clients);
    ClientShapeKept(s1, a.client, Committed(s.clients[a.client], a.cfg.mode, a.col.locks));
  }

  lemma ShapeOfUnlock(s: Sys, c: nat, mode: Mode)
    requires Shape(s) && CanUnlockClient(s, c, mode)
    ensures Shape(UnlockClient(s, c, mode))
  {
    var cl := s.clients[c];
    UnlockedOk(s.n, cl, mode);
    ClientShapeKept(s, c, Unlocked(cl, mode));
    TokensOk(Config(s.n, mode, cl.mu.name), Oldest(cl.mu, mode));
  }

  lemma ShapeOfServers(s: Sys, x: nat, m: LockMap)
    requires Shape(s) && x < |s.servers| && WellFormed(m)
    ensures Shape(s.(servers := s.servers[x := m]))
  {
  }

  lemma ShapeOfMessages(s: Sys, releases: multiset<Token>, stray: multiset<Token>, lost: seq<set<string>>)
    requires Shape(s) && releases <= s.releases && stray <= s.stray && |lost| == |s.lost|
    ensures Shape(s.(releases := releases, stray := stray, lost := lost))
  {
  }

  lemma ShapeOfMessage(s: Sys, act: Action)
    requires Shape(s) && Enabled(s, act)
    requires act.ServeRelease? || act.LoseRelease? || act.ServeStray? || act.LoseStray? || act.Crash?
    ensures Shape(Apply(s, act))
  {
    match act
    case ServeRelease(t) =>
      var m := Release(s.servers[t.node], t.mode, t.name, t.uid).0;
      ReleaseEffect(s.servers[t.node], t.mode, t.name, t.uid);
      ShapeOfServers(s, t.node, m);
      ShapeOfMessages(s.(servers := s.servers[t.node := m]), s.releases - multiset{t}, s.stray, s.lost);
    case ServeStray(t, now) =>
      var m := Acquire(s.servers[t.node], t.mode, t.name, t.uid, now).0;
      AcquireEffect(s.servers[t.node], t.mode, t.name, t.uid, now);
      ShapeOfServers(s, t.node, m);
      ShapeOfMessages(s.(servers := s.servers[t.node := m]), s.releases, s.stray - multiset{t}, s.lost);
    case LoseRelease(t) => ShapeOfMessages(s, s.releases - multiset{t}, s.stray, s.lost);
    case LoseStray(t) => ShapeOfMessages(s, s.releases, s.stray - multiset{t}, s.lost);
    case Crash(x) =>
      ShapeOfServers(s, x, map[]);
      ShapeOfMessages(s.(servers := s.servers[x := map[]]), s.releases, s.stray, CrashNode(s, x).lost);
  }

  lemma ShapeKept(s: Sys, act: Action)
    requires Shape(s) && Enabled(s, act)
    ensures Shape(Apply(s, act))
  {
    match act
    case NewClient(name) => ShapeOfJoin(s, name);
    case Begin(c, mode, uid) => ShapeOfBegin(s, c, mode, uid);
    case Serve(i, x, now) => ShapeOfServe(s, i, x, now);
    case Arrives(i, x, lost) => ShapeOfArrives(s, i, x, lost);
    case Fail(i, x, strays) => ShapeOfFail(s, i, x, strays);
    case Take(i) => ShapeOfTake(s, i);
    case Expire(i) => ShapeOfExpire(s, i);
    case Return(i) => ShapeOfReturn(s, i);
    case Commit(i) => ShapeOfCommit(s, i);
    case Unlock(c, mode) => ShapeOfUnlock(s, c, mode);
    case ServeRelease(_) => ShapeOfMessage(s, act);
    case LoseRelease(_) => ShapeOfMessage(s, act);
    case ServeStray(_, _) => ShapeOfMessage(s, act);
    case LoseStray(_) => ShapeOfMessage(s, act);
    case Crash(_) => ShapeOfMessage(s, act);
  }

  // ---------------------------------------------------------------- backing is kept

  lemma HeldAfterAttempt(s: Sys, i: nat, a: Attempt, releases: multiset<Token>, t: Token)
    requires i < |s.attempts|
    ensures Held(s.(attempts := s.attempts[i := a], releases := releases), t)
         == Held(s, t) - AttemptShare(s.attempts[i], t) + AttemptShare(a, t) - s.releases[t] + releases[t]
  {
    SumUpdate(s.attempts, i, a, OfAttempt(t));
  }

  lemma HeldAfterClient(s: Sys, c: nat, cl: Client, releases: multiset<Token>, t: Token)
    requires c < |s.clients|
    ensures Held(s.(clients := s.clients[c := cl], releases := releases), t)
         == Held(s, t) - ClientShare(s.clients[c], t) + ClientShare(cl, t) - s.releases[t] + releases[t]
  {
    SumUpdate(s.clients, c, cl, OfClient(t));
  }

  /** What an action leaves over: entries that no grant counts on. */
  function Slack(s: Sys, t: Token): int {
    Entries(s, t) - Held(s, t)
  }

  lemma SlackOfJoin(s: Sys, name: string, t: Token)
    requires IsLocked(t.uid)
    ensures Slack(Join(s, name), t) == Slack(s, t)
  {
    var c := Client(NewMutex(s.n, name), 0, 0, 0, 0);
    SumAppend(s.clients, c, OfClient(t));
    assert ClientShare(c, t) == 0;
  }

  lemma SlackOfBegin(s: Sys, c: nat, mode: Mode, uid: string, t: Token)
    requires c < |s.clients| && IsLocked(t.uid)
    ensures Slack(BeginAttempt(s, c, mode, uid), t) == Slack(s, t)
  {
    var a := BeginAttempt(s, c, mode, uid).attempts[|s.attempts|];
    SumAppend(s.attempts, a, OfAttempt(t));
    assert AttemptShare(a, t) == 0;
  }

  lemma ShareOfExecuted(a: Attempt, x: nat, granted: bool, t: Token)
    requires IsLocked(t.uid) && x !in a.granting
    ensures AttemptShare(Executed(a, x, granted), t) == AttemptShare(a, t) + (if granted then Hit(a, x, t) else 0)
  {
  }

  /** An arrival moves a grant from the wire to the channel; an error drops it. */
  lemma ShareOfReturned(a: Attempt, x: nat, granted: bool, t: Token)
    requires IsLocked(t.uid)
    ensures AttemptShare(Returned(a, x, granted), t)
         == AttemptShare(a, t) + (if granted then Hit(a, x, t) else 0) - (if x in a.granting then Hit(a, x, t) else 0)
  {
    var g := Granted(x, if granted then a.uid else "");
    assert multiset(a.ch + [g]) == multiset(a.ch) + multiset{g};
  }

  lemma EntriesAfter(s: Sys, x: nat, m: LockMap, t: Token)
    requires x < |s.servers|
    ensures Entries(s.(servers := s.servers[x := m]), t)
         == if t.node == x then EntryCount(m, t.name, t.mode, t.uid) else Entries(s, t)
  {
  }

  lemma SlackOfServe(s: Sys, i: nat, x: nat, now: int, t: Token)
    requires Shape(s) && CanAnswer(s, i, x) && IsLocked(t.uid)
    ensures Slack(ServeRequest(s, i, x, now), t) == Slack(s, t)
  {
    var a := s.attempts[i];
    assert AttemptOk(s.n, s.clients, a);
    var (m, granted) := Acquire(s.servers[x], a.cfg.mode, a.cfg.name, a.uid, now);
    var a' := Executed(a, x, granted);
    AcquireCounts(s.servers[x], a.cfg.mode, a.cfg.name, a.uid, now, t.name, t.mode, t.uid);
    EntriesAfter(s, x, m, t);
    ShareOfExecuted(a, x, granted, t);
    HeldAfterAttempt(s, i, a', s.releases, t);
    assert Held(ServeRequest(s, i, x, now), t) == Held(s.(attempts := s.attempts[i := a']), t);
  }

  lemma SlackOfArrives(s: Sys, i: nat, x: nat, lost: bool, t: Token)
    requires CanArrive(s, i, x) && IsLocked(t.uid)
    ensures Slack(ReplyArrives(s, i, x, lost), t) >= Slack(s, t)
    ensures !lost ==> Slack(ReplyArrives(s, i, x, lost), t) == Slack(s, t)
  {
    var a := s.attempts[i];
    var granted := x in a.granting && !lost;
    ShareOfReturned(a, x, granted, t);
    HeldAfterAttempt(s, i, Returned(a, x, granted), s.releases, t);
  }

  lemma SlackOfFail(s: Sys, i: nat, x: nat, strays: bool, t: Token)
    requires Shape(s) && CanAnswer(s, i, x) && IsLocked(t.uid)
    ensures Slack(FailRequest(s, i, x, strays), t) == Slack(s, t)
  {
    var a := s.attempts[i];
    assert AttemptOk(s.n, s.clients, a);
    var a' := Returned(a, x, false);
    ShareOfReturned(a, x, false, t);
    HeldAfterAttempt(s, i, a', s.releases, t);
    assert Held(FailRequest(s, i, x, strays), t) == Held(s.(attempts := s.attempts[i := a']), t);
  }

  lemma ShareOfTake(a: Attempt, t: Token)
    requires Ok(a.cfg, a.col) && a.ch != [] && Expected(a.cfg, a.col, Reply(a.ch[0]))
    requires IsLocked(t.uid) && (a.committed ==> a.col.done)
    ensures var (col, sent) := Step(a.cfg, a.col, Reply(a.ch[0]));
      AttemptShare(a.(ch := a.ch[1..], col := col), t) + multiset(sent)[t] == AttemptShare(a, t)
  {
    var g := a.ch[0];
    StepAccounts(a.cfg, a.col, Reply(g), t);
    assert a.ch == [g] + a.ch[1..];
    assert multiset(a.ch) == multiset{g} + multiset(a.ch[1..]);
  }

  lemma SlackOfTake(s: Sys, i: nat, t: Token)
    requires Shape(s) && CanTake(s, i) && IsLocked(t.uid)
    ensures Slack(TakeReply(s, i), t) == Slack(s, t)
  {
    var a := s.attempts[i];
    assert AttemptOk(s.n, s.clients, a);
    TakeOk(s.n, s.clients, a);
    ShareOfTake(a, t);
    HeldAfterAttempt(s, i, TakeReply(s, i).attempts[i], TakeReply(s, i).releases, t);
  }

  lemma ShareOfExpire(a: Attempt, t: Token)
    requires Ok(a.cfg, a.col) && !a.committed
    ensures var (col, sent) := Step(a.cfg, a.col, Timeout);
      AttemptShare(a.(col := col), t) + multiset(sent)[t] == AttemptShare(a, t)
  {
    StepAccounts(a.cfg, a.col, Timeout, t);
  }

  lemma SlackOfExpire(s: Sys, i: nat, t: Token)
    requires Shape(s) && CanExpire(s, i) && IsLocked(t.uid)
    ensures Slack(TimerFires(s, i), t) == Slack(s, t)
  {
    var a := s.attempts[i];
    assert AttemptOk(s.n, s.clients, a);
    ShareOfExpire(a, t);
    HeldAfterAttempt(s, i, TimerFires(s, i).attempts[i], TimerFires(s, i).releases, t);
  }

  lemma SlackOfReturn(s: Sys, i: nat, t: Token)
    requires CanReturn(s, i)
    ensures Slack(ReturnFrom(s, i), t) == Slack(s, t)
  {
    HeldAfterAttempt(s, i, ReturnFrom(s, i).attempts[i], s.releases, t);
  }

  lemma ShareOfStore(c: Client, mode: Mode, locks: seq<string>, t: Token)
    ensures ClientShare(Committed(c, mode, locks), t)
         == ClientShare(c, t) + VectorShare(c.mu.name, mode, locks, t)
            - (if mode.Write? then VectorShare(c.mu.name, Write, c.mu.writeLocks, t) else 0)
  {
    SumAppend(c.mu.readersLocks, locks, OfVector(c.mu.name, t));
  }

  lemma ShareOfUnlock(c: Client, mode: Mode, t: Token)
    requires CanUnlock(c.mu, mode)
    ensures ClientShare(Unlocked(c, mode), t) == ClientShare(c, t) - VectorShare(c.mu.name, mode, Oldest(c.mu, mode), t)
  {
    if mode.Read? {
      SumTail(c.mu.readersLocks, OfVector(c.mu.name, t));
    }
  }

  /** A write vector still in place when another one is stored over it. */
  predicate Overwrites(s: Sys, act: Action)
    requires Enabled(s, act)
  {
    act.Commit? && s.attempts[act.attempt].cfg.mode.Write?
    && CountLocked(s.clients[s.attempts[act.attempt].client].mu.writeLocks) > 0
  }

  lemma SlackOfCommit(s: Sys, i: nat, t: Token)
    requires Shape(s) && CanCommit(s, i) && IsLocked(t.uid)
    ensures Slack(CommitVector(s, i), t) >= Slack(s, t)
    ensures s.attempts[i].cfg.mode.Read? || CountLocked(s.clients[s.attempts[i].client].mu.writeLocks) == 0 ==>
      Slack(CommitVector(s, i), t) == Slack(s, t)
  {
    var a := s.attempts[i];
    assert AttemptOk(s.n, s.clients, a);
    var c := s.clients[a.client];
    var a', c' := a.(committed := true), Committed(c, a.cfg.mode, a.col.locks);
    var s1 := s.(attempts := s.attempts[i := a']);
    HeldAfterAttempt(s, i, a', s.releases, t);
    HeldAfterClient(s1, a.client, c', s.releases, t);
    ShareOfStore(c, a.cfg.mode, a.col.locks, t);
    CountZero(c.mu.writeLocks);
  }

  lemma SlackOfUnlock(s: Sys, c: nat, mode: Mode, t: Token)
    requires Shape(s) && CanUnlockClient(s, c, mode)
    ensures Slack(UnlockClient(s, c, mode), t) == Slack(s, t)
  {
    var cl := s.clients[c];
    HeldAfterClient(s, c, Unlocked(cl, mode), UnlockClient(s, c, mode).releases, t);
    ShareOfUnlock(cl, mode, t);
    TokensAreSlots(Config(s.n, mode, cl.mu.name), Oldest(cl.mu, mode), t);
  }

  /** A release under way finds its entry, so serving it takes one off both sides. */
  lemma SlackOfRelease(s: Sys, u: Token, t: Token)
    requires Inv(s) && u in s.releases && u.node < |s.servers| && Tracked(s, t)
    ensures Slack(DeliverRelease(s, u), t) == Slack(s, t)
  {
    var m := Release(s.servers[u.node], u.mode, u.name, u.uid).0;
    ReleaseCounts(s.servers[u.node], u.mode, u.name, u.uid, t.name, t.mode, t.uid);
    EntriesAfter(s, u.node, m, t);
    assert Entries(s, t) >= Held(s, t) >= s.releases[t];
  }

  lemma SlackOfStray(s: Sys, u: Token, now: int, t: Token)
    requires u.node < |s.servers|
    ensures Slack(DeliverStray(s, u, now), t) >= Slack(s, t)
  {
    var m := Acquire(s.servers[u.node], u.mode, u.name, u.uid, now).0;
    AcquireCounts(s.servers[u.node], u.mode, u.name, u.uid, now, t.name, t.mode, t.uid);
    EntriesAfter(s, u.node, m, t);
  }

  /** A crash drops entries only of UIDs that are no longer tracked at that node. */
  lemma SlackOfCrash(s: Sys, x: nat, t: Token)
    requires x < |s.servers| && x < |s.lost| && Tracked(CrashNode(s, x), t)
    ensures Tracked(s, t)
    ensures Slack(CrashNode(s, x), t) == Slack(s, t)
  {
    EntriesAfter(s, x, map[], t);
    if t.node == x && t.name in s.servers[x] {
      CountPositive(s.servers[x][t.name], t.mode, t.uid);
      assert Entries(s, t) == 0;
    }
  }

  /** The heart of the matter: no action ever reduces the slack of a tracked token,
      and an action on which no RPC fails leaves it unchanged, unless it stores a
      write vector over one that is still held. */
  lemma SlackNeverShrinks(s: Sys, act: Action, t: Token)
    requires Inv(s) && Enabled(s, act) && Tracked(Apply(s, act), t)
    ensures Tracked(s, t)
    ensures Slack(Apply(s, act), t) >= Slack(s, t)
    ensures Clean(act) && !Overwrites(s, act) ==> Slack(Apply(s, act), t) == Slack(s, t)
  {
    match act
    case NewClient(name) => SlackOfJoin(s, name, t);
    case Begin(c, mode, uid) => SlackOfBegin(s, c, mode, uid, t);
    case Serve(i, x, now) => SlackOfServe(s, i, x, now, t);
    case Arrives(i, x, lost) => SlackOfArrives(s, i, x, lost, t);
    case Fail(i, x, strays) => SlackOfFail(s, i, x, strays, t);
    case Take(i) => SlackOfTake(s, i, t);
    case Expire(i) => SlackOfExpire(s, i, t);
    case Return(i) => SlackOfReturn(s, i, t);
    case Commit(i) => SlackOfCommit(s, i, t);
    case Unlock(c, mode) => SlackOfUnlock(s, c, mode, t);
    case ServeRelease(u) => SlackOfRelease(s, u, t);
    case LoseRelease(u) =>
    case ServeStray(u, now) => SlackOfStray(s, u, now, t);
    case LoseStray(u) =>
    case Crash(x) => SlackOfCrash(s, x, t);
  }

  lemma InvKept(s: Sys, act: Action)
    requires Inv(s) && Enabled(s, act)
    ensures Inv(Apply(s, act))
  {
    ShapeKept(s, act);
    var s' := Apply(s, act);
    forall t | Tracked(s', t) ensures Entries(s', t) >= Held(s', t) {
      SlackNeverShrinks(s, act, t);
    }
  }

  lemma InitInv(n: nat)
    requires n >= 2
    ensures Inv(Init(n))
  {
  }

  /** In every reachable state, of every run with any failures and any crashes,
      grants and releases of entries not dropped by a crash are backed. */
  lemma {:induction false} RunKeepsInv(s: Sys, acts: seq<Action>)
    requires Inv(s) && CanRun(s, acts)
    ensures Inv(After(s, acts))
    ensures After(s, acts).n == s.n
    decreases |acts|
  {
    if acts != [] {
      InvKept(s, acts[0]);
      RunKeepsInv(Apply(s, acts[0]), acts[1..]);
    }
  }

  // ---------------------------------------------------------------- entries over time

  /** A request adds an entry under its own UID, or none. */
  lemma EntriesOfServe(s: Sys, i: nat, x: nat, now: int, t: Token)
    requires CanAnswer(s, i, x)
    ensures Entries(ServeRequest(s, i, x, now), t) >= Entries(s, t)
    ensures !(t.node == x && t.name == s.attempts[i].cfg.name && t.uid == s.attempts[i].uid) ==>
      Entries(ServeRequest(s, i, x, now), t) == Entries(s, t)
  {
    var a := s.attempts[i];
    AcquireCounts(s.servers[x], a.cfg.mode, a.cfg.name, a.uid, now, t.name, t.mode, t.uid);
    EntriesAfter(s, x, Acquire(s.servers[x], a.cfg.mode, a.cfg.name, a.uid, now).0, t);
  }

  lemma EntriesOfStray(s: Sys, u: Token, now: int, t: Token)
    requires u.node < |s.servers|
    ensures Entries(DeliverStray(s, u, now), t) >= Entries(s, t)
  {
    AcquireCounts(s.servers[u.node], u.mode, u.name, u.uid, now, t.name, t.mode, t.uid);
    EntriesAfter(s, u.node, Acquire(s.servers[u.node], u.mode, u.name, u.uid, now).0, t);
  }

  /** A release takes away an entry under its own UID, or none. */
  lemma EntriesOfRelease(s: Sys, u: Token, t: Token)
    requires Shape(s) && u.node < |s.servers|
    ensures Entries(DeliverRelease(s, u), t) <= Entries(s, t)
    ensures u.uid != t.uid ==> Entries(DeliverRelease(s, u), t) == Entries(s, t)
  {
    ReleaseCounts(s.servers[u.node], u.mode, u.name, u.uid, t.name, t.mode, t.uid);
    EntriesAfter(s, u.node, Release(s.servers[u.node], u.mode, u.name, u.uid).0, t);
  }

  // ---------------------------------------------------------------- attempts over time

  /** How an attempt changes in one action. */
  predicate AttemptMoved(s: Sys, act: Action, a: Attempt, a': Attempt) {
    || a' == a
    || a' == a.(closed := true)
    || a' == a.(committed := true)
    || (act.Fail? && act.node in a.pending && a' == Returned(a, act.node, false))
    || (act.Arrives? && a' == Returned(a, act.node, act.node in a.granting && !act.lost))
    || (act.Serve? && act.node < |s.servers|
        && a' == Executed(a, act.node, Acquire(s.servers[act.node], a.cfg.mode, a.cfg.name, a.uid, act.now).1))
    || (a.ch != [] && Accepts(a.cfg, a.col, Reply(a.ch[0]))
        && a' == a.(ch := a.ch[1..], col := Step(a.cfg, a.col, Reply(a.ch[0])).0))
    || (Accepts(a.cfg, a.col, Timeout) && a' == a.(col := Step(a.cfg, a.col, Timeout).0))
  }

  /** Only these four actions touch a lock map. */
  lemma ServersStay(s: Sys, act: Action)
    requires Enabled(s, act) && !act.Serve? && !act.ServeStray? && !act.ServeRelease? && !act.Crash?
    ensures Apply(s, act).servers == s.servers
  {
  }

  lemma AttemptStepsOn(s: Sys, act: Action, b: nat)
    requires Enabled(s, act) && b < |s.attempts|
    ensures b < |Apply(s, act).attempts| && AttemptMoved(s, act, s.attempts[b], Apply(s, act).attempts[b])
    ensures var a, a' := s.attempts[b], Apply(s, act).attempts[b];
      a'.cfg == a.cfg && a'.uid == a.uid && a'.client == a.client && a'.pending <= a.pending
  {
  }

  /** The verdict of an attempt and its vector are final. */
  lemma VerdictStays(s: Sys, act: Action, a: Attempt, a': Attempt)
    requires AttemptMoved(s, act, a, a') && a.col.done
    ensures a'.col == a.col.(received := a'.col.received)
  {
  }

  // ---------------------------------------------------------------- runs without crash

  ghost predicate NothingLost(s: Sys) {
    forall x :: 0 <= x < |s.lost| ==> s.lost[x] == {}
  }

  lemma {:induction false} CrashFreeLosesNothing(s: Sys, acts: seq<Action>)
    requires NothingLost(s) && CanRun(s, acts) && CrashFree(acts)
    ensures NothingLost(After(s, acts))
    decreases |acts|
  {
    if acts != [] {
      assert !acts[0].Crash?;
      CrashFreeLosesNothing(Apply(s, acts[0]), acts[1..]);
    }
  }

  /** The backing invariant without exceptions, for runs in which no node loses its map. */
  lemma EveryGrantIsBacked(n: nat, acts: seq<Action>, t: Token)
    requires n >= 2 && CanRun(Init(n), acts) && CrashFree(acts)
    requires t.node < n && IsLocked(t.uid)
    ensures Entries(After(Init(n), acts), t) >= Held(After(Init(n), acts), t)
  {
    InitInv(n);
    RunKeepsInv(Init(n), acts);
    CrashFreeLosesNothing(Init(n), acts);
    assert Tracked(After(Init(n), acts), t);
  }
}
