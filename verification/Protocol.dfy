/** The whole system as a transition system: any number of clients sharing any
    number of mutex objects, n lock servers, and the messages between them. An
    action is one atomic step of one party; runs are arbitrary interleavings. */
module Protocol {
  import opened Counting
  import opened Quorum
  import opened UidServer
  import opened Collector
  import opened ClientMutex

  /** A mutex object with the history of its commits and unlocks. */
  datatype Client = Client(mu: Mutex, writeCommits: nat, writeUnlocks: nat, readCommits: nat, readUnlocks: nat)

  /** One call of `lock`: the requests not yet executed, the replies under way (the
      nodes whose grant and whose refusal is travelling), the reply channel in order
      of arrival, and the collector. `closed` once the call has returned, `committed`
      once its vector was stored. */
  datatype Attempt = Attempt(
    client: nat, cfg: Config, uid: string,
    pending: set<nat>, granting: set<nat>, refusing: set<nat>,
    ch: seq<Granted>, col: Collector.State,
    closed: bool, committed: bool)

  /** `releases` and `stray` are the messages under way: releases, and requests
      whose caller has already given up on them. `lost[x]` is history: the UIDs
      whose entries node x has dropped in a crash. */
  datatype Sys = Sys(
    n: nat,
    servers: seq<LockMap>,
    lost: seq<set<string>>,
    clients: seq<Client>,
    attempts: seq<Attempt>,
    releases: multiset<Token>,
    stray: multiset<Token>)

  datatype Action =
    | NewClient(name: string)
    | Begin(client: nat, mode: Mode, uid: string)
    | Serve(attempt: nat, node: nat, now: int)
    | Arrives(attempt: nat, node: nat, lost: bool)
    | Fail(attempt: nat, node: nat, strays: bool)
    | Take(attempt: nat)
    | Expire(attempt: nat)
    | Return(attempt: nat)
    | Commit(attempt: nat)
    | Unlock(client: nat, mode: Mode)
    | ServeRelease(token: Token)
    | LoseRelease(token: Token)
    | ServeStray(token: Token, now: int)
    | LoseStray(token: Token)
    | Crash(node: nat)

  function Init(n: nat): Sys {
    Sys(n, seq(n, _ => map[]), seq(n, _ => {}), [], [], multiset{}, multiset{})
  }

  predicate CanAnswer(s: Sys, i: nat, x: nat) {
    i < |s.attempts| && x in s.attempts[i].pending && x < |s.servers|
  }

  predicate CanArrive(s: Sys, i: nat, x: nat) {
    i < |s.attempts| && x in s.attempts[i].granting + s.attempts[i].refusing
  }

  predicate CanTake(s: Sys, i: nat) {
    && i < |s.attempts|
    && s.attempts[i].ch != []
    && s.attempts[i].col.received < s.n
    && Accepts(s.attempts[i].cfg, s.attempts[i].col, Reply(s.attempts[i].ch[0]))
  }

  predicate CanExpire(s: Sys, i: nat) {
    i < |s.attempts| && !s.attempts[i].col.done && Accepts(s.attempts[i].cfg, s.attempts[i].col, Timeout)
  }

  /** wg.Wait: every RPC has returned and the collector has its verdict. */
  predicate CanReturn(s: Sys, i: nat) {
    && i < |s.attempts| && s.attempts[i].col.done && !s.attempts[i].closed
    && s.attempts[i].pending == s.attempts[i].granting == s.attempts[i].refusing == {}
  }

  predicate CanCommit(s: Sys, i: nat) {
    && i < |s.attempts| && s.attempts[i].client < |s.clients|
    && s.attempts[i].closed && s.attempts[i].col.quorum && !s.attempts[i].committed
  }

  predicate CanUnlockClient(s: Sys, c: nat, mode: Mode) {
    c < |s.clients| && CanUnlock(s.clients[c].mu, mode)
  }

  predicate Enabled(s: Sys, act: Action) {
    match act
    case NewClient(_) => true
    case Begin(c, _, _) => c < |s.clients|
    case Serve(i, x, _) => CanAnswer(s, i, x)
    case Arrives(i, x, _) => CanArrive(s, i, x)
    case Fail(i, x, _) => CanAnswer(s, i, x)
    case Take(i) => CanTake(s, i)
    case Expire(i) => CanExpire(s, i)
    case Return(i) => CanReturn(s, i)
    case Commit(i) => CanCommit(s, i)
    case Unlock(c, mode) => CanUnlockClient(s, c, mode)
    case ServeRelease(t) => t in s.releases && t.node < |s.servers|
    case LoseRelease(t) => t in s.releases
    case ServeStray(t, _) => t in s.stray && t.node < |s.servers|
    case LoseStray(t) => t in s.stray
    case Crash(x) => x < |s.servers| && x < |s.lost|
  }

  function Committed(c: Client, mode: Mode, locks: seq<string>): Client {
    var c1 := c.(mu := Store(c.mu, mode, locks));
    if mode.Read? then c1.(readCommits := c.readCommits + 1) else c1.(writeCommits := c.writeCommits + 1)
  }

  function Unlocked(c: Client, mode: Mode): Client
    requires CanUnlock(c.mu, mode)
  {
    var c1 := c.(mu := TakeOut(c.mu, mode));
    if mode.Read? then c1.(readUnlocks := c.readUnlocks + 1) else c1.(writeUnlocks := c.writeUnlocks + 1)
  }

  /** The request was executed; the reply is under way. */
  function Executed(a: Attempt, x: nat, granted: bool): Attempt {
    if granted then a.(pending := a.pending - {x}, granting := a.granting + {x})
    else a.(pending := a.pending - {x}, refusing := a.refusing + {x})
  }

  /** The RPC of node x has returned: its reply, or the error that stands for one, is
      put into the channel. */
  function Returned(a: Attempt, x: nat, granted: bool): Attempt {
    a.(pending := a.pending - {x}, granting := a.granting - {x}, refusing := a.refusing - {x},
       ch := a.ch + [Granted(x, if granted then a.uid else "")])
  }

  function Uids(m: LockMap): set<string> {
    set r, i | r in m && 0 <= i < |m[r]| :: m[r][i].uid
  }

  function Join(s: Sys, name: string): Sys {
    s.(clients := s.clients + [Client(NewMutex(s.n, name), 0, 0, 0, 0)])
  }

  function BeginAttempt(s: Sys, c: nat, mode: Mode, uid: string): Sys
    requires c < |s.clients|
  {
    var cfg := Config(s.n, mode, s.clients[c].mu.name);
    s.(attempts := s.attempts + [Attempt(c, cfg, uid, Nodes(s.n), {}, {}, [], Start(cfg), false, false)])
  }

  /** The server executes the request; the reply goes under way. */
  function ServeRequest(s: Sys, i: nat, x: nat, now: int): Sys
    requires CanAnswer(s, i, x)
  {
    var a := s.attempts[i];
    var (m, granted) := Acquire(s.servers[x], a.cfg.mode, a.cfg.name, a.uid, now);
    s.(servers := s.servers[x := m], attempts := s.attempts[i := Executed(a, x, granted)])
  }

  /** Any one of the replies under way arrives, or the RPC ends with an error instead. */
  function ReplyArrives(s: Sys, i: nat, x: nat, lost: bool): Sys
    requires CanArrive(s, i, x)
  {
    var a := s.attempts[i];
    s.(attempts := s.attempts[i := Returned(a, x, x in a.granting && !lost)])
  }

  /** The RPC returns an error before it was executed; the request may still be under way. */
  function FailRequest(s: Sys, i: nat, x: nat, strays: bool): Sys
    requires CanAnswer(s, i, x)
  {
    var a := s.attempts[i];
    s.(attempts := s.attempts[i := Returned(a, x, false)],
       stray := if strays then s.stray + multiset{Token(x, a.cfg.name, a.cfg.mode, a.uid)} else s.stray)
  }

  /** The collector takes the next reply, before or after its verdict. */
  function TakeReply(s: Sys, i: nat): Sys
    requires CanTake(s, i)
  {
    var a := s.attempts[i];
    var (col, sent) := Step(a.cfg, a.col, Reply(a.ch[0]));
    s.(attempts := s.attempts[i := a.(ch := a.ch[1..], col := col)], releases := s.releases + multiset(sent))
  }

  function TimerFires(s: Sys, i: nat): Sys
    requires CanExpire(s, i)
  {
    var a := s.attempts[i];
    var (col, sent) := Step(a.cfg, a.col, Timeout);
    s.(attempts := s.attempts[i := a.(col := col)], releases := s.releases + multiset(sent))
  }

  function ReturnFrom(s: Sys, i: nat): Sys
    requires CanReturn(s, i)
  {
    s.(attempts := s.attempts[i := s.attempts[i].(closed := true)])
  }

  function CommitVector(s: Sys, i: nat): Sys
    requires CanCommit(s, i)
  {
    var a := s.attempts[i];
    s.(attempts := s.attempts[i := a.(committed := true)],
       clients := s.clients[a.client := Committed(s.clients[a.client], a.cfg.mode, a.col.locks)])
  }

  function UnlockClient(s: Sys, c: nat, mode: Mode): Sys
    requires CanUnlockClient(s, c, mode)
  {
    var mu := s.clients[c].mu;
    s.(clients := s.clients[c := Unlocked(s.clients[c], mode)],
       releases := s.releases + multiset(Tokens(Config(s.n, mode, mu.name), Oldest(mu, mode))))
  }

  function DeliverRelease(s: Sys, t: Token): Sys
    requires t.node < |s.servers|
  {
    s.(servers := s.servers[t.node := Release(s.servers[t.node], t.mode, t.name, t.uid).0],
       releases := s.releases - multiset{t})
  }

  function DeliverStray(s: Sys, t: Token, now: int): Sys
    requires t.node < |s.servers|
  {
    s.(servers := s.servers[t.node := Acquire(s.servers[t.node], t.mode, t.name, t.uid, now).0],
       stray := s.stray - multiset{t})
  }

  function CrashNode(s: Sys, x: nat): Sys
    requires x < |s.servers| && x < |s.lost|
  {
    s.(servers := s.servers[x := map[]], lost := s.lost[x := s.lost[x] + Uids(s.servers[x])])
  }

  function Apply(s: Sys, act: Action): Sys
    requires Enabled(s, act)
  {
    match act
    case NewClient(name) => Join(s, name)
    case Begin(c, mode, uid) => BeginAttempt(s, c, mode, uid)
    case Serve(i, x, now) => ServeRequest(s, i, x, now)
    case Arrives(i, x, lost) => ReplyArrives(s, i, x, lost)
    case Fail(i, x, strays) => FailRequest(s, i, x, strays)
    case Take(i) => TakeReply(s, i)
    case Expire(i) => TimerFires(s, i)
    case Return(i) => ReturnFrom(s, i)
    case Commit(i) => CommitVector(s, i)
    case Unlock(c, mode) => UnlockClient(s, c, mode)
    case ServeRelease(t) => DeliverRelease(s, t)
    case LoseRelease(t) => s.(releases := s.releases - multiset{t})
    case ServeStray(t, now) => DeliverStray(s, t, now)
    case LoseStray(t) => s.(stray := s.stray - multiset{t})
    case Crash(x) => CrashNode(s, x)
  }

  predicate CanRun(s: Sys, acts: seq<Action>)
    decreases |acts|
  {
    acts == [] || (Enabled(s, acts[0]) && CanRun(Apply(s, acts[0]), acts[1..]))
  }

  function After(s: Sys, acts: seq<Action>): Sys
    requires CanRun(s, acts)
    decreases |acts|
  {
    if acts == [] then s else After(Apply(s, acts[0]), acts[1..])
  }

  lemma {:induction false} RunsCompose(s: Sys, p: seq<Action>, q: seq<Action>)
    requires CanRun(s, p) && CanRun(After(s, p), q)
    ensures CanRun(s, p + q) && After(s, p + q) == After(After(s, p), q)
    decreases |p|
  {
    if p == [] {
      assert p + q == q;
    } else {
      assert (p + q)[0] == p[0] && (p + q)[1..] == p[1..] + q;
      RunsCompose(Apply(s, p[0]), p[1..], q);
    }
  }

  lemma RunOne(s: Sys, act: Action)
    requires Enabled(s, act)
    ensures CanRun(s, [act]) && After(s, [act]) == Apply(s, act)
  {
    assert [act][1..] == [];
  }

  /** No node loses its map. */
  predicate CrashFree(acts: seq<Action>) {
    forall k :: 0 <= k < |acts| ==> !acts[k].Crash?
  }

  /** The RPC works: executed, answered, and the answer arrives. */
  predicate Clean(act: Action) {
    !act.Fail? && !act.LoseRelease? && !act.ServeStray? && !act.Crash? && !(act.Arrives? && act.lost)
  }

  predicate AllClean(acts: seq<Action>) {
    forall k :: 0 <= k < |acts| ==> Clean(acts[k])
  }
}
