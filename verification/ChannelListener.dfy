// The multi-pod inbound channel listener
// (crates/catalerum-api/src/channel_listener.rs): a leader lease per channel, and a
// never-released claim per message.
//
// The model is a transition function on actions, so a run is a list of actions and every
// list is a run: a disabled action changes nothing. A stalled pod is one that takes no
// action for a while; a crashed one forgets its guard without releasing it.

module ChannelListener {
  import opened Collections
  import opened ChannelKeys
  import opened TimedLock

  const LEADER_TTL: nat := 45
  const DISPATCH_CLAIM_TTL: nat := 600

  datatype Message = Message(source: string, id: Option<string>)

  /** Why a message may be dispatched: its claim was won (`n` is the claim's number), it
      has no id, or the lock failed. */
  datatype Via = Won(n: nat) | NoId | FailedOpen

  datatype Pc =
    | Contending
    | Draining(guard: Guard<string>, renewedAt: nat)
    | Dispatching(guard: Guard<string>, renewedAt: nat, msg: Message, via: Via)
    | Leaving(guard: Guard<string>)

  /** One pod's task for one channel. */
  datatype Listener = Listener(workspace: string, channel: string, pc: Pc)

  datatype ClaimRecord = ClaimRecord(who: Ident, at: nat)
  datatype Dispatch = Dispatch(workspace: string, channel: string, msg: Message, via: Via, at: nat)
  datatype Skip = Skip(who: Ident, at: nat)

  datatype State = State(
    now: nat,
    locks: Table<string>,
    nextToken: nat,
    listeners: seq<Listener>,
    claims: seq<ClaimRecord>,
    dispatches: seq<Dispatch>,
    skips: seq<Skip>)

  datatype Action =
    | Wait(seconds: nat)
    | Expire(resource: string)
    | Crash(p: nat)
    | Lead(p: nat)
    | Renew(p: nat)
    | EndStream(p: nat)
    | Release(p: nat)
    | Receive(p: nat, msg: Message, lockError: bool)
    | Deliver(p: nat)

  function Who(l: Listener, msg: Message): Ident
    requires msg.id.Some?
  {
    Ident(l.workspace, l.channel, msg.source, msg.id.value)
  }

  function Moved(s: State, p: nat, pc: Pc): State
    requires p < |s.listeners|
  {
    s.(listeners := s.listeners[p := s.listeners[p].(pc := pc)])
  }

  /** `listen_channel`: one contention for the lease. */
  function Contend(s: State, p: nat): State
    requires p < |s.listeners|
  {
    var l := s.listeners[p];
    var key := LeaderKey(l.workspace, l.channel);
    if Free(s.locks, key, s.now) then
      Moved(s.(locks := Acquired(s.locks, key, s.nextToken, LEADER_TTL, s.now), nextToken := s.nextToken + 1),
            p, Draining(Guard(key, s.nextToken), s.now))
    else s
  }

  /** The renewal tick of `drain_while_leader`. */
  function Renewed(s: State, p: nat): State
    requires p < |s.listeners| && s.listeners[p].pc.Draining?
  {
    var g := s.listeners[p].pc.guard;
    if Owns(s.locks, g) then
      Moved(s.(locks := Refreshed(s.locks, g, LEADER_TTL, s.now)), p, Draining(g, s.now))
    else Moved(s, p, Leaving(g))
  }

  /** `claim_dispatch` on a received message: what the listener goes on to do. */
  function Claimed(s: State, p: nat, msg: Message, lockError: bool): State
    requires p < |s.listeners| && s.listeners[p].pc.Draining?
  {
    var l := s.listeners[p];
    var g, r := l.pc.guard, l.pc.renewedAt;
    if msg.id.None? then Moved(s, p, Dispatching(g, r, msg, NoId))
    else if lockError then Moved(s, p, Dispatching(g, r, msg, FailedOpen))
    else
      var who := Who(l, msg);
      var key := ClaimKey(who);
      if Free(s.locks, key, s.now) then
        Moved(s.(locks := Acquired(s.locks, key, s.nextToken, DISPATCH_CLAIM_TTL, s.now),
                 nextToken := s.nextToken + 1,
                 claims := s.claims + [ClaimRecord(who, s.now)]),
              p, Dispatching(g, r, msg, Won(|s.claims|)))
      else s.(skips := s.skips + [Skip(who, s.now)])
  }

  function Delivered(s: State, p: nat): State
    requires p < |s.listeners| && s.listeners[p].pc.Dispatching?
  {
    var l := s.listeners[p];
    Moved(s.(dispatches := s.dispatches + [Dispatch(l.workspace, l.channel, l.pc.msg, l.pc.via, s.now)]),
          p, Draining(l.pc.guard, l.pc.renewedAt))
  }

  function Apply(s: State, a: Action): State {
    if a.Wait? then s.(now := s.now + a.seconds)
    else if a.Expire? then s.(locks := Purged(s.locks, a.resource, s.now))
    else if a.p >= |s.listeners| then s
    else
      var pc := s.listeners[a.p].pc;
      match a
      case Crash(p) => Moved(s, p, Contending)
      case Lead(p) => if pc.Contending? then Contend(s, p) else s
      case Renew(p) => if pc.Draining? then Renewed(s, p) else s
      case EndStream(p) => if pc.Draining? then Moved(s, p, Leaving(pc.guard)) else s
      case Release(p) =>
        if pc.Leaving? then Moved(s.(locks := Released(s.locks, pc.guard)), p, Contending) else s
      case Receive(p, msg, lockError) => if pc.Draining? then Claimed(s, p, msg, lockError) else s
      case Deliver(p) => if pc.Dispatching? then Delivered(s, p) else s
  }

  function Run(s: State, actions: seq<Action>): State
    decreases |actions|
  {
    if actions == [] then s else Run(Apply(s, actions[0]), actions[1..])
  }

  ghost predicate Init(s: State) {
    && s.locks == map[] && s.claims == [] && s.dispatches == [] && s.skips == []
    && forall p :: 0 <= p < |s.listeners| ==> s.listeners[p].pc == Contending
  }

  // ---------- The invariant ----------

  ghost predicate IsLeaderKey(k: string) { k != "" && k[0] == 'l' }

  predicate Guarded(pc: Pc) { !pc.Contending? }

  predicate Consuming(pc: Pc) { pc.Draining? || pc.Dispatching? }

  predicate Uses(pc: Pc) { pc.Dispatching? && pc.via.Won? }

  /** A listener only ever holds a guard for its own leader key, and never a stranger's. */
  ghost predicate GuardInv(s: State) {
    && (forall p :: 0 <= p < |s.listeners| && Guarded(s.listeners[p].pc) ==> GuardOk(s, s.listeners[p]))
    && (forall p, q :: 0 <= p < q < |s.listeners| ==> Apart(s.listeners[p].pc, s.listeners[q].pc))
    && (forall k :: k in s.locks ==> s.locks[k].token < s.nextToken)
  }

  ghost predicate GuardOk(s: State, l: Listener)
    requires Guarded(l.pc)
  {
    l.pc.guard.resource == LeaderKey(l.workspace, l.channel) && l.pc.guard.token < s.nextToken
  }

  ghost predicate Apart(a: Pc, b: Pc) {
    Guarded(a) && Guarded(b) ==> a.guard.token != b.guard.token
  }

  ghost predicate LiveClaim(c: ClaimRecord, now: nat) { now < c.at + DISPATCH_CLAIM_TTL }

  ghost predicate LockOf(locks: Table<string>, c: ClaimRecord) {
    var k := ClaimKey(c.who);
    k in locks && locks[k].expiresAt == c.at + DISPATCH_CLAIM_TTL
  }

  ghost predicate TtlApart(a: ClaimRecord, b: ClaimRecord) {
    ClaimKey(a.who) == ClaimKey(b.who) ==> b.at >= a.at + DISPATCH_CLAIM_TTL
  }

  /** Nobody but time takes a claim away, and every lock on a claim key is a claim's. */
  ghost predicate ClaimInv(s: State) {
    && (forall i :: 0 <= i < |s.claims| ==> s.claims[i].at <= s.now)
    && (forall i :: 0 <= i < |s.claims| && LiveClaim(s.claims[i], s.now) ==> LockOf(s.locks, s.claims[i]))
    && (forall i, j :: 0 <= i < j < |s.claims| ==> TtlApart(s.claims[i], s.claims[j]))
    && (forall k :: k in s.locks && !IsLeaderKey(k) ==> HasClaim(s, k, s.locks[k].expiresAt))
  }

  ghost predicate HasClaim(s: State, k: string, expiresAt: int) {
    exists c :: c in s.claims && ClaimKey(c.who) == k && expiresAt == c.at + DISPATCH_CLAIM_TTL
  }

  /** A skip happens under a live claim with the same key. */
  ghost predicate SkipInv(s: State) {
    forall x :: x in s.skips ==> Justified(s, x)
  }

  ghost predicate Justified(s: State, x: Skip) {
    exists c :: c in s.claims && ClaimKey(c.who) == ClaimKey(x.who)
                && c.at <= x.at < c.at + DISPATCH_CLAIM_TTL
  }

  /** Each won claim is used at most once, by a listener about to dispatch or a dispatch. */
  ghost predicate UseInv(s: State) {
    && (forall p :: 0 <= p < |s.listeners| ==> ListenerUse(s, s.listeners[p]))
    && (forall d :: 0 <= d < |s.dispatches| ==> DispatchUse(s, s.dispatches[d]))
    && (forall p, q :: 0 <= p < q < |s.listeners| ==> OtherClaim(s.listeners[p].pc, s.listeners[q].pc))
    && (forall p, d :: 0 <= p < |s.listeners| && 0 <= d < |s.dispatches| ==>
          Unspent(s.listeners[p].pc, s.dispatches[d]))
    && (forall d, e :: 0 <= d < e < |s.dispatches| ==> OtherWin(s.dispatches[d], s.dispatches[e]))
  }

  ghost predicate ListenerUse(s: State, l: Listener) {
    && (l.pc.Dispatching? ==> (l.pc.via.NoId? <==> l.pc.msg.id.None?))
    && (Uses(l.pc) ==> l.pc.via.n < |s.claims| && s.claims[l.pc.via.n].who == Who(l, l.pc.msg))
  }

  ghost predicate DispatchUse(s: State, x: Dispatch) {
    && (x.via.NoId? <==> x.msg.id.None?)
    && x.at <= s.now
    && (x.via.Won? ==>
          && x.via.n < |s.claims|
          && s.claims[x.via.n].who == Ident(x.workspace, x.channel, x.msg.source, x.msg.id.value)
          && s.claims[x.via.n].at <= x.at)
  }

  ghost predicate OtherClaim(a: Pc, b: Pc) { Uses(a) && Uses(b) ==> a.via.n != b.via.n }

  ghost predicate Unspent(a: Pc, x: Dispatch) { Uses(a) && x.via.Won? ==> a.via.n != x.via.n }

  ghost predicate OtherWin(x: Dispatch, y: Dispatch) { x.via.Won? && y.via.Won? ==> x.via.n != y.via.n }

  /** A listener within one lease of its last refresh still owns the lease. */
  ghost predicate LeaseInv(s: State) {
    forall p :: 0 <= p < |s.listeners| ==> LeaseOk(s, s.listeners[p].pc)
  }

  ghost predicate LeaseOk(s: State, pc: Pc) {
    Consuming(pc) && s.now < pc.renewedAt + LEADER_TTL ==>
      pc.guard.resource in s.locks
      && s.locks[pc.guard.resource] == Held(pc.guard.token, pc.renewedAt + LEADER_TTL)
  }

  ghost predicate Inv(s: State) {
    GuardInv(s) && ClaimInv(s) && SkipInv(s) && UseInv(s) && LeaseInv(s)
  }

  lemma LeaderKeyIs(workspace: string, channel: string)
    ensures IsLeaderKey(LeaderKey(workspace, channel))
  {
  }

  // ---------- What an action can do ----------

  /** An action moves at most one listener, and that listener keeps its guard, drops it,
      or holds the newest one. */
  ghost predicate OneMoves(s: State, s': State) {
    && |s'.listeners| == |s.listeners|
    && s.nextToken <= s'.nextToken && s.now <= s'.now
    && (s'.listeners == s.listeners
        || exists p :: 0 <= p < |s.listeners| && Move(s, s', p))
  }

  ghost predicate Move(s: State, s': State, p: int)
    requires 0 <= p < |s.listeners|
  {
    var l := s.listeners[p];
    exists pc :: s'.listeners == s.listeners[p := l.(pc := pc)] && MoveOk(s, s', l, pc)
  }

  ghost predicate MoveOk(s: State, s': State, l: Listener, pc: Pc) {
    Guarded(pc) ==>
      || (Guarded(l.pc) && pc.guard == l.pc.guard)
      || (pc.guard == Guard(LeaderKey(l.workspace, l.channel), s.nextToken) && s.nextToken < s'.nextToken)
  }

  lemma ActionMovesOne(s: State, a: Action)
    ensures OneMoves(s, Apply(s, a))
  {
    var s' := Apply(s, a);
    if s'.listeners != s.listeners {
      var l := s.listeners[a.p];
      var pc := s'.listeners[a.p].pc;
      assert s'.listeners == s.listeners[a.p := l.(pc := pc)];
      assert MoveOk(s, s', l, pc);
      assert Move(s, s', a.p);
    }
  }

  lemma ActionKeepsTokens(s: State, a: Action)
    requires GuardInv(s)
    ensures forall k :: k in Apply(s, a).locks ==> Apply(s, a).locks[k].token < Apply(s, a).nextToken
  {
  }

  lemma ApplyKeepsGuards(s: State, a: Action)
    requires GuardInv(s)
    ensures GuardInv(Apply(s, a))
  {
    var s' := Apply(s, a);
    ActionMovesOne(s, a);
    ActionKeepsTokens(s, a);
    if s'.listeners != s.listeners {
      var p :| 0 <= p < |s.listeners| && Move(s, s', p);
      var pc :| s'.listeners == s.listeners[p := s.listeners[p].(pc := pc)] && MoveOk(s, s', s.listeners[p], pc);
      forall q | 0 <= q < |s.listeners| && q != p
        ensures Apart(pc, s.listeners[q].pc) && Apart(s.listeners[q].pc, pc)
      {
        if Guarded(s.listeners[q].pc) {
          assert GuardOk(s, s.listeners[q]);
        }
        if p < q {
          assert Apart(s.listeners[p].pc, s.listeners[q].pc);
        } else {
          assert Apart(s.listeners[q].pc, s.listeners[p].pc);
        }
      }
    }
  }

  /** A claim was won just now, on a key that was free. */
  ghost predicate NewClaim(s: State, s': State, who: Ident) {
    && s'.now == s.now && s'.skips == s.skips
    && s'.claims == s.claims + [ClaimRecord(who, s.now)]
    && Free(s.locks, ClaimKey(who), s.now)
    && s'.locks == s.locks[ClaimKey(who) := Held(s.nextToken, s.now + DISPATCH_CLAIM_TTL)]
  }

  /** No claim was won: unexpired locks on claim keys stay as they are, none appears, and a
      skip is recorded only under such a lock. */
  ghost predicate OldClaims(s: State, s': State) {
    && s'.now >= s.now && s'.claims == s.claims
    && (forall k :: k in s.locks && !IsLeaderKey(k) && s.locks[k].expiresAt > s.now ==>
          k in s'.locks && s'.locks[k] == s.locks[k])
    && (forall k :: k in s'.locks && !IsLeaderKey(k) ==> k in s.locks && s'.locks[k] == s.locks[k])
    && (s'.skips == s.skips
        || exists who :: s'.skips == s.skips + [Skip(who, s.now)] && !Free(s.locks, ClaimKey(who), s.now))
  }

  lemma ActionOnClaims(s: State, a: Action)
    requires GuardInv(s)
    ensures OldClaims(s, Apply(s, a)) || exists who :: NewClaim(s, Apply(s, a), who)
  {
    if !a.Wait? && !a.Expire? && a.p < |s.listeners| {
      var l := s.listeners[a.p];
      LeaderKeyIs(l.workspace, l.channel);
      if a.Receive? && l.pc.Draining? && a.msg.id.Some? && !a.lockError {
        var who := Who(l, a.msg);
        if Free(s.locks, ClaimKey(who), s.now) {
          assert NewClaim(s, Apply(s, a), who);
        }
      } else if Guarded(l.pc) {
        assert GuardOk(s, l);
      }
    }
  }

  lemma NewClaimKeepsClaims(s: State, s': State, who: Ident)
    requires ClaimInv(s) && NewClaim(s, s', who)
    ensures ClaimInv(s')
  {
  }

  lemma OldClaimsKeepsClaims(s: State, s': State)
    requires ClaimInv(s) && OldClaims(s, s')
    ensures ClaimInv(s')
  {
  }

  lemma ApplyKeepsClaims(s: State, a: Action)
    requires GuardInv(s) && ClaimInv(s) && SkipInv(s)
    ensures ClaimInv(Apply(s, a)) && SkipInv(Apply(s, a))
  {
    var s' := Apply(s, a);
    ActionOnClaims(s, a);
    forall x | x in s.skips
      ensures s.claims <= s'.claims ==> Justified(s', x)
    {
      if s.claims <= s'.claims {
      }
    }
    if who :| NewClaim(s, s', who) {
      NewClaimKeepsClaims(s, s', who);
    } else {
      OldClaimsKeepsClaims(s, s');
      if s'.skips != s.skips {
        var who :| s'.skips == s.skips + [Skip(who, s.now)] && !Free(s.locks, ClaimKey(who), s.now);
        var k := ClaimKey(who);
        assert HasClaim(s, k, s.locks[k].expiresAt);
        var c :| c in s.claims && ClaimKey(c.who) == k && s.locks[k].expiresAt == c.at + DISPATCH_CLAIM_TTL;
        assert Justified(s', Skip(who, s.now));
      }
    }
  }

  // ---------- Each claim is used once ----------

  lemma UsesStand(s: State, s': State)
    requires UseInv(s) && s.claims <= s'.claims && s.now <= s'.now
    ensures forall p :: 0 <= p < |s.listeners| ==> ListenerUse(s', s.listeners[p])
    ensures forall d :: 0 <= d < |s.dispatches| ==> DispatchUse(s', s.dispatches[d])
  {
  }

  lemma MoverUses(s: State, a: Action)
    requires UseInv(s) && Apply(s, a).listeners != s.listeners && Apply(s, a).dispatches == s.dispatches
    ensures a.p < |s.listeners|
    ensures var l := s.listeners[a.p].(pc := Apply(s, a).listeners[a.p].pc);
            && Apply(s, a).listeners == s.listeners[a.p := l]
            && ListenerUse(Apply(s, a), l)
            && (Uses(l.pc) ==> l.pc.via.n == |s.claims|)
  {
    assert ListenerUse(s, s.listeners[a.p]);
  }

  lemma ApplyKeepsUses(s: State, a: Action)
    requires UseInv(s) && ClaimInv(s)
    ensures UseInv(Apply(s, a))
  {
    var s' := Apply(s, a);
    UsesStand(s, s');
    if s'.dispatches != s.dispatches {
      DeliverKeepsUses(s, a.p);
    } else if s'.listeners != s.listeners {
      MoverUses(s, a);
      MoveKeepsUses(s, s', a.p, s'.listeners[a.p].pc);
    }
  }

  /** A listener turns to something else: another position, or a claim won just now. */
  lemma MoveKeepsUses(s: State, s': State, p: nat, pc: Pc)
    requires UseInv(s) && p < |s.listeners|
    requires s'.listeners == s.listeners[p := s.listeners[p].(pc := pc)]
    requires s'.dispatches == s.dispatches
    requires forall q :: 0 <= q < |s.listeners| ==> ListenerUse(s', s.listeners[q])
    requires forall d :: 0 <= d < |s.dispatches| ==> DispatchUse(s', s.dispatches[d])
    requires ListenerUse(s', s.listeners[p].(pc := pc))
    requires Uses(pc) ==> pc.via.n == |s.claims|
    ensures UseInv(s')
  {
  }

  lemma DeliverKeepsUses(s: State, p: nat)
    requires UseInv(s) && ClaimInv(s) && p < |s.listeners| && s.listeners[p].pc.Dispatching?
    ensures UseInv(Delivered(s, p))
  {
    var l := s.listeners[p];
    var s' := Delivered(s, p);
    var x := s'.dispatches[|s.dispatches|];
    assert ListenerUse(s, l);
    assert DispatchUse(s', x);
    forall q | 0 <= q < |s.listeners| && q != p
      ensures Unspent(s.listeners[q].pc, x)
    {
      if q < p {
        assert OtherClaim(s.listeners[q].pc, l.pc);
      } else {
        assert OtherClaim(l.pc, s.listeners[q].pc);
      }
    }
    forall d | 0 <= d < |s.dispatches|
      ensures OtherWin(s.dispatches[d], x)
    {
      assert Unspent(l.pc, s.dispatches[d]);
    }
  }

  // ---------- Leases that are still fresh ----------

  /** What an action may do to the lease of a listener that has not refreshed it since. */
  lemma ApplyKeepsLeases(s: State, a: Action)
    requires GuardInv(s) && LeaseInv(s)
    ensures LeaseInv(Apply(s, a))
  {
    var s' := Apply(s, a);
    forall q | 0 <= q < |s.listeners|
      ensures LeaseOk(s', s'.listeners[q].pc)
    {
      LeaseKept(s, a, q);
    }
  }

  lemma LeaseKept(s: State, a: Action, q: nat)
    requires GuardInv(s) && LeaseInv(s) && q < |s.listeners|
    ensures LeaseOk(Apply(s, a), Apply(s, a).listeners[q].pc)
  {
    assert LeaseOk(s, s.listeners[q].pc);
  }

  lemma ApplyKeepsInv(s: State, a: Action)
    requires Inv(s)
    ensures Inv(Apply(s, a))
  {
    ApplyKeepsGuards(s, a);
    ApplyKeepsClaims(s, a);
    ApplyKeepsUses(s, a);
    ApplyKeepsLeases(s, a);
  }

  lemma {:induction false} RunKeepsInv(s: State, actions: seq<Action>)
    requires Inv(s)
    ensures Inv(Run(s, actions))
    decreases |actions|
  {
    if actions != [] {
      ApplyKeepsInv(s, actions[0]);
      RunKeepsInv(Apply(s, actions[0]), actions[1..]);
    }
  }

  lemma InitHasInv(s: State)
    requires Init(s)
    ensures Inv(s)
  {
  }

  // ---------- What every run guarantees ----------

  /** Winning claims on one identity are a claim's lifetime apart, whatever leaders come,
      go, stall or crash in between: no release or refresh ever touches a claim. */
  lemma ClaimsAreTtlApart(s0: State, actions: seq<Action>, i: nat, j: nat)
    requires Init(s0)
    requires i < j < |Run(s0, actions).claims|
    requires Run(s0, actions).claims[i].who == Run(s0, actions).claims[j].who
    ensures Run(s0, actions).claims[j].at >= Run(s0, actions).claims[i].at + DISPATCH_CLAIM_TTL
  {
    InitHasInv(s0);
    RunKeepsInv(s0, actions);
    var s := Run(s0, actions);
    assert TtlApart(s.claims[i], s.claims[j]);
  }

  ghost predicate SameMessage(x: Dispatch, y: Dispatch) {
    x.workspace == y.workspace && x.channel == y.channel && x.msg == y.msg
  }

  /** How long the listener took from winning the claim to dispatching. */
  ghost function Lag(s: State, x: Dispatch): int
    requires x.via.Won? && x.via.n < |s.claims|
  {
    x.at - s.claims[x.via.n].at
  }

  /** Two dispatches of one message, neither of which failed open, are a claim's lifetime
      apart, less the time a stalled pod took between its claim and its dispatch. */
  lemma DispatchesAreTtlApart(s0: State, actions: seq<Action>, d: nat, e: nat, lag: nat)
    requires Init(s0)
    requires d < |Run(s0, actions).dispatches| && e < |Run(s0, actions).dispatches| && d != e
    requires var s := Run(s0, actions);
             SameMessage(s.dispatches[d], s.dispatches[e])
             && s.dispatches[d].via.Won? && s.dispatches[e].via.Won?
    ensures var s := Run(s0, actions);
            var x, y := s.dispatches[d], s.dispatches[e];
            && x.via.n < |s.claims| && y.via.n < |s.claims|
            && (Lag(s, x) <= lag && Lag(s, y) <= lag ==>
                  x.at + DISPATCH_CLAIM_TTL <= y.at + lag || y.at + DISPATCH_CLAIM_TTL <= x.at + lag)
  {
    InitHasInv(s0);
    RunKeepsInv(s0, actions);
    var s := Run(s0, actions);
    var x, y := s.dispatches[d], s.dispatches[e];
    assert DispatchUse(s, x) && DispatchUse(s, y);
    if d < e {
      assert OtherWin(x, y);
    } else {
      assert OtherWin(y, x);
    }
    if x.via.n < y.via.n {
      assert TtlApart(s.claims[x.via.n], s.claims[y.via.n]);
    } else {
      assert TtlApart(s.claims[y.via.n], s.claims[x.via.n]);
    }
  }

  lemma RunStep(s: State, a: Action, actions: seq<Action>)
    requires actions != [] && actions[0] == a
    ensures Run(s, actions) == Run(Apply(s, a), actions[1..])
  {
  }

  /** A pod takes the lease, wins the claim and stalls. */
  lemma Stall(s: State, msg: Message, stall: nat) returns (t: State)
    requires Init(s) && |s.listeners| == 2 && msg.id.Some?
    ensures t == Run(s, [Lead(0), Receive(0, msg, false), Wait(stall)])
    ensures var l, who := s.listeners[0], Who(s.listeners[0], msg);
            && t.now == s.now + stall && t.dispatches == [] && t.claims == [ClaimRecord(who, s.now)]
            && |t.listeners| == 2 && t.listeners[1] == s.listeners[1]
            && t.listeners[0].workspace == l.workspace && t.listeners[0].channel == l.channel
            && t.listeners[0].pc.Dispatching? && t.listeners[0].pc.msg == msg && t.listeners[0].pc.via == Won(0)
            && (forall k :: k in t.locks ==> t.locks[k].expiresAt <= s.now + DISPATCH_CLAIM_TTL)
  {
    var l, who := s.listeners[0], Who(s.listeners[0], msg);
    KeysApart(l.workspace, l.channel, who);
    var actions := [Lead(0), Receive(0, msg, false), Wait(stall)];
    var s1 := Contend(s, 0);
    RunStep(s, Lead(0), actions);
    var s2 := Claimed(s1, 0, msg, false);
    RunStep(s1, Receive(0, msg, false), actions[1..]);
    t := s2.(now := s2.now + stall);
    RunStep(s2, Wait(stall), actions[1..][1..]);
  }

  /** It dispatches, and time passes. */
  lemma Finish(s: State, wait: nat) returns (t: State)
    requires |s.listeners| == 2 && s.dispatches == [] && s.listeners[0].pc.Dispatching?
    ensures t == Run(s, [Deliver(0), Wait(wait)])
    ensures var l := s.listeners[0];
            && t.now == s.now + wait && t.locks == s.locks && t.claims == s.claims
            && t.dispatches == [Dispatch(l.workspace, l.channel, l.pc.msg, l.pc.via, s.now)]
            && |t.listeners| == 2 && t.listeners[1] == s.listeners[1]
  {
    var actions := [Deliver(0), Wait(wait)];
    var s1 := Delivered(s, 0);
    RunStep(s, Deliver(0), actions);
    t := s1.(now := s1.now + wait);
    RunStep(s1, Wait(wait), actions[1..]);
  }

  /** Its successor finds everything free, claims and dispatches at once. */
  lemma Succeed(s: State, msg: Message) returns (t: State)
    requires |s.listeners| == 2 && |s.dispatches| == 1 && |s.claims| == 1 && msg.id.Some?
    requires forall k :: Free(s.locks, k, s.now)
    requires s.listeners[1].pc == Contending
    ensures t == Run(s, [Lead(1), Receive(1, msg, false), Deliver(1)])
    ensures var l := s.listeners[1];
            && t.claims == s.claims + [ClaimRecord(Who(l, msg), s.now)]
            && t.dispatches == s.dispatches + [Dispatch(l.workspace, l.channel, msg, Won(1), s.now)]
  {
    var l, who := s.listeners[1], Who(s.listeners[1], msg);
    KeysApart(l.workspace, l.channel, who);
    var actions := [Lead(1), Receive(1, msg, false), Deliver(1)];
    assert Free(s.locks, LeaderKey(l.workspace, l.channel), s.now) && Free(s.locks, ClaimKey(who), s.now);
    var s1 := Contend(s, 1);
    RunStep(s, Lead(1), actions);
    var s2 := Claimed(s1, 1, msg, false);
    RunStep(s1, Receive(1, msg, false), actions[1..]);
    t := Delivered(s2, 1);
    RunStep(s2, Deliver(1), actions[1..][1..]);
  }

  lemma {:induction false} RunConcat(s: State, a: seq<Action>, b: seq<Action>)
    ensures Run(s, a + b) == Run(Run(s, a), b)
    decreases |a|
  {
    if a == [] {
      assert a + b == b;
    } else {
      assert (a + b)[1..] == a[1..] + b;
      RunConcat(Apply(s, a[0]), a[1..], b);
    }
  }

  /** The bound is met exactly, whatever the stall up to a claim's lifetime: a pod that sleeps so
      long between its claim and its dispatch is followed by its successor's dispatch of the same
      message sooner than a lifetime by just that time - at the same moment, after a full one. */
  lemma StalledPodDispatchesTwice(s0: State, msg: Message, stall: nat) returns (actions: seq<Action>)
    requires Init(s0) && |s0.listeners| == 2 && msg.id.Some? && stall <= DISPATCH_CLAIM_TTL
    requires s0.listeners[0].workspace == s0.listeners[1].workspace
    requires s0.listeners[0].channel == s0.listeners[1].channel
    ensures var s := Run(s0, actions);
            && |s.dispatches| == 2 && |s.claims| == 2
            && SameMessage(s.dispatches[0], s.dispatches[1])
            && s.dispatches[0].via == Won(0) && s.dispatches[1].via == Won(1)
            && Lag(s, s.dispatches[0]) == stall && Lag(s, s.dispatches[1]) == 0
            && s.dispatches[0].at + DISPATCH_CLAIM_TTL == s.dispatches[1].at + stall
  {
    var rest := DISPATCH_CLAIM_TTL - stall;
    var first, second := [Lead(0), Receive(0, msg, false), Wait(stall)], [Deliver(0), Wait(rest)];
    var third := [Lead(1), Receive(1, msg, false), Deliver(1)];
    actions := first + second + third;
    RunConcat(s0, first + second, third);
    RunConcat(s0, first, second);
    var t := Stall(s0, msg, stall);
    var u := Finish(t, rest);
    var v := Succeed(u, msg);
  }

  // ---------- A skipped message was a duplicate ----------

  ghost predicate Plain(who: Ident) { PlainNames(who) && ColonFree(who.id) }

  ghost predicate NamesInv(s: State) {
    && (forall l :: l in s.listeners ==> ColonFree(l.workspace) && ColonFree(l.channel))
    && (forall c :: c in s.claims ==> Plain(c.who))
    && (forall x :: x in s.skips ==> Plain(x.who))
  }

  ghost predicate PlainAction(a: Action) {
    a.Receive? && a.msg.id.Some? ==> ColonFree(a.msg.id.value)
  }

  lemma ApplyKeepsNames(s: State, a: Action)
    requires NamesInv(s) && PlainAction(a)
    ensures NamesInv(Apply(s, a))
  {
    if !a.Wait? && !a.Expire? && a.p < |s.listeners| {
      assert s.listeners[a.p] in s.listeners;
    }
  }

  lemma {:induction false} RunKeepsNames(s: State, actions: seq<Action>)
    requires NamesInv(s) && forall a :: a in actions ==> PlainAction(a)
    ensures NamesInv(Run(s, actions))
    decreases |actions|
  {
    if actions != [] {
      ApplyKeepsNames(s, actions[0]);
      RunKeepsNames(Apply(s, actions[0]), actions[1..]);
    }
  }

  /** With colon-free names and ids no message is ever skipped on another's account: a
      skip has a winning claim on the very same message, less than a lifetime old. */
  lemma SkippedMessageWasClaimed(s0: State, actions: seq<Action>, x: Skip)
    requires Init(s0) && NamesInv(s0) && forall a :: a in actions ==> PlainAction(a)
    requires x in Run(s0, actions).skips
    ensures exists c :: c in Run(s0, actions).claims && c.who == x.who
                        && c.at <= x.at < c.at + DISPATCH_CLAIM_TTL
  {
    InitHasInv(s0);
    RunKeepsInv(s0, actions);
    RunKeepsNames(s0, actions);
    var s := Run(s0, actions);
    assert Justified(s, x);
    var c :| c in s.claims && ClaimKey(c.who) == ClaimKey(x.who) && c.at <= x.at < c.at + DISPATCH_CLAIM_TTL;
    ClaimKeyInjective(c.who, x.who);
  }

  /** Two listeners of one channel are never both within a lease of their last refresh. */
  lemma OneFreshLeader(s0: State, actions: seq<Action>, p: nat, q: nat)
    requires Init(s0)
    requires p < q < |Run(s0, actions).listeners|
    requires var s := Run(s0, actions);
             s.listeners[p].workspace == s.listeners[q].workspace && s.listeners[p].channel == s.listeners[q].channel
    ensures var s := Run(s0, actions);
            var a, b := s.listeners[p].pc, s.listeners[q].pc;
            Consuming(a) && Consuming(b) ==>
              a.renewedAt + LEADER_TTL <= s.now || b.renewedAt + LEADER_TTL <= s.now
  {
    InitHasInv(s0);
    RunKeepsInv(s0, actions);
    var s := Run(s0, actions);
    var a, b := s.listeners[p].pc, s.listeners[q].pc;
    if Consuming(a) && Consuming(b) {
      assert GuardOk(s, s.listeners[p]) && GuardOk(s, s.listeners[q]);
      assert Apart(a, b);
      assert LeaseOk(s, a) && LeaseOk(s, b);
    }
  }

  // ---------- What becomes of a message, and of a lease ----------

  /** A received message is passed on - as it is, and even without an id or with the lock failing -
      unless its claim is taken; only then is it skipped. Only a won claim touches the locks. */
  lemma ReceivedIsPassedOn(s: State, p: nat, msg: Message, lockError: bool)
    requires p < |s.listeners| && s.listeners[p].pc.Draining?
    ensures var l := s.listeners[p];
      var t := Apply(s, Receive(p, msg, lockError));
      var u := Apply(t, Deliver(p));
      var claimed := msg.id.Some? && !lockError && Free(s.locks, ClaimKey(Who(l, msg)), s.now);
      && (msg.id.None? || lockError || claimed ==>
            && u.skips == s.skips && u.listeners == s.listeners && |u.dispatches| == |s.dispatches| + 1
            && u.dispatches[..|s.dispatches|] == s.dispatches
            && var d := u.dispatches[|s.dispatches|];
               d.workspace == l.workspace && d.channel == l.channel && d.msg == msg && d.at == s.now
               && d.via == if msg.id.None? then NoId else if lockError then FailedOpen else Won(|s.claims|))
      && (!(msg.id.None? || lockError || claimed) ==>
            u == t && t == s.(skips := t.skips) && t.skips == s.skips + [Skip(Who(l, msg), s.now)])
      && (!claimed ==> u.locks == s.locks && u.claims == s.claims)
      && (claimed ==> u.claims == s.claims + [ClaimRecord(Who(l, msg), s.now)]
                      && !Free(u.locks, ClaimKey(Who(l, msg)), s.now + DISPATCH_CLAIM_TTL - 1))
  {
    assert s.listeners[p := s.listeners[p]] == s.listeners;
  }

  function InHand(l: Listener): nat {
    if l.pc.Dispatching? then 1 else 0
  }

  function Handling(): Listener -> nat {
    (l: Listener) => InHand(l)
  }

  /** Messages that reached a draining pod over the run, and those a crash took with it. */
  function Received(s: State, actions: seq<Action>): nat
    decreases |actions|
  {
    if actions == [] then 0
    else
      var a := actions[0];
      Received(Apply(s, a), actions[1..]) +
      if a.Receive? && a.p < |s.listeners| && s.listeners[a.p].pc.Draining? then 1 else 0
  }

  function Crashed(s: State, actions: seq<Action>): nat
    decreases |actions|
  {
    if actions == [] then 0
    else
      var a := actions[0];
      Crashed(Apply(s, a), actions[1..]) +
      if a.Crash? && a.p < |s.listeners| && s.listeners[a.p].pc.Dispatching? then 1 else 0
  }

  lemma StepAccounts(s: State, a: Action)
    ensures |Apply(s, a).dispatches| + |Apply(s, a).skips| + Sum(Handling(), Apply(s, a).listeners) + Crashed(s, [a]) ==
            |s.dispatches| + |s.skips| + Sum(Handling(), s.listeners) + Received(s, [a])
  {
    assert [a][1..] == [] && Crashed(Apply(s, a), []) == 0 && Received(Apply(s, a), []) == 0;
    if !a.Wait? && !a.Expire? && a.p < |s.listeners| {
      var t := Apply(s, a);
      if t.listeners != s.listeners {
        assert t.listeners == s.listeners[a.p := t.listeners[a.p]];
        SumUpdate(Handling(), s.listeners, a.p, t.listeners[a.p]);
      }
    }
  }

  /** Over every run, each message received was dispatched, skipped, is being dispatched, or was lost
      with a pod that crashed while dispatching it. */
  lemma {:induction false} EveryMessageIsAccountedFor(s: State, actions: seq<Action>)
    ensures var t := Run(s, actions);
      |t.dispatches| + |t.skips| + Sum(Handling(), t.listeners) + Crashed(s, actions) ==
      |s.dispatches| + |s.skips| + Sum(Handling(), s.listeners) + Received(s, actions)
    decreases |actions|
  {
    if actions != [] {
      StepAccounts(s, actions[0]);
      assert [actions[0]][1..] == [];
      assert Crashed(Apply(s, actions[0]), []) == 0 && Received(Apply(s, actions[0]), []) == 0;
      EveryMessageIsAccountedFor(Apply(s, actions[0]), actions[1..]);
    }
  }

  /** A pod becomes leader exactly when the lease is free; it stays leader at its renewal exactly when
      the lease is still its own, and then for a lease more; leaving gives its lease back at once. */
  lemma LeadershipFollowsTheLease(s: State, p: nat, later: nat)
    requires p < |s.listeners|
    ensures var l := s.listeners[p];
      var key := LeaderKey(l.workspace, l.channel);
      && (l.pc.Contending? ==> var t := Apply(s, Lead(p));
            && (t.listeners[p].pc.Draining? <==> Free(s.locks, key, s.now))
            && (t.listeners[p].pc.Draining? ==>
                  Owns(t.locks, t.listeners[p].pc.guard) && t.listeners[p].pc.guard.resource == key
                  && (Free(t.locks, key, later) <==> s.now + LEADER_TTL <= later)))
      && (l.pc.Draining? ==> var t := Apply(s, Renew(p));
            if Owns(s.locks, l.pc.guard)
            then t.listeners[p].pc.Draining? && t.listeners[p].pc.guard == l.pc.guard
                 && (Free(t.locks, l.pc.guard.resource, later) <==> s.now + LEADER_TTL <= later)
            else t.listeners[p].pc == Leaving(l.pc.guard) && t.locks == s.locks)
      && (l.pc.Draining? ==> Apply(s, EndStream(p)).listeners[p].pc == Leaving(l.pc.guard))
      && (l.pc.Leaving? ==> var t := Apply(s, Release(p));
            && t.listeners[p].pc == Contending
            && (Owns(s.locks, l.pc.guard) ==> Free(t.locks, l.pc.guard.resource, s.now)))
  {
  }

  /** `claim_dispatch` on the in-process lock: proceed exactly when the message has no id, the lock
      call fails, or its claim was free; the winner's claim stays behind. */
  method ClaimDispatch(lock: InProcessLock, workspace: string, channel: string, msg: Message, now: nat, lockError: bool)
    returns (proceed: bool)
    requires lock.Valid()
    modifies lock
    ensures lock.Valid()
    ensures msg.id.None? || lockError ==> proceed && lock.locks == old(lock.locks)
    ensures msg.id.Some? && !lockError ==>
              var key := ClaimKey(Ident(workspace, channel, msg.source, msg.id.value));
              && (proceed <==> Free(old(lock.locks), key, now))
              && lock.locks == Acquired(old(lock.locks), key, old(lock.nextToken), DISPATCH_CLAIM_TTL, now)
              && !Free(lock.locks, key, now)
  {
    if msg.id.None? {
      return true;
    }
    var key := ClaimKey(Ident(workspace, channel, msg.source, msg.id.value));
    if lockError {
      return true;
    }
    var guard := lock.TryAcquire(key, DISPATCH_CLAIM_TTL, now);
    return guard.Some?;
  }
}
