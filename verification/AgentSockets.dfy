// The socket handlers of desktop agents over the registry's live map
// (crates/catalerum-api/src/routes/computer_agents.rs, computer_registry.rs).

module AgentSockets {
  import opened Collections

  /** A handler waits on the close handle of the connection it registered last, until it ends. */
  datatype Socket = Socket(agent: nat, conn: Option<nat>, ended: bool)

  /** Connections are numbered in the order they were registered; `told` is their close handles. */
  datatype State = State(sockets: seq<Socket>, told: seq<bool>, live: map<nat, nat>)

  datatype Action =
    | Open(agent: nat)
    | Hello(k: nat) // registers a connection in place of the agent's live one
    | SeeClose(k: nat) // the handler finds its close handle notified
    | Lose(k: nat) // the socket closes, or the handler gives up, for any other reason
    | Revoke(agent: nat)

  /** Notifying a handle again changes nothing. */
  function Tell(s: State, agent: nat): seq<bool> {
    if agent in s.live && s.live[agent] < |s.told| then s.told[s.live[agent] := true] else s.told
  }

  function Disconnected(s: State, agent: nat): State {
    s.(told := Tell(s, agent), live := s.live - {agent})
  }

  function Connected(s: State, k: nat): State
    requires k < |s.sockets|
  {
    var agent, c := s.sockets[k].agent, |s.told|;
    State(s.sockets[k := s.sockets[k].(conn := Some(c))], Tell(s, agent) + [false], s.live[agent := c])
  }

  /** However a handler ends, it disconnects its agent on the way out. */
  function Ended(s: State, k: nat): State
    requires k < |s.sockets|
  {
    Disconnected(s.(sockets := s.sockets[k := s.sockets[k].(ended := true)]), s.sockets[k].agent)
  }

  predicate IsTold(s: State, k: nat)
    requires k < |s.sockets|
  {
    s.sockets[k].conn.Some? && s.sockets[k].conn.value < |s.told| && s.told[s.sockets[k].conn.value]
  }

  function Apply(s: State, a: Action): State {
    match a
    case Open(agent) => s.(sockets := s.sockets + [Socket(agent, None, false)])
    case Hello(k) => if k < |s.sockets| && !s.sockets[k].ended then Connected(s, k) else s
    case SeeClose(k) => if k < |s.sockets| && !s.sockets[k].ended && IsTold(s, k) then Ended(s, k) else s
    case Lose(k) => if k < |s.sockets| && !s.sockets[k].ended then Ended(s, k) else s
    case Revoke(agent) => Disconnected(s, agent)
  }

  function Run(s: State, actions: seq<Action>): State
    decreases |actions|
  {
    if actions == [] then s else Run(Apply(s, actions[0]), actions[1..])
  }

  predicate Init(s: State) {
    s == State([], [], map[])
  }

  // ---------- Invariant ----------

  /** An open handler's connection is live or its handle has been notified. */
  predicate SocketOk(s: State, k: nat)
    requires k < |s.sockets|
  {
    var socket := s.sockets[k];
    socket.conn.Some? ==>
      && socket.conn.value < |s.told|
      && (!socket.ended ==> IsTold(s, k) || (socket.agent in s.live && s.live[socket.agent] == socket.conn.value))
  }

  ghost predicate Inv(s: State) {
    && (forall a :: a in s.live ==> s.live[a] < |s.told|)
    && (forall a, b :: a in s.live && b in s.live && s.live[a] == s.live[b] ==> a == b)
    && (forall k :: 0 <= k < |s.sockets| ==> SocketOk(s, k))
  }

  lemma DisconnectKeepsInv(s: State, agent: nat)
    requires Inv(s)
    ensures Inv(Disconnected(s, agent))
  {
    var t := Disconnected(s, agent);
    forall k | 0 <= k < |t.sockets| ensures SocketOk(t, k) {
      assert SocketOk(s, k);
    }
  }

  lemma EndKeepsInv(s: State, k: nat)
    requires Inv(s) && k < |s.sockets|
    ensures Inv(Ended(s, k))
  {
    var t := s.(sockets := s.sockets[k := s.sockets[k].(ended := true)]);
    forall i | 0 <= i < |t.sockets| ensures SocketOk(t, i) {
      assert SocketOk(s, i);
    }
    DisconnectKeepsInv(t, s.sockets[k].agent);
  }

  lemma ConnectKeepsInv(s: State, k: nat)
    requires Inv(s) && k < |s.sockets|
    ensures Inv(Connected(s, k))
  {
    var t := Connected(s, k);
    forall i | 0 <= i < |t.sockets| ensures SocketOk(t, i) {
      assert SocketOk(s, i);
    }
  }

  lemma StepKeepsInv(s: State, a: Action)
    requires Inv(s)
    ensures Inv(Apply(s, a))
  {
    match a
    case Open(agent) =>
      forall k | 0 <= k < |Apply(s, a).sockets| ensures SocketOk(Apply(s, a), k) {
        assert k < |s.sockets| ==> SocketOk(s, k);
      }
    case Hello(k) => if k < |s.sockets| { ConnectKeepsInv(s, k); }
    case SeeClose(k) => if k < |s.sockets| { EndKeepsInv(s, k); }
    case Lose(k) => if k < |s.sockets| { EndKeepsInv(s, k); }
    case Revoke(agent) => DisconnectKeepsInv(s, agent);
  }

  lemma {:induction false} RunKeepsInv(s: State, actions: seq<Action>)
    requires Inv(s)
    ensures Inv(Run(s, actions))
    decreases |actions|
  {
    if actions != [] {
      StepKeepsInv(s, actions[0]);
      RunKeepsInv(Apply(s, actions[0]), actions[1..]);
    }
  }

  // ---------- A reconnect over an open socket ----------

  /** No handler is left that has been told to close. */
  predicate Settled(s: State) {
    forall k :: 0 <= k < |s.sockets| && !s.sockets[k].ended ==> !IsTold(s, k)
  }

  predicate Serves(s: State, k: nat, agent: nat) {
    k < |s.sockets| && s.sockets[k].agent == agent && !s.sockets[k].ended && s.sockets[k].conn.Some?
  }

  /** A step that registers a connection of the agent. */
  predicate Greets(s: State, a: Action, agent: nat) {
    a.Hello? && a.k < |s.sockets| && s.sockets[a.k].agent == agent
  }

  predicate NoGreeting(s: State, actions: seq<Action>, agent: nat)
    decreases |actions|
  {
    actions == [] || (!Greets(s, actions[0], agent) && NoGreeting(Apply(s, actions[0]), actions[1..], agent))
  }

  /** Socket `k` was replaced by socket `j`, which registered connection `c`: `k` is told to close,
      and once it has ended the agent is offline and `j` is told as well. */
  ghost predicate Replaced(s: State, k: nat, j: nat, c: nat) {
    && k < |s.sockets| && j < |s.sockets| && s.sockets[k].agent == s.sockets[j].agent
    && IsTold(s, k) && s.sockets[j].conn == Some(c) && c < |s.told|
    && (s.sockets[j].agent in s.live ==> s.live[s.sockets[j].agent] == c && !s.sockets[k].ended)
    && (s.sockets[j].agent !in s.live ==> s.told[c])
  }

  lemma ReplacedStays(s: State, a: Action, k: nat, j: nat, c: nat)
    requires Inv(s) && Replaced(s, k, j, c) && !Greets(s, a, s.sockets[j].agent)
    ensures Replaced(Apply(s, a), k, j, c) && Apply(s, a).sockets[j].agent == s.sockets[j].agent
  {
  }

  lemma {:induction false} ReplacedStaysForRun(s: State, actions: seq<Action>, k: nat, j: nat, c: nat)
    requires Inv(s) && Replaced(s, k, j, c) && NoGreeting(s, actions, s.sockets[j].agent)
    ensures Replaced(Run(s, actions), k, j, c) && Run(s, actions).sockets[j].agent == s.sockets[j].agent
    decreases |actions|
  {
    if actions != [] {
      StepKeepsInv(s, actions[0]);
      ReplacedStays(s, actions[0], k, j, c);
      ReplacedStaysForRun(Apply(s, actions[0]), actions[1..], k, j, c);
    }
  }

  /** In every run: a socket that says hello while another of the agent's sockets serves it takes the
      agent offline again. Once the replaced handler has ended the agent is offline until a later
      hello, and once all handlers that were told have ended, the new socket is gone too. */
  lemma ReconnectEndsOffline(s0: State, before: seq<Action>, k: nat, j: nat, actions: seq<Action>)
    requires Init(s0)
    requires var s := Run(s0, before);
      && j < |s.sockets| && !s.sockets[j].ended && k != j && Serves(s, k, s.sockets[j].agent)
      && NoGreeting(Apply(s, Hello(j)), actions, s.sockets[j].agent)
    ensures var agent, t := Run(s0, before).sockets[j].agent, Run(Apply(Run(s0, before), Hello(j)), actions);
      && k < |t.sockets| && j < |t.sockets|
      && (t.sockets[k].ended ==> agent !in t.live)
      && (Settled(t) ==> agent !in t.live && t.sockets[k].ended && t.sockets[j].ended)
  {
    var s := Run(s0, before);
    RunKeepsInv(s0, before);
    assert SocketOk(s, k);
    StepKeepsInv(s, Hello(j));
    ReplacedStaysForRun(Apply(s, Hello(j)), actions, k, j, |s.told|);
  }

  /** As it goes: an agent connects, and connects again while its first socket is still open. The first
      handler sees it was replaced, ends, and takes the new connection with it. */
  lemma ReconnectRun(agent: nat)
    ensures var s := State([], [], map[]);
      && Init(s)
      && Run(s, [Open(agent), Hello(0)]).live == map[agent := 0]
      && Run(s, [Open(agent), Hello(0), Open(agent), Hello(1)]).live == map[agent := 1]
      && var t := Run(s, [Open(agent), Hello(0), Open(agent), Hello(1), SeeClose(0), SeeClose(1)]);
         t.live == map[] && t.sockets == [Socket(agent, Some(0), true), Socket(agent, Some(1), true)]
  {
    var s0 := State([], [], map[]);
    var s2 := Apply(Apply(s0, Open(agent)), Hello(0));
    var s4 := Apply(Apply(s2, Open(agent)), Hello(1));
    var s6 := Apply(Apply(s4, SeeClose(0)), SeeClose(1));
    assert s2 == State([Socket(agent, Some(0), false)], [false], map[agent := 0]);
    assert s4 == State([Socket(agent, Some(0), false), Socket(agent, Some(1), false)], [true, false], map[agent := 1]);
    RunTwo(s0, Open(agent), Hello(0), []);
    RunTwo(s0, Open(agent), Hello(0), [Open(agent), Hello(1)]);
    RunTwo(s2, Open(agent), Hello(1), []);
    RunTwo(s0, Open(agent), Hello(0), [Open(agent), Hello(1), SeeClose(0), SeeClose(1)]);
    RunTwo(s2, Open(agent), Hello(1), [SeeClose(0), SeeClose(1)]);
    RunTwo(s4, SeeClose(0), SeeClose(1), []);
    assert [Open(agent), Hello(0)] + [] == [Open(agent), Hello(0)];
    assert [Open(agent), Hello(1)] + [] == [Open(agent), Hello(1)];
    assert [SeeClose(0), SeeClose(1)] + [] == [SeeClose(0), SeeClose(1)];
    assert [Open(agent), Hello(0)] + [Open(agent), Hello(1)] == [Open(agent), Hello(0), Open(agent), Hello(1)];
    assert [Open(agent), Hello(0)] + [Open(agent), Hello(1), SeeClose(0), SeeClose(1)] ==
           [Open(agent), Hello(0), Open(agent), Hello(1), SeeClose(0), SeeClose(1)];
    assert [Open(agent), Hello(1)] + [SeeClose(0), SeeClose(1)] == [Open(agent), Hello(1), SeeClose(0), SeeClose(1)];
  }

  lemma RunTwo(s: State, a: Action, b: Action, rest: seq<Action>)
    ensures Run(s, [a, b] + rest) == Run(Apply(Apply(s, a), b), rest)
  {
    assert ([a, b] + rest)[1..] == [b] + rest && ([b] + rest)[1..] == rest;
    assert Run(Apply(s, a), [b] + rest) == Run(Apply(Apply(s, a), b), rest);
  }

  // ---------- When a hello lasts ----------

  /** A step that takes the agent's connection away, or replaces it, from outside its handlers. */
  predicate Disturbs(s: State, a: Action, agent: nat) {
    match a
    case Open(_) => false
    case Hello(k) => k < |s.sockets| && s.sockets[k].agent == agent
    case SeeClose(_) => false
    case Lose(k) => k < |s.sockets| && s.sockets[k].agent == agent
    case Revoke(b) => b == agent
  }

  predicate Undisturbed(s: State, actions: seq<Action>, agent: nat)
    decreases |actions|
  {
    actions == [] || (!Disturbs(s, actions[0], agent) && Undisturbed(Apply(s, actions[0]), actions[1..], agent))
  }

  /** Socket `j` alone serves its agent. */
  ghost predicate Alone(s: State, j: nat) {
    && j < |s.sockets| && Serves(s, j, s.sockets[j].agent) && !IsTold(s, j)
    && s.sockets[j].agent in s.live && Some(s.live[s.sockets[j].agent]) == s.sockets[j].conn
    && forall k :: k != j ==> !Serves(s, k, s.sockets[j].agent)
  }

  lemma AloneStays(s: State, a: Action, j: nat)
    requires Inv(s) && Alone(s, j) && !Disturbs(s, a, s.sockets[j].agent)
    ensures Alone(Apply(s, a), j) && Apply(s, a).sockets[j].agent == s.sockets[j].agent
  {
    var agent := s.sockets[j].agent;
    forall k | k != j ensures !Serves(Apply(s, a), k, agent) {
      assert !Serves(s, k, agent);
    }
    if a.SeeClose? && a.k < |s.sockets| && a.k != j {
      assert !Serves(s, a.k, agent);
    }
    assert forall b :: b in s.live && b != agent ==> s.live[b] != s.live[agent];
  }

  lemma {:induction false} AloneStaysForRun(s: State, actions: seq<Action>, j: nat)
    requires Inv(s) && Alone(s, j) && Undisturbed(s, actions, s.sockets[j].agent)
    ensures Alone(Run(s, actions), j) && Run(s, actions).sockets[j].agent == s.sockets[j].agent
    decreases |actions|
  {
    if actions != [] {
      StepKeepsInv(s, actions[0]);
      AloneStays(s, actions[0], j);
      AloneStaysForRun(Apply(s, actions[0]), actions[1..], j);
    }
  }

  lemma {:induction false} UndisturbedMeansNoGreeting(s: State, actions: seq<Action>, agent: nat)
    requires Undisturbed(s, actions, agent)
    ensures NoGreeting(s, actions, agent)
    decreases |actions|
  {
    if actions != [] {
      UndisturbedMeansNoGreeting(Apply(s, actions[0]), actions[1..], agent);
    }
  }

  /** In every run, left to the handlers alone, a hello leaves the agent online once they have settled
      exactly when none of the agent's other sockets was serving it. */
  lemma HelloLastsIff(s0: State, before: seq<Action>, j: nat, actions: seq<Action>)
    requires Init(s0)
    requires var s := Run(s0, before);
      && j < |s.sockets| && !s.sockets[j].ended
      && Undisturbed(Apply(s, Hello(j)), actions, s.sockets[j].agent)
      && Settled(Run(Apply(s, Hello(j)), actions))
    ensures var s := Run(s0, before);
      s.sockets[j].agent in Run(Apply(s, Hello(j)), actions).live <==>
      forall k: nat :: k != j ==> !Serves(s, k, s.sockets[j].agent)
  {
    var s := Run(s0, before);
    var agent := s.sockets[j].agent;
    if k: nat :| k != j && Serves(s, k, agent) {
      UndisturbedMeansNoGreeting(Apply(s, Hello(j)), actions, agent);
      ReconnectEndsOffline(s0, before, k, j, actions);
    } else {
      RunKeepsInv(s0, before);
      StepKeepsInv(s, Hello(j));
      forall k | k != j ensures !Serves(Apply(s, Hello(j)), k, agent) {
        assert k >= 0 ==> !Serves(s, k, agent);
      }
      AloneStaysForRun(Apply(s, Hello(j)), actions, j);
    }
  }

  // ---------- Revoked, and lost ----------

  /** The agent is offline, and every handler that serves it is on its way out. */
  ghost predicate SwitchedOff(s: State, agent: nat) {
    agent !in s.live && forall k :: 0 <= k < |s.sockets| && Serves(s, k, agent) ==> IsTold(s, k)
  }

  lemma SwitchedOffStays(s: State, a: Action, agent: nat)
    requires Inv(s) && SwitchedOff(s, agent) && !Greets(s, a, agent)
    ensures SwitchedOff(Apply(s, a), agent)
  {
    var t := Apply(s, a);
    forall k | 0 <= k < |t.sockets| && Serves(t, k, agent) ensures IsTold(t, k) {
      assert Serves(s, k, agent);
    }
  }

  lemma {:induction false} SwitchedOffStaysForRun(s: State, actions: seq<Action>, agent: nat)
    requires Inv(s) && SwitchedOff(s, agent) && NoGreeting(s, actions, agent)
    ensures SwitchedOff(Run(s, actions), agent)
    decreases |actions|
  {
    if actions != [] {
      StepKeepsInv(s, actions[0]);
      SwitchedOffStays(s, actions[0], agent);
      SwitchedOffStaysForRun(Apply(s, actions[0]), actions[1..], agent);
    }
  }

  lemma DisconnectSwitchesOff(s: State, agent: nat)
    requires Inv(s)
    ensures SwitchedOff(Disconnected(s, agent), agent)
  {
    var t := Disconnected(s, agent);
    forall k | 0 <= k < |t.sockets| && Serves(t, k, agent) ensures IsTold(t, k) {
      assert SocketOk(s, k);
    }
  }

  /** In every run: after a revoke, or after any of its sockets is lost, an agent is offline until it
      says hello again, and once the told handlers have ended no socket serves it. */
  lemma RevokedOrLostIsGone(s0: State, before: seq<Action>, a: Action, agent: nat, actions: seq<Action>)
    requires Init(s0)
    requires var s := Run(s0, before);
      && (a == Revoke(agent)
          || (a.Lose? && a.k < |s.sockets| && !s.sockets[a.k].ended && s.sockets[a.k].agent == agent))
      && NoGreeting(Apply(s, a), actions, agent)
    ensures var t := Run(Apply(Run(s0, before), a), actions);
      && agent !in t.live
      && (Settled(t) ==> forall k: nat :: !Serves(t, k, agent))
      && (a.Lose? ==> Apply(Run(s0, before), a).sockets[a.k].ended)
  {
    var s := Run(s0, before);
    RunKeepsInv(s0, before);
    StepKeepsInv(s, a);
    if a.Lose? {
      EndKeepsInv(s, a.k);
      var u := s.(sockets := s.sockets[a.k := s.sockets[a.k].(ended := true)]);
      forall i | 0 <= i < |u.sockets| ensures SocketOk(u, i) { assert SocketOk(s, i); }
      DisconnectSwitchesOff(u, agent);
    } else {
      DisconnectSwitchesOff(s, agent);
    }
    SwitchedOffStaysForRun(Apply(s, a), actions, agent);
  }

  // ---------- Handlers that are told do end ----------

  function StillOpen(sockets: seq<Socket>): nat {
    if sockets == [] then 0
    else StillOpen(sockets[..|sockets| - 1]) + if sockets[|sockets| - 1].ended then 0 else 1
  }

  lemma {:induction false} OneFewer(sockets: seq<Socket>, k: nat)
    requires k < |sockets| && !sockets[k].ended
    ensures StillOpen(sockets[k := sockets[k].(ended := true)]) == StillOpen(sockets) - 1
    decreases |sockets|
  {
    var after, n := sockets[k := sockets[k].(ended := true)], |sockets| - 1;
    if k == n {
      assert after[..n] == sockets[..n];
    } else {
      assert after[..n] == sockets[..n][k := sockets[k].(ended := true)];
      OneFewer(sockets[..n], k);
    }
  }

  /** From any state the handlers settle by themselves, in at most as many steps as are open. */
  lemma {:induction false} HandlersSettle(s: State) returns (actions: seq<Action>)
    ensures Settled(Run(s, actions)) && |actions| <= StillOpen(s.sockets)
    ensures forall a :: a in actions ==> a.SeeClose?
    decreases StillOpen(s.sockets)
  {
    if k: nat :| k < |s.sockets| && !s.sockets[k].ended && IsTold(s, k) {
      OneFewer(s.sockets, k);
      var rest := HandlersSettle(Apply(s, SeeClose(k)));
      actions := [SeeClose(k)] + rest;
      assert actions[1..] == rest;
    } else {
      actions := [];
    }
  }
}
