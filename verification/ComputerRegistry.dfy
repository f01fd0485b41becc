// Request correlation over agent connections (crates/catalerum-api/src/computer_registry.rs).
// Correlation ids are the printed counter; printing is one to one (Text.NatTextReads), so an id
// is the number itself here.

module ComputerRegistry {
  import opened Collections

  /** One connection: its waiters by correlation id, and the requests in the order they drew an id.
      The source keeps only the length of that list, as the next id. */
  datatype Conn = Conn(pending: map<nat, nat>, issued: seq<nat>, writerOpen: bool)

  function Drawn(conn: Conn, r: nat): Conn {
    conn.(issued := conn.issued + [r])
  }

  function Entered(conn: Conn, id: nat, r: nat): Conn {
    conn.(pending := conn.pending[id := r])
  }

  function Left(conn: Conn, id: nat): Conn {
    conn.(pending := conn.pending - {id})
  }

  /** Every waiter sits under an id already drawn, the one its request drew. */
  ghost predicate Tidy(conn: Conn) {
    forall id :: id in conn.pending ==> id < |conn.issued| && conn.pending[id] == conn.issued[id]
  }

  // ---------- The registry's own operations ----------

  /** Handles are shared: a request keeps the connection object it began with, whatever the
      registry holds for the agent later. */
  class LiveConn {
    var pending: map<nat, nat>
    var counter: nat
    var writerOpen: bool
    var notified: bool // the close handle: the socket is to be torn down
    ghost var issued: seq<nat>

    constructor ()
      ensures Valid() && View() == Conn(map[], [], true) && !notified
    {
      pending, counter, issued, writerOpen, notified := map[], 0, [], true, false;
    }

    ghost function View(): Conn
      reads this
    {
      Conn(pending, issued, writerOpen)
    }

    ghost predicate Valid()
      reads this
    {
      counter == |issued| && Tidy(View())
    }

    /** The id is one no request of this connection has drawn, so no waiter is overwritten. */
    method Register(waiter: nat) returns (id: nat)
      requires Valid()
      modifies this`pending, this`counter, this`issued
      ensures Valid() && id == |old(issued)| && id !in old(pending)
      ensures View() == Entered(Drawn(old(View()), waiter), id, waiter)
    {
      id := counter;
      counter := counter + 1;
      issued := issued + [waiter];
      pending := pending[id := waiter];
    }

    /** Hands back the request that drew the id, if it still waits; after that nobody does. */
    method Remove(id: nat) returns (waiter: Option<nat>)
      requires Valid()
      modifies this`pending
      ensures Valid() && View() == Left(old(View()), id)
      ensures waiter.Some? <==> id in old(pending)
      ensures waiter.Some? ==> id < |issued| && waiter.value == issued[id]
    {
      waiter := None;
      if id in pending {
        waiter := Some(pending[id]);
      }
      pending := pending - {id};
    }
  }

  class Registry {
    var conns: map<nat, LiveConn>

    constructor ()
      ensures conns == map[]
    {
      conns := map[];
    }

    /** A reconnect puts a new object in place of the old one, whose waiters and ids stay as they
        are, and has the old one's socket torn down. */
    method Connect(agent: nat) returns (conn: LiveConn)
      modifies this, if agent in conns then {conns[agent]} else {}
      ensures fresh(conn) && conn.Valid() && conn.View() == Conn(map[], [], true) && !conn.notified
      ensures conns == old(conns)[agent := conn]
      ensures agent in old(conns) ==>
        var prev := old(conns[agent]); prev.notified && prev.View() == old(conns[agent].View())
    {
      conn := new LiveConn();
      if agent in conns {
        conns[agent].notified := true;
      }
      conns := conns[agent := conn];
    }

    /** Takes out whatever connection the agent has, whoever asks. */
    method Disconnect(agent: nat)
      modifies this, if agent in conns then {conns[agent]} else {}
      ensures conns == old(conns) - {agent}
      ensures agent in old(conns) ==>
        var prev := old(conns[agent]); prev.notified && prev.View() == old(conns[agent].View())
    {
      if agent in conns {
        conns[agent].notified := true;
      }
      conns := conns - {agent};
    }

    /** The first critical section: the connection the agent has now. */
    method LookUp(agent: nat) returns (handle: Option<LiveConn>)
      ensures handle == if agent in conns then Some(conns[agent]) else None
    {
      if agent !in conns {
        return None;
      }
      return Some(conns[agent]);
    }

    /** Looked up and resolved without a break: the current connection's waiter with that id, if
        any, is taken out and handed the response. With a break between the two it is the steps
        `LookUp` and `Resolve` of the machine. */
    method ResolveResponse(agent: nat, id: nat) returns (waiter: Option<nat>)
      requires agent in conns ==> conns[agent].Valid()
      modifies if agent in conns then {conns[agent]} else {}
      ensures waiter.Some? <==> agent in conns && id in old(conns[agent].pending)
      ensures agent in conns ==> conns[agent].Valid() && conns[agent].View() == Left(old(conns[agent].View()), id)
      ensures waiter.Some? ==> id < |conns[agent].issued| && waiter.value == conns[agent].issued[id]
    {
      var handle := LookUp(agent);
      if handle.None? {
        return None;
      }
      waiter := handle.value.Remove(id);
    }
  }

  // ---------- Interleaved requests, responses and reconnects ----------

  datatype Outcome = Response(payload: int) | Offline | TimedOut | Disconnected
  datatype Phase =
    | Holding | Numbered | Registered | Awaiting | SendFailed | Expired | Cancelled
    | Done(outcome: Outcome)
  datatype Slot = Empty | Filled(payload: int) | Dropped
  datatype Request = Request(conn: nat, id: Option<nat>, phase: Phase, slot: Slot)

  /** A response that has looked up a connection; `from` is the one whose socket carried it. */
  datatype Resolver = Resolver(from: nat, conn: nat, id: nat, payload: int)
  datatype Delivery = Delivery(request: nat, from: nat, conn: nat, id: nat, payload: int)

  datatype State = State(
    conns: seq<Conn>,
    current: map<nat, nat>, // agent to its live connection
    requests: seq<Request>,
    resolvers: seq<Resolver>,
    deliveries: seq<Delivery>)

  datatype Action =
    | Connect(agent: nat)
    | Disconnect(agent: nat, from: nat) // by the socket of connection `from`
    | CloseWriter(conn: nat)
    | Begin(agent: nat)
    | Number(r: nat)
    | Register(r: nat)
    | Send(r: nat)
    | CleanFailed(r: nat)
    | Expire(r: nat)
    | CleanExpired(r: nat)
    | Take(r: nat)
    | Cancel(r: nat) // the caller drops the request while it awaits a lock or the answer
    | LookUp(agent: nat, from: nat, id: nat, payload: int)
    | Resolve(i: nat)

  function Put(s: State, r: nat, q: Request): State
    requires r < |s.requests|
  {
    s.(requests := s.requests[r := q])
  }

  function SetConn(s: State, c: nat, conn: Conn): State
    requires c < |s.conns|
  {
    s.(conns := s.conns[c := conn])
  }

  /** Inserting over an id would drop the waiter that was there. */
  function DropWaiter(s: State, c: nat, id: nat): State
    requires c < |s.conns|
  {
    if id in s.conns[c].pending && s.conns[c].pending[id] < |s.requests|
    then Put(s, s.conns[c].pending[id], s.requests[s.conns[c].pending[id]].(slot := Dropped))
    else s
  }

  function Registering(s: State, r: nat): State
    requires r < |s.requests| && s.requests[r].id.Some? && s.requests[r].conn < |s.conns|
  {
    var c, id := s.requests[r].conn, s.requests[r].id.value;
    var t := DropWaiter(s, c, id);
    Put(SetConn(t, c, Entered(t.conns[c], id, r)), r, t.requests[r].(phase := Registered))
  }

  function Cleaned(s: State, r: nat, outcome: Outcome): State
    requires r < |s.requests| && s.requests[r].id.Some? && s.requests[r].conn < |s.conns|
  {
    var q := s.requests[r];
    Put(SetConn(s, q.conn, Left(s.conns[q.conn], q.id.value)),
        r, q.(phase := Done(outcome)))
  }

  function RequestStep(s: State, r: nat, a: Action): State
    requires r < |s.requests| && s.requests[r].conn < |s.conns|
  {
    var q, c := s.requests[r], s.requests[r].conn;
    match a
    case Number(_) =>
      if q.phase == Holding
      then Put(SetConn(s, c, Drawn(s.conns[c], r)), r,
               q.(id := Some(|s.conns[c].issued|), phase := Numbered))
      else s
    case Register(_) => if q.phase == Numbered && q.id.Some? then Registering(s, r) else s
    case Send(_) =>
      if q.phase == Registered
      then Put(s, r, q.(phase := if s.conns[c].writerOpen then Awaiting else SendFailed))
      else s
    case CleanFailed(_) => if q.phase == SendFailed && q.id.Some? then Cleaned(s, r, Offline) else s
    // The timer is only heeded when no response is there yet.
    case Expire(_) => if q.phase == Awaiting && q.slot == Empty then Put(s, r, q.(phase := Expired)) else s
    case CleanExpired(_) => if q.phase == Expired && q.id.Some? then Cleaned(s, r, TimedOut) else s
    case Take(_) =>
      if q.phase != Awaiting then s
      else (match q.slot
            case Empty => s
            case Filled(payload) => Put(s, r, q.(phase := Done(Response(payload))))
            case Dropped => Put(s, r, q.(phase := Done(Disconnected))))
    // Nothing cleans up after a dropped future: what it registered stays.
    case Cancel(_) => if Awaits(q.phase) then Put(s, r, q.(phase := Cancelled)) else s
    case _ => s
  }

  /** Where the request gives up control: at a lock of the pending map, or waiting for its answer. */
  predicate Awaits(p: Phase) {
    p == Numbered || p == SendFailed || p == Awaiting || p == Expired
  }

  /** The receiving end has been dropped. */
  predicate Gone(p: Phase) {
    p == Expired || p == Cancelled || p.Done?
  }

  /** Remove and send happen under one lock; a receiver that has gone loses the response. */
  function Resolved(s: State, x: Resolver): State
    requires x.conn < |s.conns|
  {
    var conn := s.conns[x.conn];
    if x.id !in conn.pending || conn.pending[x.id] >= |s.requests| then s
    else
      var r := conn.pending[x.id];
      var t := SetConn(s, x.conn, Left(conn, x.id));
      if Gone(t.requests[r].phase) then t
      else Put(t.(deliveries := t.deliveries + [Delivery(r, x.from, x.conn, x.id, x.payload)]),
               r, t.requests[r].(slot := Filled(x.payload)))
  }

  function Apply(s: State, a: Action): State {
    match a
    case Connect(agent) => s.(conns := s.conns + [Conn(map[], [], true)], current := s.current[agent := |s.conns|])
    case Disconnect(agent, _) => s.(current := s.current - {agent})
    case CloseWriter(c) => if c < |s.conns| then SetConn(s, c, s.conns[c].(writerOpen := false)) else s
    case Begin(agent) => // with no live connection the answer is Offline, at once
      if agent in s.current then s.(requests := s.requests + [Request(s.current[agent], None, Holding, Empty)]) else s
    case LookUp(agent, from, id, payload) =>
      if agent in s.current then s.(resolvers := s.resolvers + [Resolver(from, s.current[agent], id, payload)]) else s
    case Resolve(i) =>
      if i < |s.resolvers| && s.resolvers[i].conn < |s.conns|
      then Resolved(s.(resolvers := s.resolvers[..i] + s.resolvers[i + 1..]), s.resolvers[i])
      else s
    case _ => if a.r < |s.requests| && s.requests[a.r].conn < |s.conns| then RequestStep(s, a.r, a) else s
  }

  function Run(s: State, actions: seq<Action>): State
    decreases |actions|
  {
    if actions == [] then s else Run(Apply(s, actions[0]), actions[1..])
  }

  ghost predicate Init(s: State) {
    s.conns == [] && s.current == map[] && s.requests == [] && s.resolvers == [] && s.deliveries == []
  }

  // ---------- Invariant ----------

  predicate InMap(p: Phase) {
    p == Registered || p == Awaiting || p == SendFailed
  }

  /** A pending entry belongs to the request that drew the id, which still waits. */
  ghost predicate EntryOk(s: State, c: nat, id: nat)
    requires c < |s.conns| && id in s.conns[c].pending
  {
    && id < |s.conns[c].issued|
    && s.conns[c].pending[id] == s.conns[c].issued[id]
    && s.conns[c].pending[id] < |s.requests|
  }

  ghost predicate ConnOk(s: State, c: nat)
    requires c < |s.conns|
  {
    && (forall id :: id in s.conns[c].pending ==> EntryOk(s, c, id))
    && (forall id :: 0 <= id < |s.conns[c].issued| ==> Drew(s, c, id))
  }

  ghost predicate Drew(s: State, c: nat, id: nat)
    requires c < |s.conns| && id < |s.conns[c].issued|
  {
    s.conns[c].issued[id] < |s.requests| && s.requests[s.conns[c].issued[id]].conn == c
    && s.requests[s.conns[c].issued[id]].id == Some(id)
  }

  ghost predicate RequestOk(conns: seq<Conn>, r: nat, q: Request) {
    && q.conn < |conns|
    && (q.phase == Holding <==> q.id.None?)
    && q.slot != Dropped
    && (q.id.None? ==> q.slot == Empty)
    && (q.id.Some? ==>
          && q.id.value < |conns[q.conn].issued|
          && conns[q.conn].issued[q.id.value] == r
          && (q.phase == Numbered ==> q.slot == Empty && q.id.value !in conns[q.conn].pending)
          && (InMap(q.phase) ==> (q.slot == Empty <==> q.id.value in conns[q.conn].pending))
          && (q.phase == Expired ==> q.slot == Empty)
          && (q.phase == Cancelled && q.slot.Filled? ==> q.id.value !in conns[q.conn].pending)
          && (q.phase.Done? ==>
                && q.id.value !in conns[q.conn].pending
                && q.phase.outcome != Disconnected
                && (q.phase.outcome.Response? ==> q.slot == Filled(q.phase.outcome.payload))))
  }

  function Hits(r: nat, d: Delivery): nat {
    if d.request == r then 1 else 0
  }

  function TimesDelivered(s: State, r: nat): nat {
    Sum((d: Delivery) => Hits(r, d), s.deliveries)
  }

  ghost predicate DeliveryOk(s: State, d: Delivery) {
    && d.request < |s.requests|
    && var q := s.requests[d.request];
       q.conn == d.conn && q.id == Some(d.id) && q.slot == Filled(d.payload)
  }

  ghost predicate Counted(s: State, r: nat)
    requires r < |s.requests|
  {
    TimesDelivered(s, r) == if s.requests[r].slot.Filled? then 1 else 0
  }

  ghost predicate Inv(s: State) {
    && (forall agent :: agent in s.current ==> s.current[agent] < |s.conns|)
    && (forall i :: 0 <= i < |s.resolvers| ==> s.resolvers[i].conn < |s.conns|)
    && (forall c :: 0 <= c < |s.conns| ==> ConnOk(s, c))
    && (forall r :: 0 <= r < |s.requests| ==> RequestOk(s.conns, r, s.requests[r]))
    && (forall d :: d in s.deliveries ==> DeliveryOk(s, d))
    && (forall r :: 0 <= r < |s.requests| ==> Counted(s, r))
  }

  // ---------- Each step keeps it ----------

  /** One request moves and its own connection's maps change at its own id only. */
  ghost predicate OwnChange(s: State, r: nat, conn: Conn, q: Request)
    requires r < |s.requests| && s.requests[r].conn < |s.conns|
  {
    var c := s.requests[r].conn;
    && q.conn == c
    && (s.requests[r].id.Some? ==> q.id == s.requests[r].id)
    && s.conns[c].issued <= conn.issued
    && (forall id :: id < |conn.issued| && id >= |s.conns[c].issued| ==> q.id == Some(id) && conn.issued[id] == r)
    && (forall id: nat :: q.id != Some(id) ==> SameEntry(s.conns[c].pending, conn.pending, id))
    && (q.id.Some? && q.id.value in conn.pending ==> conn.pending[q.id.value] == r)
  }

  ghost predicate SameEntry(a: map<nat, nat>, b: map<nat, nat>, id: nat) {
    (id in a <==> id in b) && (id in a ==> a[id] == b[id])
  }

  lemma OwnConnOk(s: State, r: nat, conn: Conn, q: Request)
    requires Inv(s) && r < |s.requests| && s.requests[r].conn < |s.conns|
    requires OwnChange(s, r, conn, q)
    requires q.id.Some? ==> q.id.value < |conn.issued| && conn.issued[q.id.value] == r
    ensures ConnOk(Put(SetConn(s, s.requests[r].conn, conn), r, q), s.requests[r].conn)
  {
    var c := s.requests[r].conn;
    var t := Put(SetConn(s, c, conn), r, q);
    assert ConnOk(s, c);
    forall id | id in conn.pending ensures EntryOk(t, c, id) {
      if q.id != Some(id) {
        assert SameEntry(s.conns[c].pending, conn.pending, id);
        assert EntryOk(s, c, id);
      }
    }
    forall id | 0 <= id < |conn.issued| ensures Drew(t, c, id) {
      if id < |s.conns[c].issued| {
        assert Drew(s, c, id);
      }
    }
  }

  lemma OtherConnsOk(s: State, r: nat, conn: Conn, q: Request, k: nat)
    requires Inv(s) && r < |s.requests| && s.requests[r].conn < |s.conns| && k < |s.conns| && k != s.requests[r].conn
    requires OwnChange(s, r, conn, q)
    ensures ConnOk(Put(SetConn(s, s.requests[r].conn, conn), r, q), k)
  {
    var t := Put(SetConn(s, s.requests[r].conn, conn), r, q);
    assert ConnOk(s, k);
    forall id | id in t.conns[k].pending ensures EntryOk(t, k, id) { assert EntryOk(s, k, id); }
    forall id | 0 <= id < |t.conns[k].issued| ensures Drew(t, k, id) { assert Drew(s, k, id); }
  }

  lemma OwnChangeKeepsInv(s: State, r: nat, conn: Conn, q: Request)
    requires Inv(s) && r < |s.requests| && s.requests[r].conn < |s.conns|
    requires OwnChange(s, r, conn, q) && q.slot == s.requests[r].slot
    requires RequestOk(s.conns[s.requests[r].conn := conn], r, q)
    ensures Inv(Put(SetConn(s, s.requests[r].conn, conn), r, q))
  {
    var c := s.requests[r].conn;
    var t := Put(SetConn(s, c, conn), r, q);
    forall k | 0 <= k < |t.conns| ensures ConnOk(t, k) {
      if k == c { OwnConnOk(s, r, conn, q); } else { OtherConnsOk(s, r, conn, q, k); }
    }
    forall k | 0 <= k < |t.requests| ensures RequestOk(t.conns, k, t.requests[k]) && Counted(t, k) {
      assert Counted(s, k);
    }
    forall d | d in t.deliveries ensures DeliveryOk(t, d) { assert DeliveryOk(s, d); }
  }

  /** A step that moves only the request's phase. */
  lemma PhaseKeepsInv(s: State, r: nat, q: Request)
    requires Inv(s) && r < |s.requests| && q == s.requests[r].(phase := q.phase)
    requires RequestOk(s.conns, r, q)
    ensures Inv(Put(s, r, q))
  {
    var c := s.requests[r].conn;
    assert s.conns[c := s.conns[c]] == s.conns;
    assert RequestOk(s.conns, r, s.requests[r]);
    if q.id.Some? { OwnEntry(s, r); }
    OwnChangeKeepsInv(s, r, s.conns[c], q);
    assert SetConn(s, c, s.conns[c]) == s;
  }

  lemma OwnEntry(s: State, r: nat)
    requires Inv(s) && r < |s.requests| && s.requests[r].id.Some?
    ensures var c, id := s.requests[r].conn, s.requests[r].id.value;
      c < |s.conns| && (id in s.conns[c].pending ==> s.conns[c].pending[id] == r)
  {
    assert RequestOk(s.conns, r, s.requests[r]);
    assert ConnOk(s, s.requests[r].conn);
    var c, id := s.requests[r].conn, s.requests[r].id.value;
    if id in s.conns[c].pending { assert EntryOk(s, c, id); }
  }

  lemma NumberKeepsInv(s: State, r: nat)
    requires Inv(s) && r < |s.requests| && s.requests[r].phase == Holding
    ensures Inv(RequestStep(s, r, Number(r)))
  {
    var q, c := s.requests[r], s.requests[r].conn;
    assert RequestOk(s.conns, r, q) && ConnOk(s, c);
    var id := |s.conns[c].issued|;
    OwnChangeKeepsInv(s, r, Drawn(s.conns[c], r), q.(id := Some(id), phase := Numbered));
  }

  lemma RegisterKeepsInv(s: State, r: nat)
    requires Inv(s) && r < |s.requests| && s.requests[r].phase == Numbered && s.requests[r].id.Some?
    ensures s.requests[r].conn < |s.conns| && Inv(Registering(s, r))
  {
    var q, c, id := s.requests[r], s.requests[r].conn, s.requests[r].id.value;
    assert RequestOk(s.conns, r, q);
    assert DropWaiter(s, c, id) == s;
    OwnChangeKeepsInv(s, r, Entered(s.conns[c], id, r), q.(phase := Registered));
  }

  lemma CleanKeepsInv(s: State, r: nat, outcome: Outcome)
    requires Inv(s) && r < |s.requests| && s.requests[r].id.Some? && (outcome == Offline || outcome == TimedOut)
    ensures s.requests[r].conn < |s.conns| && Inv(Cleaned(s, r, outcome))
  {
    var q, c, id := s.requests[r], s.requests[r].conn, s.requests[r].id.value;
    assert RequestOk(s.conns, r, q);
    OwnChangeKeepsInv(s, r, Left(s.conns[c], id), q.(phase := Done(outcome)));
  }

  lemma RequestStepKeepsInv(s: State, r: nat, a: Action)
    requires Inv(s) && r < |s.requests| && s.requests[r].conn < |s.conns|
    ensures Inv(RequestStep(s, r, a))
  {
    var q := s.requests[r];
    assert RequestOk(s.conns, r, q);
    match a
    case Number(_) => if q.phase == Holding { NumberKeepsInv(s, r); }
    case Register(_) => if q.phase == Numbered { RegisterKeepsInv(s, r); }
    case CleanFailed(_) => if q.phase == SendFailed { CleanKeepsInv(s, r, Offline); }
    case CleanExpired(_) => if q.phase == Expired { CleanKeepsInv(s, r, TimedOut); }
    case Send(_) =>
      if q.phase == Registered { PhaseKeepsInv(s, r, RequestStep(s, r, a).requests[r]); }
    case Expire(_) =>
      if q.phase == Awaiting && q.slot == Empty { PhaseKeepsInv(s, r, RequestStep(s, r, a).requests[r]); }
    case Cancel(_) => if Awaits(q.phase) { PhaseKeepsInv(s, r, RequestStep(s, r, a).requests[r]); }
    case Take(_) =>
      if q.phase == Awaiting && q.slot.Filled? { PhaseKeepsInv(s, r, RequestStep(s, r, a).requests[r]); }
    case _ =>
  }

  // ---------- Responses ----------

  lemma FreshFilling(s: State, r: nat, d: Delivery, k: nat)
    requires Inv(s) && r < |s.requests| && k < |s.requests| && d.request == r && s.requests[r].slot == Empty
    ensures Counted(Put(s.(deliveries := s.deliveries + [d]), r, s.requests[r].(slot := Filled(d.payload))), k)
  {
    var hits := (d: Delivery) => Hits(k, d);
    SumConcat(hits, s.deliveries, [d]);
    SumOne(hits, d);
    assert Counted(s, k);
  }

  lemma DeliveryKeepsInv(s: State, x: Resolver)
    requires Inv(s) && x.conn < |s.conns| && x.id in s.conns[x.conn].pending
    ensures s.conns[x.conn].pending[x.id] < |s.requests|
    ensures var r := s.conns[x.conn].pending[x.id];
      !Gone(s.requests[r].phase) ==> Inv(Resolved(s, x))
  {
    assert ConnOk(s, x.conn);
    assert EntryOk(s, x.conn, x.id);
    assert Drew(s, x.conn, x.id);
    var r, conn := s.conns[x.conn].pending[x.id], s.conns[x.conn];
    var q, d := s.requests[r], Delivery(r, x.from, x.conn, x.id, x.payload);
    assert RequestOk(s.conns, r, q);
    if !Gone(q.phase) {
      var left := Left(conn, x.id);
      var t := Resolved(s, x);
      OwnConnOk(s, r, left, q);
      forall k | 0 <= k < |t.conns| ensures ConnOk(t, k) {
        if k == x.conn { OwnConnOk(s, r, left, t.requests[r]); } else { OtherConnsOk(s, r, left, t.requests[r], k); }
        SameConnOk(Put(SetConn(s, x.conn, left), r, t.requests[r]), t, k);
      }
      forall k | 0 <= k < |t.requests| ensures RequestOk(t.conns, k, t.requests[k]) && Counted(t, k) {
        FreshFilling(s, r, d, k);
      }
      forall e | e in t.deliveries ensures DeliveryOk(t, e) {
        if e in s.deliveries {
          assert DeliveryOk(s, e);
        }
      }
    }
  }

  lemma SameConnOk(s: State, t: State, c: nat)
    requires c < |s.conns| && t.conns == s.conns && t.requests == s.requests && ConnOk(s, c)
    ensures ConnOk(t, c)
  {
    forall id | id in t.conns[c].pending ensures EntryOk(t, c, id) { assert EntryOk(s, c, id); }
    forall id | 0 <= id < |t.conns[c].issued| ensures Drew(t, c, id) { assert Drew(s, c, id); }
  }

  lemma ResolveKeepsInv(s: State, x: Resolver)
    requires Inv(s) && x.conn < |s.conns|
    ensures Inv(Resolved(s, x))
  {
    if x.id in s.conns[x.conn].pending {
      DeliveryKeepsInv(s, x);
      assert ConnOk(s, x.conn);
      assert EntryOk(s, x.conn, x.id) && Drew(s, x.conn, x.id);
      var r, conn := s.conns[x.conn].pending[x.id], s.conns[x.conn];
      var q := s.requests[r];
      assert RequestOk(s.conns, r, q);
      if Gone(q.phase) {
        OwnChangeKeepsInv(s, r, Left(conn, x.id), q);
        assert s.requests[r := q] == s.requests;
      }
    }
  }

  // ---------- Connections come and go ----------

  lemma ConnectKeepsInv(s: State, agent: nat)
    requires Inv(s)
    ensures Inv(Apply(s, Connect(agent)))
  {
    var t := Apply(s, Connect(agent));
    forall c | 0 <= c < |t.conns| ensures ConnOk(t, c) {
      if c < |s.conns| {
        assert ConnOk(s, c);
        forall id | id in t.conns[c].pending ensures EntryOk(t, c, id) { assert EntryOk(s, c, id); }
        forall id | 0 <= id < |t.conns[c].issued| ensures Drew(t, c, id) { assert Drew(s, c, id); }
      }
    }
    forall r | 0 <= r < |t.requests| ensures RequestOk(t.conns, r, t.requests[r]) && Counted(t, r) {
      assert RequestOk(s.conns, r, s.requests[r]) && Counted(s, r);
    }
    forall d | d in t.deliveries ensures DeliveryOk(t, d) { assert DeliveryOk(s, d); }
  }

  lemma CloseKeepsInv(s: State, c: nat)
    requires Inv(s) && c < |s.conns|
    ensures Inv(Apply(s, CloseWriter(c)))
  {
    var t := Apply(s, CloseWriter(c));
    forall k | 0 <= k < |t.conns| ensures ConnOk(t, k) {
      assert ConnOk(s, k);
      forall id | id in t.conns[k].pending ensures EntryOk(t, k, id) { assert EntryOk(s, k, id); }
      forall id | 0 <= id < |t.conns[k].issued| ensures Drew(t, k, id) { assert Drew(s, k, id); }
    }
    forall r | 0 <= r < |t.requests| ensures RequestOk(t.conns, r, t.requests[r]) && Counted(t, r) {
      assert RequestOk(s.conns, r, s.requests[r]) && Counted(s, r);
    }
    forall d | d in t.deliveries ensures DeliveryOk(t, d) { assert DeliveryOk(s, d); }
  }

  lemma BeginKeepsInv(s: State, agent: nat)
    requires Inv(s) && agent in s.current
    ensures Inv(Apply(s, Begin(agent)))
  {
    var t, n := Apply(s, Begin(agent)), |s.requests|;
    forall c | 0 <= c < |t.conns| ensures ConnOk(t, c) {
      assert ConnOk(s, c);
      forall id | id in t.conns[c].pending ensures EntryOk(t, c, id) { assert EntryOk(s, c, id); }
      forall id | 0 <= id < |t.conns[c].issued| ensures Drew(t, c, id) { assert Drew(s, c, id); }
    }
    forall d | d in t.deliveries ensures DeliveryOk(t, d) { assert DeliveryOk(s, d); }
    forall r | 0 <= r < |t.requests| ensures RequestOk(t.conns, r, t.requests[r]) && Counted(t, r) {
      if r < n {
        assert RequestOk(s.conns, r, s.requests[r]) && Counted(s, r);
      } else {
        assert forall d :: d in s.deliveries ==> DeliveryOk(s, d);
        SumZero((d: Delivery) => Hits(n, d), s.deliveries);
      }
    }
  }

  /** Nothing in the invariant but the bounds reads the live map or the resolvers. */
  lemma LookupsKeepInv(s: State, t: State)
    requires Inv(s) && t == s.(current := t.current, resolvers := t.resolvers)
    requires forall agent :: agent in t.current ==> t.current[agent] < |t.conns|
    requires forall i :: 0 <= i < |t.resolvers| ==> t.resolvers[i].conn < |t.conns|
    ensures Inv(t)
  {
    forall c | 0 <= c < |t.conns| ensures ConnOk(t, c) {
      assert ConnOk(s, c);
      SameConnOk(s, t, c);
    }
    forall r | 0 <= r < |t.requests| ensures Counted(t, r) { assert Counted(s, r); }
    forall d | d in t.deliveries ensures DeliveryOk(t, d) { assert DeliveryOk(s, d); }
  }

  /** Steps of connections and lookups, which concern no single request. */
  lemma ConnStepKeepsInv(s: State, a: Action)
    requires Inv(s) && (a.Connect? || a.CloseWriter? || a.Begin? || a.Disconnect? || a.LookUp?)
    ensures Inv(Apply(s, a))
  {
    if a.Connect? {
      ConnectKeepsInv(s, a.agent);
    } else if a.CloseWriter? {
      if a.conn < |s.conns| { CloseKeepsInv(s, a.conn); }
    } else if a.Begin? {
      if a.agent in s.current { BeginKeepsInv(s, a.agent); }
    } else {
      LookupsKeepInv(s, Apply(s, a));
    }
  }

  lemma ResolveStepKeepsInv(s: State, i: nat)
    requires Inv(s)
    ensures Inv(Apply(s, Resolve(i)))
  {
    if i < |s.resolvers| {
      var t := s.(resolvers := s.resolvers[..i] + s.resolvers[i + 1..]);
      LookupsKeepInv(s, t);
      ResolveKeepsInv(t, s.resolvers[i]);
    }
  }

  lemma StepKeepsInv(s: State, a: Action)
    requires Inv(s)
    ensures Inv(Apply(s, a))
  {
    if a.Connect? || a.CloseWriter? || a.Begin? || a.Disconnect? || a.LookUp? {
      ConnStepKeepsInv(s, a);
    } else if a.Resolve? {
      ResolveStepKeepsInv(s, a.i);
    } else if a.r < |s.requests| && s.requests[a.r].conn < |s.conns| {
      RequestStepKeepsInv(s, a.r, a);
    }
  }

  lemma {:induction false} RunKeepsInv(s: State, actions: seq<Action>)
    requires Inv(s)
    ensures Inv(Run(s, actions))
    decreases |actions|
  {
    if actions != [] {
      StepKeepsInv(s, actions[0]);
      RunKeepsInv(Apply(s, actions[0]), actions[1..]);
    }
  }

  // ---------- Main results ----------

  lemma Reachable(s0: State, actions: seq<Action>)
    requires Init(s0)
    ensures Inv(Run(s0, actions))
  {
    RunKeepsInv(s0, actions);
  }

  /** Within one connection no id is ever drawn twice, over the whole run. */
  lemma IdsAreNeverReused(s0: State, actions: seq<Action>, i: nat, j: nat)
    requires Init(s0)
    requires var s := Run(s0, actions);
      && i < |s.requests| && j < |s.requests| && i != j
      && s.requests[i].conn == s.requests[j].conn && s.requests[i].id.Some?
    ensures Run(s0, actions).requests[i].id != Run(s0, actions).requests[j].id
  {
    Reachable(s0, actions);
    var s := Run(s0, actions);
    assert RequestOk(s.conns, i, s.requests[i]) && RequestOk(s.conns, j, s.requests[j]);
  }

  /** Every response handed over went to the request that drew its id on the connection it was
      looked up on, and no request was ever handed two. */
  lemma ResponsesReachTheirRequest(s0: State, actions: seq<Action>)
    requires Init(s0)
    ensures var s := Run(s0, actions);
      && (forall d :: d in s.deliveries ==>
            && d.request < |s.requests|
            && s.requests[d.request].conn == d.conn && s.requests[d.request].id == Some(d.id)
            && s.requests[d.request].slot == Filled(d.payload))
      && (forall r :: 0 <= r < |s.requests| ==> TimesDelivered(s, r) <= 1)
  {
    Reachable(s0, actions);
    var s := Run(s0, actions);
    forall d | d in s.deliveries ensures DeliveryOk(s, d) {
    }
    forall r | 0 <= r < |s.requests| ensures TimesDelivered(s, r) <= 1 {
      assert Counted(s, r);
    }
  }

  /** A request that has returned left nothing behind; it never returned `Disconnected`, and if it
      returned a response then that one was delivered to it, once. */
  lemma ReturnedRequestsAreSettled(s0: State, actions: seq<Action>, r: nat)
    requires Init(s0)
    requires var s := Run(s0, actions); r < |s.requests| && s.requests[r].phase.Done?
    ensures var s := Run(s0, actions);
      var q := s.requests[r];
      && q.conn < |s.conns| && q.id.Some? && q.id.value !in s.conns[q.conn].pending
      && q.phase.outcome != Disconnected
      && (q.phase.outcome.Response? ==> q.slot == Filled(q.phase.outcome.payload) && TimesDelivered(s, r) == 1)
  {
    Reachable(s0, actions);
    var s := Run(s0, actions);
    assert RequestOk(s.conns, r, s.requests[r]) && Counted(s, r);
  }

  /** A second response, or one that comes after the request returned, changes nothing. */
  lemma LateResponsesChangeNothing(s: State, r: nat, x: Resolver)
    requires Inv(s) && r < |s.requests| && s.requests[r].id == Some(x.id) && s.requests[r].conn == x.conn
    requires s.requests[r].phase.Done? || s.requests[r].slot.Filled?
    ensures x.conn < |s.conns| && Resolved(s, x) == s
  {
  }

  /** From before its frame is sent until it is answered or its timer fires, a request's waiter is
      there: an answer to it, however quick and whatever connected since, is handed to it. */
  lemma AnswersLand(s: State, r: nat, x: Resolver)
    requires Inv(s) && r < |s.requests| && InMap(s.requests[r].phase) && s.requests[r].slot == Empty
    requires s.requests[r].id == Some(x.id) && s.requests[r].conn == x.conn
    ensures x.conn < |s.conns|
    ensures Resolved(s, x).requests[r] == s.requests[r].(slot := Filled(x.payload))
  {
    assert RequestOk(s.conns, r, s.requests[r]);
    OwnEntry(s, r);
  }

  /** Dropping a replaced connection drops no waiter: once all its requests have returned its map
      is empty, and until then they hold it themselves. */
  lemma NothingIsWaitingOnceAllReturned(s: State, c: nat)
    requires Inv(s) && c < |s.conns|
    requires forall r :: 0 <= r < |s.requests| && s.requests[r].conn == c ==> s.requests[r].phase.Done?
    ensures s.conns[c].pending == map[]
  {
    if s.conns[c].pending != map[] {
      var id :| id in s.conns[c].pending;
      WaiterIsWaiting(s, c, id);
    }
  }

  lemma WaiterIsWaiting(s: State, c: nat, id: nat)
    requires Inv(s) && c < |s.conns| && id in s.conns[c].pending
    ensures var r := s.conns[c].pending[id];
      r < |s.requests| && s.requests[r].conn == c && s.requests[r].id == Some(id)
      && !s.requests[r].phase.Done? && s.requests[r].slot == Empty
  {
    assert ConnOk(s, c);
    assert EntryOk(s, c, id) && Drew(s, c, id);
    assert RequestOk(s.conns, s.conns[c].pending[id], s.requests[s.conns[c].pending[id]]);
  }

  // ---------- Requests that are dropped ----------

  /** Every request of the connection has returned or was dropped by its caller. */
  predicate Over(s: State, c: nat) {
    forall r :: 0 <= r < |s.requests| && s.requests[r].conn == c ==>
      s.requests[r].phase.Done? || s.requests[r].phase == Cancelled
  }

  predicate Begins(s: State, a: Action, c: nat) {
    a.Begin? && a.agent in s.current && s.current[a.agent] == c
  }

  predicate Resolves(s: State, a: Action, c: nat, id: nat) {
    a.Resolve? && a.i < |s.resolvers| && s.resolvers[a.i].conn == c && s.resolvers[a.i].id == id
  }

  ghost predicate ResolvedAt(s: State, actions: seq<Action>, k: nat, c: nat, id: nat) {
    k < |actions| && Resolves(Run(s, actions[..k]), actions[k], c, id)
  }

  ghost predicate NoneBegins(s: State, actions: seq<Action>, c: nat) {
    forall k :: 0 <= k < |actions| ==> !Begins(Run(s, actions[..k]), actions[k], c)
  }

  lemma OverStays(s: State, a: Action, c: nat)
    requires Inv(s) && c < |s.conns| && Over(s, c) && !Begins(s, a, c)
    ensures c < |Apply(s, a).conns| && Over(Apply(s, a), c)
    ensures forall id :: id in Apply(s, a).conns[c].pending <==> id in s.conns[c].pending && !Resolves(s, a, c, id)
  {
    if a.Resolve? && a.i < |s.resolvers| {
      var x := s.resolvers[a.i];
      assert x.conn < |s.conns|;
      assert ConnOk(s, x.conn);
      if x.id in s.conns[x.conn].pending { assert EntryOk(s, x.conn, x.id); }
    } else if !a.Connect? && !a.CloseWriter? && !a.Begin? && !a.Disconnect? && !a.LookUp? && !a.Resolve? {
      OtherConnStands(s, a, c);
    }
  }

  lemma OtherConnStands(s: State, a: Action, c: nat)
    requires Inv(s) && c < |s.conns| && Over(s, c)
    requires !a.Connect? && !a.CloseWriter? && !a.Begin? && !a.Disconnect? && !a.LookUp? && !a.Resolve?
    ensures var t := Apply(s, a); |t.conns| == |s.conns| && t.conns[c] == s.conns[c] && Over(t, c)
  {
    if a.r < |s.requests| {
      assert RequestOk(s.conns, a.r, s.requests[a.r]);
      if s.requests[a.r].conn != c && a.Register? && s.requests[a.r].phase == Numbered {
        assert DropWaiter(s, s.requests[a.r].conn, s.requests[a.r].id.value) == s;
      }
    }
  }

  /** With its requests over and none beginning, an entry stays until a response comes for its id. */
  lemma {:induction false} EntryStaysIff(s: State, actions: seq<Action>, c: nat)
    requires Inv(s) && c < |s.conns| && Over(s, c) && NoneBegins(s, actions, c)
    ensures c < |Run(s, actions).conns| && Over(Run(s, actions), c)
    ensures forall id :: id in Run(s, actions).conns[c].pending <==>
      id in s.conns[c].pending && forall k: nat :: !ResolvedAt(s, actions, k, c, id)
    decreases |actions|
  {
    if actions != [] {
      var before, n := actions[..|actions| - 1], |actions| - 1;
      var u := Run(s, before);
      forall k: nat, id: nat | k < n ensures ResolvedAt(s, actions, k, c, id) <==> ResolvedAt(s, before, k, c, id) {
        assert before[..k] == actions[..k];
      }
      forall k | 0 <= k < n ensures !Begins(Run(s, before[..k]), before[k], c) {
        assert before[..k] == actions[..k];
      }
      EntryStaysIff(s, before, c);
      RunKeepsInv(s, before);
      RunLast(s, actions);
      OverStays(u, actions[n], c);
      forall id: nat ensures ResolvedAt(s, actions, n, c, id) <==> Resolves(u, actions[n], c, id) {
      }
    }
  }

  /** A dropped request leaves its waiter behind. Once the requests of a connection are over and none
      begins, its map is empty again exactly when a response has come for each id left in it. */
  lemma EmptyAgainIff(s: State, actions: seq<Action>, c: nat)
    requires Inv(s) && c < |s.conns| && Over(s, c) && NoneBegins(s, actions, c)
    ensures c < |Run(s, actions).conns|
    ensures Run(s, actions).conns[c].pending == map[] <==>
      forall id :: id in s.conns[c].pending ==> exists k: nat :: ResolvedAt(s, actions, k, c, id)
  {
    EntryStaysIff(s, actions, c);
    var left := Run(s, actions).conns[c].pending;
    assert left == map[] <==> forall id :: id !in left;
  }

  /** What is left in the map was registered by a dropped request that no response has come for. */
  lemma LeftoversAreCancelled(s: State, c: nat, id: nat)
    requires Inv(s) && c < |s.conns| && Over(s, c) && id in s.conns[c].pending
    ensures var r := s.conns[c].pending[id];
      && r < |s.requests| && s.requests[r].phase == Cancelled
      && s.requests[r].conn == c && s.requests[r].id == Some(id) && s.requests[r].slot == Empty
  {
    WaiterIsWaiting(s, c, id);
  }

  // ---------- Responses over a replaced socket ----------

  /** The k-th action is a lookup of this response, and finds this connection. */
  ghost predicate LookedUpAt(s0: State, actions: seq<Action>, k: nat, from: nat, conn: nat, id: nat, payload: int) {
    && k < |actions| && actions[k].LookUp?
    && actions[k].from == from && actions[k].id == id && actions[k].payload == payload
    && var s := Run(s0, actions[..k]);
       actions[k].agent in s.current && s.current[actions[k].agent] == conn
  }

  ghost predicate WasLookedUp(s0: State, actions: seq<Action>, from: nat, conn: nat, id: nat, payload: int) {
    exists k: nat :: LookedUpAt(s0, actions, k, from, conn, id, payload)
  }

  lemma {:induction false} RunConcat(s: State, first: seq<Action>, rest: seq<Action>)
    ensures Run(s, first + rest) == Run(Run(s, first), rest)
    decreases |first|
  {
    if first == [] {
      assert first + rest == rest;
    } else {
      assert (first + rest)[1..] == first[1..] + rest;
      RunConcat(Apply(s, first[0]), first[1..], rest);
    }
  }

  lemma RunLast(s: State, actions: seq<Action>)
    requires actions != []
    ensures Run(s, actions) == Apply(Run(s, actions[..|actions| - 1]), actions[|actions| - 1])
  {
    var last := [actions[|actions| - 1]];
    assert actions == actions[..|actions| - 1] + last && last[1..] == [];
    RunConcat(s, actions[..|actions| - 1], last);
    assert Run(Run(s, actions[..|actions| - 1]), last) == Apply(Run(s, actions[..|actions| - 1]), last[0]);
  }

  lemma LookedUpStays(s0: State, actions: seq<Action>, a: Action, from: nat, conn: nat, id: nat, payload: int)
    requires WasLookedUp(s0, actions, from, conn, id, payload)
    ensures WasLookedUp(s0, actions + [a], from, conn, id, payload)
  {
    var k: nat :| LookedUpAt(s0, actions, k, from, conn, id, payload);
    assert (actions + [a])[..k] == actions[..k];
    assert LookedUpAt(s0, actions + [a], k, from, conn, id, payload);
  }

  ghost predicate Traced(s0: State, actions: seq<Action>, s: State) {
    && (forall x :: x in s.resolvers ==> WasLookedUp(s0, actions, x.from, x.conn, x.id, x.payload))
    && (forall d :: d in s.deliveries ==> WasLookedUp(s0, actions, d.from, d.conn, d.id, d.payload))
  }

  /** A resolver appears by a lookup, a delivery by a resolver. */
  lemma NewFromOld(s: State, a: Action)
    ensures var t := Apply(s, a);
      && (forall x :: x in t.resolvers && x !in s.resolvers ==>
            a.LookUp? && a.agent in s.current && x == Resolver(a.from, s.current[a.agent], a.id, a.payload))
      && (forall d :: d in t.deliveries && d !in s.deliveries ==>
            a.Resolve? && a.i < |s.resolvers| && var x := s.resolvers[a.i];
            d.from == x.from && d.conn == x.conn && d.id == x.id && d.payload == x.payload)
  {
    if a.Number? || a.Register? || a.Send? || a.CleanFailed? || a.Expire? || a.CleanExpired? || a.Take? || a.Cancel? {
      if a.r < |s.requests| && s.requests[a.r].conn < |s.conns| { RequestStepsDeliverNothing(s, a.r, a); }
    } else if a.Resolve? && a.i < |s.resolvers| && s.resolvers[a.i].conn < |s.conns| {
      var rest := s.resolvers[..a.i] + s.resolvers[a.i + 1..];
      assert forall x :: x in rest ==> x in s.resolvers;
      assert Apply(s, a).resolvers == rest;
    }
  }

  lemma RequestStepsDeliverNothing(s: State, r: nat, a: Action)
    requires r < |s.requests| && s.requests[r].conn < |s.conns|
    ensures RequestStep(s, r, a).resolvers == s.resolvers && RequestStep(s, r, a).deliveries == s.deliveries
  {
  }

  lemma {:induction false} RunIsTraced(s0: State, actions: seq<Action>)
    requires Init(s0)
    ensures Traced(s0, actions, Run(s0, actions))
    decreases |actions|
  {
    if actions != [] {
      var before, a := actions[..|actions| - 1], actions[|actions| - 1];
      var s := Run(s0, before);
      assert actions == before + [a];
      RunIsTraced(s0, before);
      RunLast(s0, actions);
      NewFromOld(s, a);
      var t := Apply(s, a);
      forall x | x in t.resolvers ensures WasLookedUp(s0, actions, x.from, x.conn, x.id, x.payload) {
        if x in s.resolvers {
          LookedUpStays(s0, before, a, x.from, x.conn, x.id, x.payload);
        } else {
          assert LookedUpAt(s0, actions, |before|, x.from, x.conn, x.id, x.payload);
        }
      }
      forall d | d in t.deliveries ensures WasLookedUp(s0, actions, d.from, d.conn, d.id, d.payload) {
        LookedUpStays(s0, before, a, d.from, d.conn, d.id, d.payload);
      }
    }
  }

  /** Each delivery goes back to its own lookup, and reaches a request of the connection that carried
      it exactly when that connection was then the agent's live one - whatever else the run did. */
  lemma DeliveryStaysOnItsConnectionIff(s0: State, actions: seq<Action>, d: Delivery)
    requires Init(s0)
    requires d in Run(s0, actions).deliveries
    ensures exists k: nat :: LookedUpAt(s0, actions, k, d.from, d.conn, d.id, d.payload)
    ensures forall k: nat :: LookedUpAt(s0, actions, k, d.from, d.conn, d.id, d.payload) ==>
      && d.request < |Run(s0, actions).requests|
      && (Run(s0, actions).requests[d.request].conn == d.from <==>
            Run(s0, actions[..k]).current[actions[k].agent] == d.from)
  {
    RunIsTraced(s0, actions);
    assert WasLookedUp(s0, actions, d.from, d.conn, d.id, d.payload);
    ResponsesReachTheirRequest(s0, actions);
  }

  /** Every response is looked up while the connection that carried it is the live one. */
  ghost predicate Prompt(s0: State, actions: seq<Action>) {
    forall k :: 0 <= k < |actions| ==> PromptStep(Run(s0, actions[..k]), actions[k])
  }

  predicate PromptStep(s: State, a: Action) {
    a.LookUp? && a.agent in s.current ==> s.current[a.agent] == a.from
  }

  /** In particular, where every lookup is prompt no response leaves its connection. */
  lemma PromptResponsesStayOnTheirConnection(s0: State, actions: seq<Action>, d: Delivery)
    requires Init(s0)
    requires Prompt(s0, actions) && d in Run(s0, actions).deliveries
    ensures d.request < |Run(s0, actions).requests| && Run(s0, actions).requests[d.request].conn == d.from
  {
    DeliveryStaysOnItsConnectionIff(s0, actions, d);
    var k: nat :| LookedUpAt(s0, actions, k, d.from, d.conn, d.id, d.payload);
    assert PromptStep(Run(s0, actions[..k]), actions[k]);
  }

  // ---------- Why a request returned what it did ----------

  /** Its frame could not be sent: the connection's writer was closed. */
  predicate SendFails(s: State, a: Action, r: nat) {
    && a == Send(r) && r < |s.requests| && s.requests[r].phase == Registered
    && s.requests[r].conn < |s.conns| && !s.conns[s.requests[r].conn].writerOpen
  }

  /** Its timer fired while no answer was there. */
  predicate TimesOut(s: State, a: Action, r: nat) {
    && a == Expire(r) && r < |s.requests| && s.requests[r].phase == Awaiting && s.requests[r].slot == Empty
    && s.requests[r].conn < |s.conns|
  }

  predicate WentOffline(p: Phase) {
    p == SendFailed || p == Done(Offline)
  }

  predicate RanOut(p: Phase) {
    p == Expired || p == Done(TimedOut)
  }

  /** A request's own steps are the only ones that move its phase. */
  lemma OthersLeavePhase(s: State, a: Action, r: nat)
    requires r < |s.requests|
    requires a.Connect? || a.Disconnect? || a.CloseWriter? || a.Begin? || a.LookUp? || a.Resolve? || a.r != r
    ensures r < |Apply(s, a).requests| && Apply(s, a).requests[r].phase == s.requests[r].phase
  {
  }

  lemma PhaseMoves(s: State, a: Action, r: nat)
    requires r < |s.requests|
    ensures r < |Apply(s, a).requests|
    ensures var p, q := s.requests[r].phase, Apply(s, a).requests[r].phase;
      && (WentOffline(q) ==> WentOffline(p) || SendFails(s, a, r)) && (SendFails(s, a, r) ==> WentOffline(q))
      && (RanOut(q) ==> RanOut(p) || TimesOut(s, a, r)) && (TimesOut(s, a, r) ==> RanOut(q))
      && (WentOffline(p) ==> WentOffline(q) || q == Cancelled) && (RanOut(p) ==> RanOut(q) || q == Cancelled)
      && (p == Cancelled ==> q == Cancelled)
  {
    if !(a.Connect? || a.Disconnect? || a.CloseWriter? || a.Begin? || a.LookUp? || a.Resolve?) && a.r == r {
    } else {
      OthersLeavePhase(s, a, r);
    }
  }

  ghost predicate SendFailedAt(s0: State, actions: seq<Action>, k: nat, r: nat) {
    k < |actions| && SendFails(Run(s0, actions[..k]), actions[k], r)
  }

  ghost predicate TimedOutAt(s0: State, actions: seq<Action>, k: nat, r: nat) {
    k < |actions| && TimesOut(Run(s0, actions[..k]), actions[k], r)
  }

  lemma {:induction false} OfflineIsEarned(s0: State, actions: seq<Action>, r: nat)
    requires Init(s0) && r < |Run(s0, actions).requests|
    ensures var p := Run(s0, actions).requests[r].phase;
      && (WentOffline(p) ==> exists k: nat :: SendFailedAt(s0, actions, k, r))
      && ((exists k: nat :: SendFailedAt(s0, actions, k, r)) ==> WentOffline(p) || p == Cancelled)
    decreases |actions|
  {
    if actions != [] {
      var before, n := actions[..|actions| - 1], |actions| - 1;
      var s := Run(s0, before);
      RunLast(s0, actions);
      forall k: nat | k < n ensures SendFailedAt(s0, actions, k, r) <==> SendFailedAt(s0, before, k, r) {
        assert before[..k] == actions[..k];
      }
      assert SendFailedAt(s0, actions, n, r) <==> SendFails(s, actions[n], r);
      if r < |s.requests| {
        OfflineIsEarned(s0, before, r);
        PhaseMoves(s, actions[n], r);
      } else {
        NotYetBegun(s0, before, r);
        NewRequestHolds(s, actions[n], r);
      }
    }
  }

  lemma {:induction false} TimeoutIsEarned(s0: State, actions: seq<Action>, r: nat)
    requires Init(s0) && r < |Run(s0, actions).requests|
    ensures var p := Run(s0, actions).requests[r].phase;
      && (RanOut(p) ==> exists k: nat :: TimedOutAt(s0, actions, k, r))
      && ((exists k: nat :: TimedOutAt(s0, actions, k, r)) ==> RanOut(p) || p == Cancelled)
    decreases |actions|
  {
    if actions != [] {
      var before, n := actions[..|actions| - 1], |actions| - 1;
      var s := Run(s0, before);
      RunLast(s0, actions);
      forall k: nat | k < n ensures TimedOutAt(s0, actions, k, r) <==> TimedOutAt(s0, before, k, r) {
        assert before[..k] == actions[..k];
      }
      assert TimedOutAt(s0, actions, n, r) <==> TimesOut(s, actions[n], r);
      if r < |s.requests| {
        TimeoutIsEarned(s0, before, r);
        PhaseMoves(s, actions[n], r);
      } else {
        NotYetBegun(s0, before, r);
        NewRequestHolds(s, actions[n], r);
      }
    }
  }

  lemma NewRequestHolds(s: State, a: Action, r: nat)
    requires |s.requests| <= r < |Apply(s, a).requests|
    ensures Apply(s, a).requests[r].phase == Holding
  {
  }

  lemma {:induction false} RequestsOnlyGrow(s: State, actions: seq<Action>)
    ensures |s.requests| <= |Run(s, actions).requests|
    decreases |actions|
  {
    if actions != [] {
      RequestsOnlyGrow(Apply(s, actions[0]), actions[1..]);
    }
  }

  lemma NotYetBegun(s0: State, actions: seq<Action>, r: nat)
    requires r >= |Run(s0, actions).requests|
    ensures forall k: nat :: !SendFailedAt(s0, actions, k, r) && !TimedOutAt(s0, actions, k, r)
  {
    forall k: nat | k < |actions| ensures r >= |Run(s0, actions[..k]).requests| {
      assert actions == actions[..k] + actions[k..];
      RunConcat(s0, actions[..k], actions[k..]);
      RequestsOnlyGrow(Run(s0, actions[..k]), actions[k..]);
    }
  }

  /** A request that has returned says `Offline` exactly if its frame could not be sent, `TimedOut`
      exactly if its timer fired before an answer was there, and otherwise carries its answer. */
  lemma OutcomeIsEarned(s0: State, actions: seq<Action>, r: nat)
    requires Init(s0)
    requires r < |Run(s0, actions).requests| && Run(s0, actions).requests[r].phase.Done?
    ensures var outcome := Run(s0, actions).requests[r].phase.outcome;
      && (outcome == Offline <==> exists k: nat :: SendFailedAt(s0, actions, k, r))
      && (outcome == TimedOut <==> exists k: nat :: TimedOutAt(s0, actions, k, r))
      && (outcome.Response? <==> outcome != Offline && outcome != TimedOut)
  {
    OfflineIsEarned(s0, actions, r);
    TimeoutIsEarned(s0, actions, r);
    ReturnedRequestsAreSettled(s0, actions, r);
  }

  /** Left to itself a request returns, in at most a few steps of its own and a timer: with the answer
      if one has come, and otherwise offline or timed out, leaving its map without it. */
  lemma {:induction false} RequestsReturn(s: State, r: nat) returns (actions: seq<Action>)
    requires Inv(s) && r < |s.requests| && s.requests[r].phase != Cancelled
    ensures forall a :: a in actions ==>
      a in {Number(r), Register(r), Send(r), CleanFailed(r), Expire(r), CleanExpired(r), Take(r)}
    ensures r < |Run(s, actions).requests| && Run(s, actions).requests[r].phase.Done?
    ensures var q := s.requests[r];
      && (q.phase.Done? ==> actions == [])
      && q.conn < |s.conns|
      && (q.slot.Filled? && (q.phase == Awaiting || (q.phase == Registered && s.conns[q.conn].writerOpen)) ==>
            Run(s, actions).requests[r].phase == Done(Response(q.slot.payload)))
    decreases Ahead(s.requests[r].phase)
  {
    assert RequestOk(s.conns, r, s.requests[r]);
    var q := s.requests[r];
    if q.phase.Done? {
      actions := [];
    } else {
      var a := NextOwn(q, r);
      StepKeepsInv(s, a);
      OwnStepAdvances(s, r);
      var rest := RequestsReturn(Apply(s, a), r);
      actions := [a] + rest;
      assert actions[1..] == rest;
    }
  }

  function Ahead(p: Phase): nat {
    match p
    case Holding => 6
    case Numbered => 5
    case Registered => 4
    case Awaiting => 3
    case SendFailed => 1
    case Expired => 1
    case Cancelled => 0
    case Done(_) => 0
  }

  function NextOwn(q: Request, r: nat): Action
    requires !q.phase.Done? && q.phase != Cancelled
  {
    match q.phase
    case Holding => Number(r)
    case Numbered => Register(r)
    case Registered => Send(r)
    case SendFailed => CleanFailed(r)
    case Expired => CleanExpired(r)
    case Awaiting => if q.slot.Filled? then Take(r) else Expire(r)
  }

  lemma OwnStepAdvances(s: State, r: nat)
    requires Inv(s) && r < |s.requests| && s.requests[r].phase != Cancelled && !s.requests[r].phase.Done?
    ensures var q := s.requests[r];
      var t := Apply(s, NextOwn(q, r));
      && r < |t.requests| && q.conn < |s.conns| == |t.conns| && t.requests[r].conn == q.conn
      && t.requests[r].phase != Cancelled && Ahead(t.requests[r].phase) < Ahead(q.phase)
      && t.requests[r].slot == q.slot && t.conns[q.conn].writerOpen == s.conns[q.conn].writerOpen
      && (q.phase == Awaiting && q.slot.Filled? ==> t.requests[r].phase == Done(Response(q.slot.payload)))
      && (q.phase == Registered && s.conns[q.conn].writerOpen ==> t.requests[r].phase == Awaiting)
  {
    var q := s.requests[r];
    assert RequestOk(s.conns, r, q);
    if q.phase == Numbered { assert DropWaiter(s, q.conn, q.id.value) == s; }
  }

  /** Dropping a request that waits leaves its waiter in the map, and closing a connection's writer
      makes every later send on it fail. */
  lemma DroppedOrClosed(s: State, r: nat, c: nat)
    requires Inv(s) && r < |s.requests| && c < |s.conns|
    ensures Awaits(s.requests[r].phase) ==>
      var t := Apply(s, Cancel(r)); t.requests[r].phase == Cancelled && t.conns == s.conns
    ensures s.requests[r].phase == Registered && s.requests[r].conn == c ==>
      Apply(Apply(s, CloseWriter(c)), Send(r)).requests[r].phase == SendFailed
  {
    assert RequestOk(s.conns, r, s.requests[r]);
  }

  // ---------- Sockets that end after they were replaced ----------

  /** A connection is its agent's live one for as long as nobody disconnects the agent - whichever
      socket it is that ends. */
  lemma {:induction false} OnlineUntilDisconnectedIff(s: State, agent: nat, conn: nat, actions: seq<Action>)
    requires agent in s.current && s.current[agent] == conn
    requires forall a :: a in actions && a.Connect? ==> a.agent != agent
    ensures (agent in Run(s, actions).current && Run(s, actions).current[agent] == conn) <==>
            forall a :: a in actions && a.Disconnect? ==> a.agent != agent
    decreases |actions|
  {
    if actions != [] {
      var a := actions[0];
      assert actions == [a] + actions[1..];
      if a.Disconnect? && a.agent == agent {
        OfflineStays(Apply(s, a), agent, actions[1..]);
      } else {
        OnlineUntilDisconnectedIff(Apply(s, a), agent, conn, actions[1..]);
      }
    }
  }

  lemma {:induction false} OfflineStays(s: State, agent: nat, actions: seq<Action>)
    requires agent !in s.current && forall a :: a in actions && a.Connect? ==> a.agent != agent
    ensures agent !in Run(s, actions).current
    decreases |actions|
  {
    if actions != [] {
      OfflineStays(Apply(s, actions[0]), agent, actions[1..]);
    }
  }

  /** The socket a reconnect replaces is told to close, and on its way out disconnects the agent:
      the successor, whose own socket is still open, goes offline with it. */
  lemma ReplacedSocketTakesSuccessorOffline(s0: State, agent: nat)
    requires Init(s0)
    ensures var s := Run(s0, [Connect(agent), Connect(agent), Disconnect(agent, 0)]);
      |s.conns| == 2 && s.conns[1].writerOpen && agent !in s.current
    ensures Run(s0, [Connect(agent), Connect(agent)]).current == map[agent := 1]
  {
    var s := Apply(Apply(s0, Connect(agent)), Connect(agent));
    RunTwo(s0, Connect(agent), Connect(agent));
    RunConcat(s0, [Connect(agent), Connect(agent)], [Disconnect(agent, 0)]);
    assert [Disconnect(agent, 0)][1..] == [];
    assert [Connect(agent), Connect(agent)] + [Disconnect(agent, 0)] ==
           [Connect(agent), Connect(agent), Disconnect(agent, 0)];
    assert Run(s, [Disconnect(agent, 0)]) == Apply(s, Disconnect(agent, 0));
  }

  // ---------- A run that answers the wrong request ----------

  lemma RunTwo(s: State, a: Action, b: Action)
    ensures Run(s, [a, b]) == Apply(Apply(s, a), b)
  {
    assert [a, b][1..] == [b] && [b][1..] == [];
    assert Run(Apply(s, a), [b]) == Apply(Apply(s, a), b);
  }

  /** The agent's live connection has drawn no id yet; its one request has `phase`. */
  function Asked(s: State, c: nat, conn: Conn, id: Option<nat>, phase: Phase): State
    requires c < |s.conns|
  {
    s.(conns := s.conns[c := conn], requests := s.requests + [Request(c, id, phase, Empty)])
  }

  lemma AskSteps(s: State, agent: nat, c: nat)
    requires agent in s.current && s.current[agent] == c < |s.conns| && s.conns[c] == Conn(map[], [], true)
    ensures var r := |s.requests|;
      && Apply(s, Begin(agent)) == Asked(s, c, s.conns[c], None, Holding)
      && Apply(Asked(s, c, s.conns[c], None, Holding), Number(r)) ==
         Asked(s, c, Conn(map[], [r], true), Some(0), Numbered)
  {
    assert s.conns[c := s.conns[c]] == s.conns;
    var r, t := |s.requests|, Asked(s, c, s.conns[c], None, Holding);
    assert t.requests[r := Request(c, Some(0), Numbered, Empty)] == s.requests + [Request(c, Some(0), Numbered, Empty)];
    assert [] + [r] == [r];
    assert Apply(t, Number(r)) == RequestStep(t, r, Number(r));
  }

  lemma SendSteps(s: State, c: nat)
    requires c < |s.conns|
    ensures var r := |s.requests|;
      && Apply(Asked(s, c, Conn(map[], [r], true), Some(0), Numbered), Register(r)) ==
         Asked(s, c, Conn(map[0 := r], [r], true), Some(0), Registered)
      && Apply(Asked(s, c, Conn(map[0 := r], [r], true), Some(0), Registered), Send(r)) ==
         Asked(s, c, Conn(map[0 := r], [r], true), Some(0), Awaiting)
  {
  }

  function Ask(agent: nat, r: nat): seq<Action> {
    [Begin(agent), Number(r)] + [Register(r), Send(r)]
  }

  /** One request by the agent's live connection, sent and waiting. */
  lemma AskRun(s: State, agent: nat, c: nat)
    requires agent in s.current && s.current[agent] == c < |s.conns| && s.conns[c] == Conn(map[], [], true)
    ensures var r := |s.requests|;
      Run(s, Ask(agent, r)) == Asked(s, c, Conn(map[0 := r], [r], true), Some(0), Awaiting)
  {
    var r := |s.requests|;
    AskSteps(s, agent, c);
    SendSteps(s, c);
    RunTwo(s, Begin(agent), Number(r));
    RunTwo(Asked(s, c, Conn(map[], [r], true), Some(0), Numbered), Register(r), Send(r));
    RunConcat(s, [Begin(agent), Number(r)], [Register(r), Send(r)]);
  }

  /** Two connections of the agent, each with its request 0 waiting. */
  function Reconnected(agent: nat): State {
    State([Conn(map[0 := 0], [0], true), Conn(map[0 := 1], [1], true)], map[agent := 1],
          [Request(0, Some(0), Awaiting, Empty), Request(1, Some(0), Awaiting, Empty)], [], [])
  }

  lemma ReconnectRun(s0: State, agent: nat) returns (actions: seq<Action>)
    requires Init(s0)
    ensures Run(s0, actions) == Reconnected(agent)
  {
    var connect := [Connect(agent)];
    assert connect[1..] == [];
    var s1 := Apply(s0, Connect(agent));
    AskRun(s1, agent, 0);
    var s2 := Run(s1, Ask(agent, 0));
    assert s2.conns == [Conn(map[0 := 0], [0], true)];
    var s3 := Apply(s2, Connect(agent));
    AskRun(s3, agent, 1);
    actions := connect + Ask(agent, 0) + connect + Ask(agent, 1);
    RunConcat(s0, connect, Ask(agent, 0));
    RunConcat(s0, connect + Ask(agent, 0), connect);
    RunConcat(s0, connect + Ask(agent, 0) + connect, Ask(agent, 1));
    assert Run(s3, Ask(agent, 1)).current == map[agent := 1];
  }

  /** Ids restart at 0 with each connection: an answer read late from the old socket is looked up
      under the agent, and so goes to the new connection's request of that id. */
  lemma StaleSocketAnswersTheWrongRequest(s0: State, agent: nat, payload: int) returns (actions: seq<Action>)
    requires Init(s0)
    ensures var s := Run(s0, actions);
      && |s.requests| == 2 && s.requests[0].conn == 0 && s.requests[1].conn == 1
      && s.deliveries == [Delivery(1, 0, 1, 0, payload)]
      && s.requests[0].slot == Empty && s.requests[1].slot == Filled(payload)
  {
    var before := ReconnectRun(s0, agent);
    var answer := [LookUp(agent, 0, 0, payload), Resolve(0)];
    actions := before + answer;
    RunConcat(s0, before, answer);
    StaleAnswer(agent, payload);
  }

  lemma StaleAnswer(agent: nat, payload: int)
    ensures Run(Reconnected(agent), [LookUp(agent, 0, 0, payload), Resolve(0)]) ==
            Resolved(Reconnected(agent), Resolver(0, 1, 0, payload))
  {
    var s, x := Reconnected(agent), Resolver(0, 1, 0, payload);
    RunTwo(s, LookUp(agent, 0, 0, payload), Resolve(0));
    assert Apply(s, LookUp(agent, 0, 0, payload)) == s.(resolvers := [x]);
    assert [x][..0] + [x][1..] == [];
  }
}
