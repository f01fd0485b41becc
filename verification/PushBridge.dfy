// The cross-pod relay of server-to-client pushes (crates/catalerum-api/src/mcp_push_bridge.rs).

module PushBridge {
  import opened Collections

  /** A serialized notification. `id` tells one push from another; no step looks at it. */
  datatype Message = Message(id: nat, text: string)
  datatype Envelope = Envelope(origin: nat, workspace: nat, message: Message)
  datatype Delivery = Delivery(workspace: nat, message: Message)

  function Delivered(hub: seq<Delivery>, workspace: nat, message: Message): seq<Delivery> {
    hub + [Delivery(workspace, message)]
  }

  /** The relay task a publish leaves behind. */
  function Spawned(outbox: seq<Envelope>, origin: nat, workspace: nat, message: Message): seq<Envelope> {
    outbox + [Envelope(origin, workspace, message)]
  }

  /** What one pod's hub shows after a relayed envelope: its own are skipped, they were delivered
      when published. */
  function Forwarded(origin: nat, hub: seq<Delivery>, e: Envelope): seq<Delivery> {
    if e.origin == origin then hub else Delivered(hub, e.workspace, e.message)
  }

  class McpPushBridge {
    var hub: seq<Delivery>
    var streams: map<nat, nat> // open client streams by workspace
    var outbox: seq<Envelope> // spawned relay tasks the bus has not taken yet
    const origin: nat

    constructor (origin: nat)
      ensures this.origin == origin && hub == [] && outbox == [] && streams == map[]
    {
      this.origin := origin;
      hub, outbox, streams := [], [], map[];
    }

    method Deliver(workspace: nat, message: Message) returns (reached: nat)
      modifies this`hub
      ensures hub == Delivered(old(hub), workspace, message)
      ensures reached == if workspace in streams then streams[workspace] else 0
    {
      hub := hub + [Delivery(workspace, message)];
      reached := 0;
      if workspace in streams {
        reached := streams[workspace];
      }
    }

    /** `json` is absent when the notification does not serialize. */
    method Publish(workspace: nat, json: Option<Message>) returns (delivered: nat)
      modifies this`hub, this`outbox
      ensures json.None? ==> delivered == 0 && hub == old(hub) && outbox == old(outbox)
      ensures json.Some? ==>
        && hub == Delivered(old(hub), workspace, json.value)
        && outbox == Spawned(old(outbox), origin, workspace, json.value)
        && delivered == if workspace in streams then streams[workspace] else 0
    {
      if json.None? {
        return 0;
      }
      delivered := Deliver(workspace, json.value);
      RelayToBus(workspace, json.value);
    }

    method RelayToBus(workspace: nat, message: Message)
      modifies this`outbox
      ensures outbox == Spawned(old(outbox), origin, workspace, message)
    {
      outbox := outbox + [Envelope(origin, workspace, message)];
    }

    /** `decoded` is absent for bytes that are no envelope. */
    method Forward(decoded: Option<Envelope>)
      modifies this`hub
      ensures hub == match decoded case None => old(hub) case Some(e) => Forwarded(origin, old(hub), e)
    {
      if decoded.None? {
        return;
      }
      var envelope := decoded.value;
      if envelope.origin == origin {
        return;
      }
      var _ := Deliver(envelope.workspace, envelope.message);
    }
  }

  // ---------- Many pods over one bus ----------

  datatype Pod = Pod(origin: nat, subscribed: bool, inbox: seq<Envelope>, hub: seq<Delivery>)
  datatype Push = Push(pod: nat, workspace: nat, text: string)
  datatype State = State(pods: seq<Pod>, outbox: seq<Envelope>, pushes: seq<Push>, sent: nat, failed: nat)

  datatype Action =
    | Publish(p: nat, workspace: nat, text: string)
    | Relay(task: nat)
    | FailRelay(task: nat)
    | Receive(p: nat)
    | Lose(p: nat, item: nat)
    | Unsubscribe(p: nat)
    | Subscribe(p: nat)

  function Without<T>(s: seq<T>, i: nat): seq<T>
    requires i < |s|
  {
    s[..i] + s[i + 1..]
  }

  function Accept(pod: Pod, e: Envelope): Pod {
    if pod.subscribed then pod.(inbox := pod.inbox + [e]) else pod
  }

  /** The bus hands an envelope to every current subscriber; there is no backlog. */
  function Broadcast(pods: seq<Pod>, e: Envelope): (r: seq<Pod>)
    ensures |r| == |pods| && forall q :: 0 <= q < |pods| ==> r[q] == Accept(pods[q], e)
  {
    seq(|pods|, q requires 0 <= q < |pods| => Accept(pods[q], e))
  }

  function Published(s: State, p: nat, workspace: nat, text: string): State
    requires p < |s.pods|
  {
    var pod, message := s.pods[p], Message(|s.pushes|, text);
    s.(pods := s.pods[p := pod.(hub := Delivered(pod.hub, workspace, message))],
       outbox := Spawned(s.outbox, pod.origin, workspace, message),
       pushes := s.pushes + [Push(p, workspace, text)])
  }

  function PodStep(pod: Pod, a: Action): Pod {
    match a
    case Receive(_) =>
      if pod.inbox == [] then pod
      else pod.(inbox := pod.inbox[1..], hub := Forwarded(pod.origin, pod.hub, pod.inbox[0]))
    case Lose(_, item) => if item < |pod.inbox| then pod.(inbox := Without(pod.inbox, item)) else pod
    case Unsubscribe(_) => pod.(subscribed := false, inbox := [])
    case Subscribe(_) => pod.(subscribed := true)
    case _ => pod
  }

  function Apply(s: State, a: Action): State {
    match a
    case Publish(p, workspace, text) => if p < |s.pods| then Published(s, p, workspace, text) else s
    case Relay(task) =>
      if task < |s.outbox|
      then s.(outbox := Without(s.outbox, task), pods := Broadcast(s.pods, s.outbox[task]), sent := s.sent + 1)
      else s
    case FailRelay(task) =>
      if task < |s.outbox| then s.(outbox := Without(s.outbox, task), failed := s.failed + 1) else s
    case _ => if a.p < |s.pods| then s.(pods := s.pods[a.p := PodStep(s.pods[a.p], a)]) else s
  }

  function Run(s: State, actions: seq<Action>): State
    decreases |actions|
  {
    if actions == [] then s else Run(Apply(s, actions[0]), actions[1..])
  }

  ghost predicate Init(s: State) {
    && s.outbox == [] && s.pushes == [] && s.sent == 0 && s.failed == 0
    && forall p :: 0 <= p < |s.pods| ==> s.pods[p].inbox == [] && s.pods[p].hub == []
  }

  // ---------- Counting copies ----------

  /** An envelope that will be delivered, once, to a pod with this origin if nothing loses it. */
  function Owed(id: nat, origin: nat, e: Envelope): nat {
    if e.message.id == id && e.origin != origin then 1 else 0
  }

  function Shown(id: nat, d: Delivery): nat {
    if d.message.id == id then 1 else 0
  }

  /** How often a push was delivered to a hub. */
  function Times(id: nat, hub: seq<Delivery>): nat {
    Sum((d: Delivery) => Shown(id, d), hub)
  }

  function Waiting(id: nat, origin: nat, es: seq<Envelope>): nat {
    Sum((e: Envelope) => Owed(id, origin, e), es)
  }

  /** Deliveries made and deliveries still owed to a pod. */
  function Copies(id: nat, outbox: seq<Envelope>, pod: Pod): nat {
    Waiting(id, pod.origin, outbox) + Waiting(id, pod.origin, pod.inbox) + Times(id, pod.hub)
  }

  /** The publisher shows its own push; any other pod gets it unless the two share a nonce. */
  function Due(s: State, id: nat, q: nat): nat
    requires q < |s.pods|
  {
    if id >= |s.pushes| then 0
    else
      var p := s.pushes[id].pod;
      if q == p then 1 else if p < |s.pods| && s.pods[q].origin != s.pods[p].origin then 1 else 0
  }

  // ---------- Invariant ----------

  ghost predicate Genuine(s: State, workspace: nat, m: Message) {
    && m.id < |s.pushes|
    && s.pushes[m.id].workspace == workspace && s.pushes[m.id].text == m.text
    && s.pushes[m.id].pod < |s.pods|
  }

  ghost predicate GenuineEnvelope(s: State, e: Envelope) {
    Genuine(s, e.workspace, e.message) && e.origin == s.pods[s.pushes[e.message.id].pod].origin
  }

  ghost predicate PodGenuine(s: State, pod: Pod) {
    && (forall e :: e in pod.inbox ==> GenuineEnvelope(s, e))
    && (forall d :: d in pod.hub ==> Genuine(s, d.workspace, d.message))
  }

  ghost predicate AtMostDue(s: State, q: nat)
    requires q < |s.pods|
  {
    forall id :: Copies(id, s.outbox, s.pods[q]) <= Due(s, id, q)
  }

  ghost predicate Inv(s: State) {
    && (forall e :: e in s.outbox ==> GenuineEnvelope(s, e))
    && (forall q :: 0 <= q < |s.pods| ==> PodGenuine(s, s.pods[q]))
    && (forall q :: 0 <= q < |s.pods| ==> AtMostDue(s, q))
    && s.sent + s.failed + |s.outbox| == |s.pushes|
  }

  /** A pod nothing was lost for. */
  ghost predicate ExactlyDue(s: State, q: nat) {
    q < |s.pods| && s.pods[q].subscribed && forall id :: Copies(id, s.outbox, s.pods[q]) == Due(s, id, q)
  }

  // ---------- What each step does to the copies ----------

  lemma AppendCopies(id: nat, outbox: seq<Envelope>, pod: Pod, e: Envelope, d: Delivery)
    ensures Copies(id, outbox + [e], pod) == Copies(id, outbox, pod) + Owed(id, pod.origin, e)
    ensures Copies(id, outbox, pod.(inbox := pod.inbox + [e])) == Copies(id, outbox, pod) + Owed(id, pod.origin, e)
    ensures Copies(id, outbox, pod.(hub := pod.hub + [d])) == Copies(id, outbox, pod) + Shown(id, d)
  {
    var owed, shown := (e: Envelope) => Owed(id, pod.origin, e), (d: Delivery) => Shown(id, d);
    SumConcat(owed, outbox, [e]);
    SumConcat(owed, pod.inbox, [e]);
    SumConcat(shown, pod.hub, [d]);
    SumOne(owed, e);
    SumOne(shown, d);
  }

  lemma RemoveCopies(id: nat, outbox: seq<Envelope>, pod: Pod, i: nat)
    ensures i < |outbox| ==>
      Copies(id, Without(outbox, i), pod) + Owed(id, pod.origin, outbox[i]) == Copies(id, outbox, pod)
    ensures i < |pod.inbox| ==>
      Copies(id, outbox, pod.(inbox := Without(pod.inbox, i))) + Owed(id, pod.origin, pod.inbox[i]) ==
      Copies(id, outbox, pod)
  {
    var owed := (e: Envelope) => Owed(id, pod.origin, e);
    if i < |outbox| { SumRemove(owed, outbox, i); }
    if i < |pod.inbox| { SumRemove(owed, pod.inbox, i); }
  }

  /** Receiving turns an owed copy into a delivered one: the skip is what was never owed. */
  lemma ReceiveCopies(id: nat, outbox: seq<Envelope>, pod: Pod)
    requires pod.inbox != []
    ensures Copies(id, outbox, PodStep(pod, Receive(0))) == Copies(id, outbox, pod)
  {
    var e := pod.inbox[0];
    RemoveCopies(id, outbox, pod, 0);
    assert Without(pod.inbox, 0) == pod.inbox[1..];
    AppendCopies(id, outbox, pod.(inbox := pod.inbox[1..]), e, Delivery(e.workspace, e.message));
  }

  lemma PodStepCopies(id: nat, outbox: seq<Envelope>, pod: Pod, a: Action)
    ensures Copies(id, outbox, PodStep(pod, a)) <= Copies(id, outbox, pod)
    ensures !a.Lose? && !a.Unsubscribe? ==> Copies(id, outbox, PodStep(pod, a)) == Copies(id, outbox, pod)
  {
    if a.Receive? && pod.inbox != [] {
      ReceiveCopies(id, outbox, pod);
      assert PodStep(pod, a) == PodStep(pod, Receive(0));
    } else if a.Lose? && a.item < |pod.inbox| {
      RemoveCopies(id, outbox, pod, a.item);
    } else if a.Unsubscribe? {
      assert Waiting(id, pod.origin, []) == 0;
    }
  }

  lemma RelayCopies(id: nat, outbox: seq<Envelope>, pod: Pod, task: nat)
    requires task < |outbox|
    ensures var after := Copies(id, Without(outbox, task), Accept(pod, outbox[task]));
      after <= Copies(id, outbox, pod) && (pod.subscribed ==> after == Copies(id, outbox, pod))
  {
    RemoveCopies(id, outbox, pod, task);
    AppendCopies(id, Without(outbox, task), pod, outbox[task], Delivery(0, Message(0, "")));
  }

  lemma PublishCopies(s: State, p: nat, workspace: nat, text: string, q: nat, id: nat)
    requires p < |s.pods| && q < |s.pods|
    ensures var t := Published(s, p, workspace, text);
      Copies(id, t.outbox, t.pods[q]) + Due(s, id, q) ==
      Copies(id, s.outbox, s.pods[q]) + Due(t, id, q)
  {
    var t, pod := Published(s, p, workspace, text), s.pods[q];
    var e, d := t.outbox[|s.outbox|], Delivery(workspace, Message(|s.pushes|, text));
    AppendCopies(id, s.outbox, pod, e, d);
    AppendCopies(id, t.outbox, pod, e, d);
  }

  // ---------- Each step keeps the invariant ----------

  lemma PublishKeepsInv(s: State, p: nat, workspace: nat, text: string)
    requires Inv(s) && p < |s.pods|
    ensures Inv(Published(s, p, workspace, text))
  {
    var t := Published(s, p, workspace, text);
    forall w, m | Genuine(s, w, m) ensures Genuine(t, w, m) {
    }
    forall e | e in t.outbox ensures GenuineEnvelope(t, e) {
      assert e in s.outbox ==> GenuineEnvelope(s, e);
    }
    forall q | 0 <= q < |t.pods| ensures PodGenuine(t, t.pods[q]) && AtMostDue(t, q) {
      assert PodGenuine(s, s.pods[q]) && AtMostDue(s, q);
      forall e | e in t.pods[q].inbox ensures GenuineEnvelope(t, e) {
        assert GenuineEnvelope(s, e);
      }
      forall id ensures Copies(id, t.outbox, t.pods[q]) <= Due(t, id, q) {
        PublishCopies(s, p, workspace, text, q, id);
      }
    }
  }

  /** The steps that leave the pushes alone. */
  ghost predicate SamePushes(s: State, t: State) {
    && t.pushes == s.pushes && |t.pods| == |s.pods|
    && forall q :: 0 <= q < |s.pods| ==> t.pods[q].origin == s.pods[q].origin
  }

  lemma GenuineStays(s: State, t: State)
    requires SamePushes(s, t)
    ensures forall w, m :: Genuine(s, w, m) ==> Genuine(t, w, m)
    ensures forall e :: GenuineEnvelope(s, e) ==> GenuineEnvelope(t, e)
    ensures forall q, id :: 0 <= q < |s.pods| ==> Due(t, id, q) == Due(s, id, q)
  {
  }

  lemma PodStepGenuine(s: State, pod: Pod, a: Action)
    requires PodGenuine(s, pod)
    ensures PodGenuine(s, PodStep(pod, a))
  {
    if a.Receive? && pod.inbox != [] {
      assert GenuineEnvelope(s, pod.inbox[0]);
    }
  }

  lemma PodStepKeepsInv(s: State, a: Action)
    requires Inv(s) && !a.Publish? && !a.Relay? && !a.FailRelay? && a.p < |s.pods|
    ensures Inv(Apply(s, a))
  {
    var t := Apply(s, a);
    GenuineStays(s, t);
    PodStepGenuine(s, s.pods[a.p], a);
    forall q | 0 <= q < |t.pods| ensures PodGenuine(t, t.pods[q]) && AtMostDue(t, q) {
      assert PodGenuine(s, s.pods[q]) && AtMostDue(s, q);
      forall id ensures Copies(id, t.outbox, t.pods[q]) <= Due(t, id, q) {
        PodStepCopies(id, s.outbox, s.pods[a.p], a);
      }
    }
  }

  lemma TaskKeepsInv(s: State, task: nat)
    requires Inv(s) && task < |s.outbox|
    ensures Inv(Apply(s, Relay(task))) && Inv(Apply(s, FailRelay(task)))
  {
    var t, u := Apply(s, Relay(task)), Apply(s, FailRelay(task));
    GenuineStays(s, t);
    GenuineStays(s, u);
    assert GenuineEnvelope(s, s.outbox[task]);
    forall q | 0 <= q < |s.pods|
      ensures PodGenuine(t, t.pods[q]) && AtMostDue(t, q) && PodGenuine(u, u.pods[q]) && AtMostDue(u, q)
    {
      assert PodGenuine(s, s.pods[q]) && AtMostDue(s, q);
      forall id ensures Copies(id, t.outbox, t.pods[q]) <= Due(t, id, q) {
        RelayCopies(id, s.outbox, s.pods[q], task);
      }
      forall id ensures Copies(id, u.outbox, u.pods[q]) <= Due(u, id, q) {
        RemoveCopies(id, s.outbox, s.pods[q], task);
      }
    }
  }

  lemma StepKeepsInv(s: State, a: Action)
    requires Inv(s)
    ensures Inv(Apply(s, a))
  {
    match a
    case Publish(p, workspace, text) => if p < |s.pods| { PublishKeepsInv(s, p, workspace, text); }
    case Relay(task) => if task < |s.outbox| { TaskKeepsInv(s, task); }
    case FailRelay(task) => if task < |s.outbox| { TaskKeepsInv(s, task); }
    case _ => if a.p < |s.pods| { PodStepKeepsInv(s, a); }
  }

  // ---------- Nothing lost, everything delivered ----------

  /** The step loses nothing for pod q. */
  predicate LosesNothing(q: nat, a: Action) {
    !a.FailRelay? && ((a.Lose? || a.Unsubscribe?) ==> a.p != q)
  }

  lemma StepKeepsExact(s: State, a: Action, q: nat)
    requires ExactlyDue(s, q) && LosesNothing(q, a)
    ensures ExactlyDue(Apply(s, a), q)
  {
    var t := Apply(s, a);
    if t != s {
      forall id ensures Copies(id, t.outbox, t.pods[q]) == Due(t, id, q) {
        if a.Publish? {
          PublishCopies(s, a.p, a.workspace, a.text, q, id);
        } else if a.Relay? {
          RelayCopies(id, s.outbox, s.pods[q], a.task);
          GenuineStays(s, t);
        } else {
          PodStepCopies(id, s.outbox, s.pods[a.p], a);
          GenuineStays(s, t);
        }
      }
    }
  }

  lemma {:induction false} RunKeepsInv(s: State, actions: seq<Action>)
    requires Inv(s)
    ensures Inv(Run(s, actions))
    decreases |actions|
  {
    if actions != [] {
      StepKeepsInv(s, actions[0]);
      RunKeepsInv(Apply(s, actions[0]), actions[1..]);
    }
  }

  lemma {:induction false} RunKeepsExact(s: State, actions: seq<Action>, q: nat)
    requires ExactlyDue(s, q) && forall a :: a in actions ==> LosesNothing(q, a)
    ensures ExactlyDue(Run(s, actions), q)
    decreases |actions|
  {
    if actions != [] {
      StepKeepsExact(s, actions[0], q);
      RunKeepsExact(Apply(s, actions[0]), actions[1..], q);
    }
  }

  // ---------- Main results ----------

  /** In every run, whatever is lost, and even where pods share a nonce: a push
      reaches a pod's hub at most once, as it was published and in its own workspace, and the bus
      carries no more messages than were published. */
  lemma AtMostOnce(s0: State, actions: seq<Action>, q: nat, id: nat)
    requires Init(s0) && q < |Run(s0, actions).pods|
    ensures var s := Run(s0, actions);
      && Times(id, s.pods[q].hub) <= 1
      && (forall d :: d in s.pods[q].hub ==> Genuine(s, d.workspace, d.message))
      && s.sent + s.failed + |s.outbox| == |s.pushes|
  {
    RunKeepsInv(s0, actions);
    var s := Run(s0, actions);
    assert AtMostDue(s, q) && PodGenuine(s, s.pods[q]);
    assert Copies(id, s.outbox, s.pods[q]) <= Due(s, id, q);
  }

  /** Once the relay tasks have run and a pod that lost nothing has drained its queue, every push
      has reached it exactly once, except one by another pod under the very same nonce, which has
      not reached it at all. */
  lemma DrainedMeansDelivered(s0: State, actions: seq<Action>, q: nat, id: nat)
    requires Init(s0) && q < |s0.pods| && s0.pods[q].subscribed
    requires forall a :: a in actions ==> LosesNothing(q, a)
    requires var s := Run(s0, actions); q < |s.pods| && s.outbox == [] && s.pods[q].inbox == [] && id < |s.pushes|
    ensures var s := Run(s0, actions);
      && s.pushes[id].pod < |s.pods|
      && var own := q == s.pushes[id].pod;
         && Times(id, s.pods[q].hub) == (if own || s.pods[q].origin != s.pods[s.pushes[id].pod].origin then 1 else 0)
  {
    RunKeepsInv(s0, actions);
    RunKeepsExact(s0, actions, q);
    var s := Run(s0, actions);
    assert Copies(id, s.outbox, s.pods[q]) == Due(s, id, q);
    assert Waiting(id, s.pods[q].origin, []) == 0;
    PublishersExist(s0, actions);
  }

  lemma {:induction false} RunConcat(s: State, first: seq<Action>, rest: seq<Action>)
    ensures Run(s, first + rest) == Run(Run(s, first), rest)
    decreases |first|
  {
    if first == [] {
      assert first + rest == rest;
    } else {
      assert (first + rest)[1..] == first[1..] + rest;
      RunConcat(Apply(s, first[0]), first[1..], rest);
    }
  }

  /** What a pod hears: every relayed envelope while it is subscribed and none while it is not; leaving
      empties its queue, and an item the queue loses is not shown. */
  lemma SubscribersHear(s: State, q: nat, task: nat, item: nat)
    requires q < |s.pods|
    ensures var pod := s.pods[q];
      && (task < |s.outbox| ==>
            Apply(s, Relay(task)).pods[q] ==
            if pod.subscribed then pod.(inbox := pod.inbox + [s.outbox[task]]) else pod)
      && Apply(s, Unsubscribe(q)).pods[q] == pod.(subscribed := false, inbox := [])
      && Apply(s, Subscribe(q)).pods[q] == pod.(subscribed := true)
      && (item < |pod.inbox| ==>
            Apply(s, Lose(q, item)).pods[q] == pod.(inbox := pod.inbox[..item] + pod.inbox[item + 1..]))
  {
  }

  lemma {:induction false} RelayAll(s: State) returns (actions: seq<Action>)
    ensures Run(s, actions).outbox == [] && Run(s, actions).pushes == s.pushes
    ensures forall a :: a in actions ==> a.Relay?
    ensures |Run(s, actions).pods| == |s.pods|
    decreases |s.outbox|
  {
    actions := [];
    if s.outbox != [] {
      var rest := RelayAll(Apply(s, Relay(0)));
      actions := [Relay(0)] + rest;
      assert actions[1..] == rest;
    }
  }

  lemma {:induction false} ReceiveAll(s: State, q: nat) returns (actions: seq<Action>)
    requires q < |s.pods|
    ensures var t := Run(s, actions);
      t.outbox == s.outbox && t.pushes == s.pushes && |t.pods| == |s.pods| && t.pods[q].inbox == []
    ensures forall a :: a in actions ==> a == Receive(q)
    decreases |s.pods[q].inbox|
  {
    actions := [];
    if s.pods[q].inbox != [] {
      var rest := ReceiveAll(Apply(s, Receive(q)), q);
      actions := [Receive(q)] + rest;
      assert actions[1..] == rest;
    }
  }

  /** And it does come to that: after any run that lost nothing for a pod, some relays and receives more
      bring it every push due to it. */
  lemma EveryPushArrives(s0: State, actions: seq<Action>, q: nat) returns (more: seq<Action>)
    requires Init(s0) && q < |s0.pods| && s0.pods[q].subscribed
    requires forall a :: a in actions ==> LosesNothing(q, a)
    ensures forall a :: a in more ==> a.Relay? || a == Receive(q)
    ensures var s := Run(s0, actions + more);
      q < |s.pods| && s.outbox == [] && s.pods[q].inbox == [] && s.pushes == Run(s0, actions).pushes
    ensures forall id: nat :: id < |Run(s0, actions).pushes| ==>
      var s := Run(s0, actions + more);
      s.pushes[id].pod < |s.pods| && Times(id, s.pods[q].hub) ==
        if q == s.pushes[id].pod || s.pods[q].origin != s.pods[s.pushes[id].pod].origin then 1 else 0
  {
    var s := Run(s0, actions);
    RunKeepsInv(s0, actions);
    RunKeepsExact(s0, actions, q);
    var relays := RelayAll(s);
    var receives := ReceiveAll(Run(s, relays), q);
    more := relays + receives;
    RunConcat(s0, actions, more);
    RunConcat(s, relays, receives);
    forall id: nat | id < |s.pushes|
      ensures var t := Run(s0, actions + more);
        t.pushes[id].pod < |t.pods| && Times(id, t.pods[q].hub) ==
          if q == t.pushes[id].pod || t.pods[q].origin != t.pods[t.pushes[id].pod].origin then 1 else 0
    {
      DrainedMeansDelivered(s0, actions + more, q, id);
    }
  }

  ghost predicate Exist(s: State) {
    forall i :: 0 <= i < |s.pushes| ==> s.pushes[i].pod < |s.pods|
  }

  lemma {:induction false} RunKeepsExist(s: State, actions: seq<Action>)
    requires Exist(s)
    ensures Exist(Run(s, actions))
    decreases |actions|
  {
    if actions != [] {
      RunKeepsExist(Apply(s, actions[0]), actions[1..]);
    }
  }

  lemma PublishersExist(s0: State, actions: seq<Action>)
    requires Init(s0)
    ensures Exist(Run(s0, actions))
  {
    RunKeepsExist(s0, actions);
  }

  /** On a lossless bus every push is one bus message: relayed copies are never relayed again. */
  lemma NoRelayLoop(s0: State, actions: seq<Action>)
    requires Init(s0) && Run(s0, actions).outbox == []
    requires forall a :: a in actions ==> !a.FailRelay?
    ensures Run(s0, actions).sent == |Run(s0, actions).pushes|
  {
    RunKeepsInv(s0, actions);
    NothingFails(s0, actions);
  }

  lemma {:induction false} NothingFails(s: State, actions: seq<Action>)
    requires forall a :: a in actions ==> !a.FailRelay?
    ensures Run(s, actions).failed == s.failed
    decreases |actions|
  {
    if actions != [] {
      NothingFails(Apply(s, actions[0]), actions[1..]);
    }
  }
}
