// Rolling compaction of a chat thread (crates/catalerum-api/src/chat_compact.rs over the
// repository calls in crates/catalerum-store/src/repo.rs). A summary's wording is outside
// the model: a summary is the list of messages it covers.

module ChatCompact {
  import opened Collections
  import opened ChatContext

  const CHAT_HISTORY_LIMIT: nat := 100
  const KEEP_TAIL_MESSAGES: nat := 16

  // ---------- Where a fold cuts ----------

  function NextUser(messages: seq<Message>, from: nat): (b: nat)
    requires from <= |messages|
    ensures from <= b <= |messages|
    ensures b < |messages| ==> messages[b].role == User
    ensures forall i :: from <= i < b ==> messages[i].role != User
    decreases |messages| - from
  {
    if from == |messages| || messages[from].role == User then from else NextUser(messages, from + 1)
  }

  function Boundary(messages: seq<Message>, keepTail: nat): Option<nat> {
    if |messages| < keepTail then None
    else
      var b := NextUser(messages, |messages| - keepTail);
      if b < 2 || b >= |messages| then None else Some(b)
  }

  /** The cut is the first user message among the kept ones; there is none when the head
      would be shorter than an exchange or the tail empty. */
  method FoldBoundary(messages: seq<Message>, keepTail: nat) returns (cut: Option<nat>)
    ensures cut == Boundary(messages, keepTail)
    ensures cut.Some? ==> 2 <= cut.value < |messages| && messages[cut.value].role == User
    ensures cut.Some? ==> 1 <= |messages[cut.value..]| <= keepTail
    ensures cut.Some? ==> forall i :: |messages| - keepTail <= i < cut.value ==> messages[i].role != User
    ensures cut.None? ==>
              || |messages| < keepTail
              || (forall i :: |messages| - keepTail <= i < |messages| ==> messages[i].role != User)
              || exists i :: |messages| - keepTail <= i < 2 && i < |messages| && messages[i].role == User
  {
    if |messages| < keepTail {
      return None;
    }
    var boundary := |messages| - keepTail;
    while boundary < |messages| && messages[boundary].role != User
      invariant |messages| - keepTail <= boundary <= |messages|
      invariant NextUser(messages, |messages| - keepTail) == NextUser(messages, boundary)
      invariant forall i :: |messages| - keepTail <= i < boundary ==> messages[i].role != User
    {
      boundary := boundary + 1;
    }
    if boundary < 2 || boundary >= |messages| {
      return None;
    }
    return Some(boundary);
  }

  // ---------- Reading the thread ----------

  ghost predicate Exists(thread: seq<Message>, id: nat) {
    exists i :: 0 <= i < |thread| && thread[i].id == id
  }

  /** The position of a message, or the thread's length when its row is gone. */
  ghost function IndexOf(thread: seq<Message>, id: nat): (n: nat)
    ensures n <= |thread|
    ensures n < |thread| <==> Exists(thread, id)
    ensures n < |thread| ==> thread[n].id == id
  {
    if Exists(thread, id) then
      var i :| 0 <= i < |thread| && thread[i].id == id; i
    else |thread|
  }

  /** Everything strictly after the anchor; nothing when the anchor's row is gone. */
  ghost function After(thread: seq<Message>, anchor: nat): seq<Message> {
    var n := IndexOf(thread, anchor);
    if n < |thread| then thread[n + 1..] else []
  }

  function Recent(messages: seq<Message>): seq<Message> {
    if |messages| <= CHAT_HISTORY_LIMIT then messages else messages[|messages| - CHAT_HISTORY_LIMIT..]
  }

  /** The stored pair: covered messages and the anchor. `whole` records that no fold the summary was
      built by read a window cut by the history limit; no step's outcome depends on it. */
  datatype Summary = Summary(covered: seq<Message>, upto: nat, whole: bool)

  /** What the next fold or the next turn's seed starts from. */
  ghost function Rest(thread: seq<Message>, prior: Option<Summary>): seq<Message> {
    match prior
    case None => thread
    case Some(p) => After(thread, p.upto)
  }

  function Covered(prior: Option<Summary>): seq<Message> {
    match prior
    case None => []
    case Some(p) => p.covered
  }

  predicate IsWhole(prior: Option<Summary>) {
    prior.Some? ==> prior.value.whole
  }

  /** A fold reads the rest of the thread after the prior summary, as far as the limit lets it. */
  function Folded(rest: seq<Message>, prior: Option<Summary>): Option<Summary> {
    var window := Recent(rest);
    match Boundary(window, KEEP_TAIL_MESSAGES)
    case None => None
    case Some(b) =>
      Some(Summary(Covered(prior) + window[..b], window[b - 1].id, IsWhole(prior) && |rest| <= CHAT_HISTORY_LIMIT))
  }

  // ---------- Turns, regenerations and racing folds ----------

  datatype Fold =
    | Idle
    | HasPrior(prior: Option<Summary>)
    | HasSummary(summary: Summary)

  /** The summary column and its anchor are separate: deleting the anchor's row nulls only
      the anchor, and a half-set pair counts as no summary. */
  datatype State = State(
    thread: seq<Message>,
    nextId: nat,
    summary: Option<seq<Message>>,
    upto: Option<nat>,
    whole: bool,
    folds: seq<Fold>)

  datatype Action =
    | Say(role: Role, content: string)
    | Regenerate(keep: nat)
    | LoadConversation(f: nat)
    | LoadMessages(f: nat)
    | SetSummary(f: nat)
    | GiveUp(f: nat)

  function Stored(s: State): Option<Summary> {
    if s.summary.Some? && s.upto.Some? then Some(Summary(s.summary.value, s.upto.value, s.whole)) else None
  }

  function WithFold(s: State, f: nat, fold: Fold): State
    requires f < |s.folds|
  {
    s.(folds := s.folds[f := fold])
  }

  ghost function Apply(s: State, a: Action): State {
    match a
    case Say(role, content) =>
      s.(thread := s.thread + [Message(s.nextId, role, content, "", [], None)], nextId := s.nextId + 1)
    case Regenerate(keep) =>
      if keep < |s.thread| && s.thread[keep].role == User then
        var kept := s.thread[..keep + 1];
        s.(thread := kept, upto := if s.upto.Some? && !Exists(kept, s.upto.value) then None else s.upto)
      else s
    case LoadConversation(f) =>
      if f < |s.folds| && s.folds[f].Idle? then WithFold(s, f, HasPrior(Stored(s))) else s
    case LoadMessages(f) =>
      if f < |s.folds| && s.folds[f].HasPrior? then
        var folded := Folded(Rest(s.thread, s.folds[f].prior), s.folds[f].prior);
        WithFold(s, f, if folded.Some? then HasSummary(folded.value) else Idle)
      else s
    case SetSummary(f) =>
      if f < |s.folds| && s.folds[f].HasSummary? then
        var x := s.folds[f].summary;
        var t := WithFold(s, f, Idle);
        // The anchor column references the messages table, so a pruned anchor is refused.
        if Exists(s.thread, x.upto) then t.(summary := Some(x.covered), upto := Some(x.upto), whole := x.whole) else t
      else s
    case GiveUp(f) => if f < |s.folds| then WithFold(s, f, Idle) else s
  }

  ghost function Run(s: State, actions: seq<Action>): State
    decreases |actions|
  {
    if actions == [] then s else Run(Apply(s, actions[0]), actions[1..])
  }

  ghost predicate Init(s: State) {
    && s.thread == [] && s.summary == None && s.upto == None && s.whole
    && forall f :: 0 <= f < |s.folds| ==> s.folds[f] == Idle
  }

  /** The read window of this action is not cut short by the history limit. */
  ghost predicate Uncut(s: State, a: Action) {
    a.LoadMessages? && a.f < |s.folds| && s.folds[a.f].HasPrior? ==>
      |Rest(s.thread, s.folds[a.f].prior)| <= CHAT_HISTORY_LIMIT
  }

  ghost predicate UncutRun(s: State, actions: seq<Action>)
    decreases |actions|
  {
    actions == [] || (Uncut(s, actions[0]) && UncutRun(Apply(s, actions[0]), actions[1..]))
  }

  // ---------- The conservation law ----------

  /** The thread up to and including the anchor. */
  ghost function Upto(thread: seq<Message>, x: Summary): seq<Message>
    requires Exists(thread, x.upto)
  {
    thread[..IndexOf(thread, x.upto) + 1]
  }

  /** The summary covers exactly the prefix ending at its anchor. */
  ghost predicate Exact(thread: seq<Message>, x: Summary)
    requires Exists(thread, x.upto)
  {
    x.covered == Upto(thread, x)
  }

  /** If the anchor is still there, the covered messages are picked in order from the prefix ending
      at it, and are all of them just when the summary is whole. */
  ghost predicate Placed(thread: seq<Message>, x: Summary) {
    Exists(thread, x.upto) ==>
      PickedFrom(x.covered, Upto(thread, x)) && (x.whole <==> Exact(thread, x))
  }

  ghost predicate PriorPlaced(thread: seq<Message>, prior: Option<Summary>) {
    prior.Some? ==> Placed(thread, prior.value)
  }

  /** In the same order, none twice, and no more of them. */
  ghost predicate PickedFrom(picked: seq<Message>, messages: seq<Message>) {
    && IncreasingIds(picked) && |picked| <= |messages|
    && forall i :: 0 <= i < |picked| ==> picked[i] in messages
  }

  ghost predicate FoldOk(s: State, fold: Fold) {
    match fold
    case Idle => true
    case HasPrior(prior) => PriorPlaced(s.thread, prior) && (prior.Some? ==> prior.value.upto < s.nextId)
    case HasSummary(x) => Placed(s.thread, x) && x.upto < s.nextId
  }

  ghost predicate InOrder(thread: seq<Message>, i: int, j: int)
    requires 0 <= i < j < |thread|
  {
    thread[i].id < thread[j].id
  }

  ghost predicate IncreasingIds(thread: seq<Message>) {
    forall i, j :: 0 <= i < j < |thread| ==> InOrder(thread, i, j)
  }

  ghost predicate Ordered(s: State) {
    && IncreasingIds(s.thread)
    && (forall i :: 0 <= i < |s.thread| ==> s.thread[i].id < s.nextId)
  }

  ghost predicate Inv(s: State) {
    && Ordered(s)
    && (s.upto.Some? ==> Exists(s.thread, s.upto.value))
    && PriorPlaced(s.thread, Stored(s))
    && forall f :: 0 <= f < |s.folds| ==> FoldOk(s, s.folds[f])
  }

  lemma IndexUnique(thread: seq<Message>, id: nat, i: nat)
    requires IncreasingIds(thread)
    requires i < |thread| && thread[i].id == id
    ensures IndexOf(thread, id) == i
  {
    forall j | 0 <= j < |thread| && j != i
      ensures thread[j].id != id
    {
      if j < i {
        assert InOrder(thread, j, i);
      } else {
        assert InOrder(thread, i, j);
      }
    }
  }

  lemma OrderGrows(s: State, m: Message)
    requires Ordered(s) && m.id == s.nextId
    ensures IncreasingIds(s.thread + [m])
  {
    forall i, j | 0 <= i < j < |s.thread| + 1
      ensures InOrder(s.thread + [m], i, j)
    {
      if j < |s.thread| {
        assert InOrder(s.thread, i, j);
      }
    }
  }

  lemma OrderCut(thread: seq<Message>, n: nat)
    requires IncreasingIds(thread) && n <= |thread|
    ensures IncreasingIds(thread[..n])
  {
    forall i, j | 0 <= i < j < n
      ensures InOrder(thread[..n], i, j)
    {
      assert InOrder(thread, i, j);
    }
  }

  lemma SayKeepsPlaced(s: State, m: Message, x: Summary)
    requires Ordered(s) && m.id == s.nextId && x.upto < s.nextId && Placed(s.thread, x)
    ensures Placed(s.thread + [m], x)
    ensures Exists(s.thread, x.upto) <==> Exists(s.thread + [m], x.upto)
  {
    OrderGrows(s, m);
    var n := IndexOf(s.thread, x.upto);
    assert forall i :: 0 <= i < |s.thread| ==> (s.thread + [m])[i] == s.thread[i];
    if n < |s.thread| {
      assert (s.thread + [m])[n].id == x.upto;
      IndexUnique(s.thread + [m], x.upto, n);
      assert (s.thread + [m])[..n + 1] == s.thread[..n + 1];
    }
  }

  lemma CutKeepsPlaced(s: State, keep: nat, x: Summary)
    requires IncreasingIds(s.thread) && keep < |s.thread| && Placed(s.thread, x)
    ensures Placed(s.thread[..keep + 1], x)
  {
    var kept := s.thread[..keep + 1];
    var n := IndexOf(kept, x.upto);
    if n < |kept| {
      assert s.thread[n].id == x.upto;
      IndexUnique(s.thread, x.upto, n);
      assert kept[..n + 1] == s.thread[..n + 1];
    }
  }

  ghost predicate Suffix(thread: seq<Message>, window: seq<Message>) {
    |window| <= |thread| && window == thread[|thread| - |window|..]
  }

  lemma RestIsSuffix(thread: seq<Message>, prior: Option<Summary>)
    ensures Suffix(thread, Rest(thread, prior)) && Suffix(thread, Recent(Rest(thread, prior)))
    ensures prior.Some? && Exists(thread, prior.value.upto) ==>
              |Rest(thread, prior)| == |thread| - IndexOf(thread, prior.value.upto) - 1
  {
  }

  lemma FoldParts(rest: seq<Message>, prior: Option<Summary>, x: Summary) returns (b: nat)
    requires Folded(rest, prior) == Some(x)
    ensures var window := Recent(rest);
      && 2 <= b < |window| && |window| - KEEP_TAIL_MESSAGES <= b && window[b].role == User
      && x.covered == Covered(prior) + window[..b] && x.upto == window[b - 1].id
      && (x.whole <==> IsWhole(prior) && |rest| <= CHAT_HISTORY_LIMIT)
  {
    b := Boundary(Recent(rest), KEEP_TAIL_MESSAGES).value;
  }

  /** The anchor of a fold that took the first `b` messages of a suffix of the thread. */
  lemma FoldAnchor(thread: seq<Message>, window: seq<Message>, b: nat, x: Summary)
    requires IncreasingIds(thread) && Suffix(thread, window)
    requires 0 < b < |window| && x.upto == window[b - 1].id
    ensures Exists(thread, x.upto) && IndexOf(thread, x.upto) == |thread| - |window| + b - 1
  {
    var n := |thread| - |window| + b;
    assert window[b - 1] == thread[n - 1];
    IndexUnique(thread, x.upto, n - 1);
  }

  /** The part of the thread before the rest is what the prior summary speaks of. */
  lemma RestPlace(thread: seq<Message>, prior: Option<Summary>)
    requires PriorPlaced(thread, prior) && IncreasingIds(thread)
    requires prior.Some? ==> Exists(thread, prior.value.upto)
    ensures Suffix(thread, Rest(thread, prior))
    ensures var before := thread[..|thread| - |Rest(thread, prior)|];
      PickedFrom(Covered(prior), before) && (IsWhole(prior) <==> Covered(prior) == before)
  {
    RestIsSuffix(thread, prior);
    match prior
    case None => assert thread[..0] == [];
    case Some(p) => assert thread[..|thread| - |Rest(thread, prior)|] == Upto(thread, p);
  }

  /** Picked messages of a prefix, then a later stretch: picked from the longer prefix, and all of
      it just when nothing was missing before the stretch. */
  lemma PickMore(thread: seq<Message>, picked: seq<Message>, m: nat, from: nat, to: nat)
    requires IncreasingIds(thread) && m <= from <= to <= |thread| && PickedFrom(picked, thread[..m])
    ensures PickedFrom(picked + thread[from..to], thread[..to])
    ensures picked + thread[from..to] == thread[..to] <==> picked == thread[..m] && m == from
  {
    var more := picked + thread[from..to];
    forall i, j | 0 <= i < j < |more| ensures InOrder(more, i, j) {
      if j < |picked| {
        assert InOrder(picked, i, j);
      } else if i < |picked| {
        assert picked[i] in thread[..m];
        var k :| 0 <= k < m && thread[k] == picked[i];
        assert InOrder(thread, k, from + j - |picked|);
      } else {
        assert InOrder(thread, from + i - |picked|, from + j - |picked|);
      }
    }
    forall i | 0 <= i < |more| ensures more[i] in thread[..to] {
      if i < |picked| {
        assert picked[i] in thread[..m];
      } else {
        assert more[i] == thread[..to][from + i - |picked|];
      }
    }
    if picked == thread[..m] && m == from {
      assert thread[..m] + thread[m..to] == thread[..to];
    }
    if more == thread[..to] {
      assert |picked| == from;
      assert picked == more[..from] == thread[..to][..from] == thread[..from];
    }
  }

  /** A fold's summary is placed, and covers exactly the prefix ending at its anchor just when the
      summary before it was whole and the window it read was not cut. */
  lemma FoldIsExact(thread: seq<Message>, prior: Option<Summary>, x: Summary)
    requires IncreasingIds(thread) && PriorPlaced(thread, prior)
    requires Folded(Rest(thread, prior), prior) == Some(x)
    ensures Exists(thread, x.upto) && Placed(thread, x)
    ensures Exact(thread, x) <==> IsWhole(prior) && |Rest(thread, prior)| <= CHAT_HISTORY_LIMIT
  {
    RestPlace(thread, prior);
    FoldPlaced(thread, prior, Rest(thread, prior), x);
  }

  lemma FoldPlaced(thread: seq<Message>, prior: Option<Summary>, rest: seq<Message>, x: Summary)
    requires IncreasingIds(thread) && Suffix(thread, rest) && Folded(rest, prior) == Some(x)
    requires var before := thread[..|thread| - |rest|];
      PickedFrom(Covered(prior), before) && (IsWhole(prior) <==> Covered(prior) == before)
    ensures Exists(thread, x.upto) && Placed(thread, x)
    ensures Exact(thread, x) <==> IsWhole(prior) && |rest| <= CHAT_HISTORY_LIMIT
  {
    var from := |thread| - |Recent(rest)|;
    var b := FoldParts(rest, prior, x);
    RecentIsSuffix(thread, rest);
    FoldPlace(thread, Covered(prior), Recent(rest), b, x);
    PlacedIf(thread, Covered(prior), |thread| - |rest|, from, b, x);
  }

  /** A summary that adds `b` messages from position `from` to one of the first `m`. */
  lemma PlacedIf(thread: seq<Message>, covered: seq<Message>, m: nat, from: nat, b: nat, x: Summary)
    requires IncreasingIds(thread) && m <= from <= from + b <= |thread| && PickedFrom(covered, thread[..m])
    requires Exists(thread, x.upto) && Upto(thread, x) == thread[..from + b]
    requires x.covered == covered + thread[from..from + b]
    ensures Exact(thread, x) <==> covered == thread[..m] && m == from
    ensures (x.whole <==> covered == thread[..m] && m == from) ==> Placed(thread, x)
  {
    PickMore(thread, covered, m, from, from + b);
  }

  /** A fold of the first `b` messages of a suffix of the thread. */
  lemma FoldPlace(thread: seq<Message>, covered: seq<Message>, window: seq<Message>, b: nat, x: Summary)
    requires IncreasingIds(thread) && Suffix(thread, window) && 0 < b < |window|
    requires x.covered == covered + window[..b] && x.upto == window[b - 1].id
    ensures var from := |thread| - |window|;
      && Exists(thread, x.upto) && Upto(thread, x) == thread[..from + b]
      && x.covered == covered + thread[from..from + b]
  {
    FoldAnchor(thread, window, b, x);
    TakenFrom(thread, window, b);
  }

  lemma RecentIsSuffix(thread: seq<Message>, rest: seq<Message>)
    requires Suffix(thread, rest)
    ensures Suffix(thread, Recent(rest))
    ensures |Recent(rest)| == |rest| <==> |rest| <= CHAT_HISTORY_LIMIT
  {
  }

  lemma TakenFrom(thread: seq<Message>, window: seq<Message>, b: nat)
    requires Suffix(thread, window) && b <= |window|
    ensures var from := |thread| - |window|; window[..b] == thread[from..from + b]
  {
  }

  lemma ApplyKeepsInv(s: State, a: Action)
    requires Inv(s)
    ensures Inv(Apply(s, a))
  {
    match a
    case Say(role, content) => SayAll(s, Message(s.nextId, role, content, "", [], None));
    case Regenerate(keep) =>
      if keep < |s.thread| && s.thread[keep].role == User {
        CutAll(s, keep);
      }
    case _ =>
      FoldStep(s, a);
  }

  lemma FoldStep(s: State, a: Action)
    requires Inv(s) && !a.Say? && !a.Regenerate?
    ensures Inv(Apply(s, a))
  {
    if a.f < |s.folds| {
      assert FoldOk(s, s.folds[a.f]);
      FoldMoves(s, a);
      OthersKeep(s, Apply(s, a), a.f);
    }
  }

  lemma OthersKeep(s: State, s': State, f: nat)
    requires Inv(s) && s'.thread == s.thread && s'.nextId == s.nextId
    requires f < |s.folds| && |s'.folds| == |s.folds| && s'.folds == s.folds[f := s'.folds[f]]
    requires FoldOk(s, s'.folds[f])
    ensures forall g :: 0 <= g < |s'.folds| ==> FoldOk(s', s'.folds[g])
  {
  }

  lemma FoldMoves(s: State, a: Action)
    requires Inv(s) && !a.Say? && !a.Regenerate? && a.f < |s.folds|
    ensures FoldOk(s, Apply(s, a).folds[a.f])
  {
    assert FoldOk(s, s.folds[a.f]);
    if a.LoadMessages? && s.folds[a.f].HasPrior? {
      var prior := s.folds[a.f].prior;
      var folded := Folded(Rest(s.thread, prior), prior);
      if folded.Some? {
        FoldIsExact(s.thread, prior, folded.value);
      }
    }
  }

  lemma SayAll(s: State, m: Message)
    requires Inv(s) && m.id == s.nextId
    ensures Inv(s.(thread := s.thread + [m], nextId := s.nextId + 1))
  {
    var s' := s.(thread := s.thread + [m], nextId := s.nextId + 1);
    OrderGrows(s, m);
    if s.upto.Some? {
      var n := IndexOf(s.thread, s.upto.value);
      assert s.thread[n].id < s.nextId;
      assert (s.thread + [m])[n].id == s.upto.value;
      if s.summary.Some? {
        SayKeepsPlaced(s, m, Stored(s).value);
      }
    }
    forall f | 0 <= f < |s.folds|
      ensures FoldOk(s', s.folds[f])
    {
      assert FoldOk(s, s.folds[f]);
      match s.folds[f]
      case Idle =>
      case HasPrior(prior) => if prior.Some? { SayKeepsPlaced(s, m, prior.value); }
      case HasSummary(x) => SayKeepsPlaced(s, m, x);
    }
  }

  lemma CutAll(s: State, keep: nat)
    requires Inv(s) && keep < |s.thread| && s.thread[keep].role == User
    ensures Inv(Apply(s, Regenerate(keep)))
  {
    var s' := Apply(s, Regenerate(keep));
    OrderCut(s.thread, keep + 1);
    if s.upto.Some? && s.summary.Some? {
      CutKeepsPlaced(s, keep, Stored(s).value);
    }
    forall f | 0 <= f < |s.folds| ensures FoldOk(s', s.folds[f]) {
      assert FoldOk(s, s.folds[f]);
      CutKeepsFold(s, keep, s.folds[f]);
    }
  }

  lemma CutKeepsFold(s: State, keep: nat, fold: Fold)
    requires Ordered(s) && keep < |s.thread| && s.thread[keep].role == User && FoldOk(s, fold)
    ensures FoldOk(Apply(s, Regenerate(keep)), fold)
  {
    match fold
    case Idle =>
    case HasPrior(prior) => if prior.Some? { CutKeepsPlaced(s, keep, prior.value); }
    case HasSummary(x) => CutKeepsPlaced(s, keep, x);
  }

  lemma {:induction false} RunKeepsInv(s: State, actions: seq<Action>)
    requires Inv(s)
    ensures Inv(Run(s, actions))
    decreases |actions|
  {
    if actions != [] {
      ApplyKeepsInv(s, actions[0]);
      RunKeepsInv(Apply(s, actions[0]), actions[1..]);
    }
  }

  /** What the next turn or fold has of the thread: the summary's messages, then the rest. */
  ghost function Kept(s: State): seq<Message> {
    Covered(Stored(s)) + Rest(s.thread, Stored(s))
  }

  /** Main result, over every interleaving of turns, regenerations and racing folds. What is kept is
      always picked from the thread in order, nothing twice; and it is the whole thread exactly when
      no fold the stored summary was built by read a window cut by the history limit. */
  lemma NothingLostIff(s0: State, actions: seq<Action>)
    requires Init(s0)
    ensures var s := Run(s0, actions);
      PickedFrom(Kept(s), s.thread) && (Kept(s) == s.thread <==> IsWhole(Stored(s)))
  {
    RunKeepsInv(s0, actions);
    var s := Run(s0, actions);
    RestPlace(s.thread, Stored(s));
    Rejoin(s.thread, Covered(Stored(s)), Rest(s.thread, Stored(s)));
  }

  lemma Rejoin(thread: seq<Message>, covered: seq<Message>, rest: seq<Message>)
    requires IncreasingIds(thread) && Suffix(thread, rest)
    requires PickedFrom(covered, thread[..|thread| - |rest|])
    ensures PickedFrom(covered + rest, thread)
    ensures covered + rest == thread <==> covered == thread[..|thread| - |rest|]
  {
    var n := |thread| - |rest|;
    assert rest == thread[n..|thread|] && thread[..|thread|] == thread;
    PickMore(thread, covered, n, n, |thread|);
  }

  ghost predicate AllWhole(s: State) {
    && s.whole && forall f :: 0 <= f < |s.folds| ==>
      match s.folds[f]
      case Idle => true
      case HasPrior(prior) => IsWhole(prior)
      case HasSummary(x) => x.whole
  }

  lemma {:induction false} UncutStaysWhole(s: State, actions: seq<Action>)
    requires AllWhole(s) && UncutRun(s, actions)
    ensures AllWhole(Run(s, actions))
    decreases |actions|
  {
    if actions != [] {
      UncutStaysWhole(Apply(s, actions[0]), actions[1..]);
    }
  }

  /** In particular nothing is lost where no fold's window is ever cut. */
  lemma NothingLostOrDoubled(s0: State, actions: seq<Action>)
    requires Init(s0) && UncutRun(s0, actions)
    ensures Kept(Run(s0, actions)) == Run(s0, actions).thread
  {
    NothingLostIff(s0, actions);
    UncutStaysWhole(s0, actions);
  }

  /** What follows the anchor of a fold is the part of its window it did not fold. */
  lemma RestAfterFold(thread: seq<Message>, prior: Option<Summary>, rest: seq<Message>, x: Summary) returns (b: nat)
    requires IncreasingIds(thread) && Suffix(thread, rest) && Folded(rest, prior) == Some(x)
    ensures var window := Recent(rest);
      && |window| - KEEP_TAIL_MESSAGES <= b < |window| && window[b].role == User
      && x.covered == Covered(prior) + window[..b] && Rest(thread, Some(x)) == window[b..]
  {
    b := FoldParts(rest, prior, x);
    RecentIsSuffix(thread, rest);
    FoldAnchor(thread, Recent(rest), b, x);
    TailsMeet(thread, Recent(rest), b);
  }

  lemma TailsMeet(thread: seq<Message>, window: seq<Message>, b: nat)
    requires Suffix(thread, window) && b <= |window|
    ensures window[b..] == thread[|thread| - |window| + b..]
  {
  }

  /** What a fold keeps verbatim: the next seed's window opens on a user message and holds
      between 1 and 16 of the messages the fold read. */
  lemma FoldKeepsATail(thread: seq<Message>, prior: Option<Summary>, x: Summary)
    requires IncreasingIds(thread)
    requires Folded(Rest(thread, prior), prior) == Some(x)
    ensures var tail := Rest(thread, Some(x));
            && 1 <= |tail| <= KEEP_TAIL_MESSAGES
            && tail[0].role == User
            && Suffix(Recent(Rest(thread, prior)), tail)
  {
    RestIsSuffix(thread, prior);
    var b := RestAfterFold(thread, prior, Rest(thread, prior), x);
  }

  /** Regenerating from a user message drops what follows it, and keeps the summary in use exactly when
      its anchor is kept; nothing else touches either part but a fold. */
  lemma RegeneratingCuts(s: State, keep: nat)
    requires Inv(s) && keep < |s.thread| && s.thread[keep].role == User
    ensures var t := Apply(s, Regenerate(keep));
      && t.thread == s.thread[..keep + 1]
      && Stored(t) == (if Stored(s).Some? && IndexOf(s.thread, Stored(s).value.upto) <= keep then Stored(s) else None)
  {
    if Stored(s).Some? {
      var n := IndexOf(s.thread, s.upto.value);
      assert s.thread[n].id == s.upto.value;
      if n <= keep {
        assert s.thread[..keep + 1][n].id == s.upto.value;
      } else if Exists(s.thread[..keep + 1], s.upto.value) {
        IndexUnique(s.thread, s.upto.value, IndexOf(s.thread[..keep + 1], s.upto.value));
      }
    }
  }

  /** A fold never touches the thread, and the stored pair only when it is persisted: then its own
      summary is stored, if the anchor's row is still there. It starts from what is stored, and is over
      once persisted, given up or found to have nothing to fold. */
  lemma FoldsTouchOnlyTheSummary(s: State, f: nat)
    requires f < |s.folds|
    ensures forall a :: a in {LoadConversation(f), LoadMessages(f), GiveUp(f)} ==>
      Apply(s, a).thread == s.thread && Stored(Apply(s, a)) == Stored(s)
    ensures s.folds[f] == Idle ==> Apply(s, LoadConversation(f)).folds[f] == HasPrior(Stored(s))
    ensures s.folds[f].HasPrior? ==> var prior := s.folds[f].prior;
      Apply(s, LoadMessages(f)).folds[f] ==
      match Folded(Rest(s.thread, prior), prior) case None => Idle case Some(x) => HasSummary(x)
    ensures s.folds[f].HasSummary? ==> var t, x := Apply(s, SetSummary(f)), s.folds[f].summary;
      && t.thread == s.thread && t.folds[f] == Idle
      && Stored(t) == if Exists(s.thread, x.upto) then Some(x) else Stored(s)
    ensures Apply(s, GiveUp(f)).folds[f] == Idle
  {
  }

  // ---------- A fold whose window was cut ----------

  /** Right after a fold what is kept is what was kept before it, less what its window left out. */
  lemma FoldShows(thread: seq<Message>, prior: Option<Summary>, x: Summary)
    requires IncreasingIds(thread)
    requires Folded(Rest(thread, prior), prior) == Some(x)
    ensures x.covered + Rest(thread, Some(x)) == Covered(prior) + Recent(Rest(thread, prior))
  {
    RestIsSuffix(thread, prior);
    var b := RestAfterFold(thread, prior, Rest(thread, prior), x);
    Rejoined(Covered(prior), Recent(Rest(thread, prior)), b);
  }

  lemma Rejoined(covered: seq<Message>, window: seq<Message>, b: nat)
    requires b <= |window|
    ensures (covered + window[..b]) + window[b..] == covered + window
  {
    assert window[..b] + window[b..] == window;
  }

  function FoldAll(f: nat): seq<Action> {
    [LoadConversation(f), LoadMessages(f), SetSummary(f)]
  }

  /** In any run, when more than 100 messages follow the summary's anchor, one undisturbed fold drops
      for good all of them but the last 100: they are in neither the new summary nor the new rest. */
  lemma LongRestLosesItsHead(s0: State, actions: seq<Action>, f: nat)
    requires Init(s0)
    requires var s := Run(s0, actions);
      && f < |s.folds| && s.folds[f] == Idle
      && |Rest(s.thread, Stored(s))| > CHAT_HISTORY_LIMIT && Folded(Rest(s.thread, Stored(s)), Stored(s)).Some?
    ensures var s, t := Run(s0, actions), Run(s0, actions + FoldAll(f));
      && t.thread == s.thread
      && Kept(t) == Covered(Stored(s)) + Recent(Rest(s.thread, Stored(s)))
      && |Kept(t)| + |Rest(s.thread, Stored(s))| == |Kept(s)| + CHAT_HISTORY_LIMIT
  {
    RunKeepsInv(s0, actions);
    RunConcat(s0, actions, FoldAll(f));
    UndisturbedFold(Run(s0, actions), f);
  }

  lemma UndisturbedFold(s: State, f: nat)
    requires Inv(s) && f < |s.folds| && s.folds[f] == Idle
    requires Folded(Rest(s.thread, Stored(s)), Stored(s)).Some?
    ensures var t := Run(s, FoldAll(f));
      t.thread == s.thread && Kept(t) == Covered(Stored(s)) + Recent(Rest(s.thread, Stored(s)))
  {
    var x := Folded(Rest(s.thread, Stored(s)), Stored(s)).value;
    FoldIsExact(s.thread, Stored(s), x);
    FoldShows(s.thread, Stored(s), x);
    FoldAllRun(s, f, x);
  }

  lemma FoldAllRun(s: State, f: nat, x: Summary)
    requires f < |s.folds| && s.folds[f] == Idle
    requires Folded(Rest(s.thread, Stored(s)), Stored(s)) == Some(x) && Exists(s.thread, x.upto)
    ensures Run(s, FoldAll(f)).thread == s.thread && Stored(Run(s, FoldAll(f))) == Some(x)
  {
    RunThree(s, LoadConversation(f), LoadMessages(f), SetSummary(f));
    LoadStep(WithFold(s, f, HasPrior(Stored(s))), f, Stored(s), x);
    SetStep(WithFold(WithFold(s, f, HasPrior(Stored(s))), f, HasSummary(x)), f, x);
  }

  lemma LoadStep(s: State, f: nat, prior: Option<Summary>, x: Summary)
    requires f < |s.folds| && s.folds[f] == HasPrior(prior) && Folded(Rest(s.thread, prior), prior) == Some(x)
    ensures Apply(s, LoadMessages(f)) == WithFold(s, f, HasSummary(x))
  {
  }

  lemma SetStep(s: State, f: nat, x: Summary)
    requires f < |s.folds| && s.folds[f] == HasSummary(x) && Exists(s.thread, x.upto)
    ensures Apply(s, SetSummary(f)).thread == s.thread && Stored(Apply(s, SetSummary(f))) == Some(x)
  {
  }

  lemma {:induction false} RunConcat(s: State, first: seq<Action>, rest: seq<Action>)
    ensures Run(s, first + rest) == Run(Run(s, first), rest)
    decreases |first|
  {
    if first == [] {
      assert first + rest == rest;
    } else {
      assert (first + rest)[1..] == first[1..] + rest;
      RunConcat(Apply(s, first[0]), first[1..], rest);
    }
  }

  lemma RunThree(s: State, a: Action, b: Action, c: Action)
    ensures Run(s, [a, b, c]) == Apply(Apply(Apply(s, a), b), c)
  {
    assert [a, b, c][1..] == [b, c] && [b, c][1..] == [c] && [c][1..] == [];
    assert Run(Apply(s, a), [b, c]) == Run(Apply(Apply(s, a), b), [c]);
    assert Run(Apply(Apply(s, a), b), [c]) == Run(Apply(Apply(Apply(s, a), b), c), []);
  }

  function Saying(n: nat): seq<Action> {
    seq(n, i => Say(User, ""))
  }

  lemma {:induction false} SayingRun(s: State, n: nat)
    ensures var t := Run(s, Saying(n));
      && s.thread <= t.thread && |t.thread| == |s.thread| + n && t.folds == s.folds && Stored(t) == Stored(s)
      && forall i :: |s.thread| <= i < |t.thread| ==> t.thread[i].role == User
    decreases n
  {
    if n > 0 {
      var t := Apply(s, Say(User, ""));
      assert Saying(n)[1..] == Saying(n - 1);
      SayingRun(t, n - 1);
    }
  }

  lemma UserTailFolds(messages: seq<Message>)
    requires |messages| > CHAT_HISTORY_LIMIT && forall i :: 0 <= i < |messages| ==> messages[i].role == User
    ensures Folded(messages, None).Some?
  {
  }

  /** Such runs exist: 101 messages by the user will do, or any number more. */
  lemma LongChatLosesMessages(s0: State, n: nat)
    requires Init(s0) && n > CHAT_HISTORY_LIMIT && |s0.folds| > 0
    ensures var t := Run(s0, Saying(n) + FoldAll(0));
      |t.thread| == n && |Kept(t)| == CHAT_HISTORY_LIMIT
  {
    SayingRun(s0, n);
    UserTailFolds(Run(s0, Saying(n)).thread);
    LongRestLosesItsHead(s0, Saying(n), 0);
  }

  /** What the model is shown: the summary's messages, then the trimmed bounded window. */
  ghost function Seen(thread: seq<Message>, stored: Option<Summary>): seq<Message> {
    Covered(stored) + TrimToTurnBoundary(Recent(Rest(thread, stored)))
  }

  /** In every run a turn's seed shows the whole thread exactly when the summary is whole and the rest
      fits the limit and opens on a user message (or has none); otherwise it leaves messages out. */
  lemma SeedShowsWholeThreadIff(s0: State, actions: seq<Action>)
    requires Init(s0)
    ensures var s := Run(s0, actions);
      var rest := Rest(s.thread, Stored(s));
      Seen(s.thread, Stored(s)) == s.thread <==>
        && IsWhole(Stored(s)) && |rest| <= CHAT_HISTORY_LIMIT
        && (rest == [] || rest[0].role == User || !HasUser(rest))
  {
    var s := Run(s0, actions);
    NothingLostIff(s0, actions);
    SeenIff(s.thread, Covered(Stored(s)), Rest(s.thread, Stored(s)));
  }

  lemma SeenIff(thread: seq<Message>, covered: seq<Message>, rest: seq<Message>)
    requires |covered + rest| <= |thread|
    ensures covered + TrimToTurnBoundary(Recent(rest)) == thread <==>
      && covered + rest == thread && |rest| <= CHAT_HISTORY_LIMIT
      && (rest == [] || rest[0].role == User || !HasUser(rest))
  {
    var shown := TrimToTurnBoundary(Recent(rest));
    TrimOpensOnUser(Recent(rest));
    assert |shown| <= |Recent(rest)| <= |rest|;
    if |shown| == |rest| {
      assert shown == rest;
    }
  }
}
