// The push-channel lifecycle of one calendar connection (crates/catalerum-api/src/google_watch.rs).
// Times are milliseconds; token expiries are whole seconds, as in the source.

module WatchChannel {
  import opened Collections

  const SCAN_TICK := 3_600_000
  const WATCH_TTL_SECS := 604_800
  const WATCH_TTL := 604_800_000
  const RENEW_LEAD := 86_400_000
  const TOKEN_TTL_BUFFER_SECS := 86_400

  /** A channel at Google, whether or not the connection's config remembers it. */
  datatype Channel = Channel(createdAt: int, expires: int, tokenExp: int, stoppedAt: Option<int>)

  /** What the config remembers: which channel, and the expiry Google reported, if it did. */
  datatype Stored = Stored(channel: nat, expiry: Option<int>)

  datatype Book = Book(channels: seq<Channel>, stored: Option<Stored>)

  /** How one lifecycle pass goes: the clock it read, and what the world answered. */
  datatype Grant = Grant(createdAt: int, lifetime: int, reported: bool)
  datatype Pass = Pass(
    at: int,
    wanted: bool,
    blocked: bool, // no fire lock, no credentials, or an undecodable connection
    grant: Option<Grant>, // absent when events.watch fails
    saved: bool,
    stopped: bool,
    doneAt: int)

  predicate WatchDue(expiry: Option<int>, now: int, lead: nat) {
    expiry.None? || expiry.value <= now + lead
  }

  predicate ShouldEnsure(stored: Option<Stored>, now: int, lead: nat) {
    stored.None? || WatchDue(stored.value.expiry, now, lead)
  }

  function TokenExp(now: int): int {
    now / 1000 + WATCH_TTL_SECS + TOKEN_TTL_BUFFER_SECS
  }

  predicate Verifies(tokenExp: int, now: int) {
    !(tokenExp <= now / 1000)
  }

  /** Stopping a channel again changes nothing. */
  function Stop(channels: seq<Channel>, i: nat, at: int): seq<Channel> {
    if i < |channels| && channels[i].stoppedAt.None?
    then channels[i := channels[i].(stoppedAt := Some(at))]
    else channels
  }

  function Created(p: Pass, g: Grant): Channel {
    Channel(g.createdAt, g.createdAt + g.lifetime, TokenExp(p.at), None)
  }

  function Remembered(b: Book, g: Grant): Stored {
    Stored(|b.channels|, if g.reported then Some(g.createdAt + g.lifetime) else None)
  }

  /** Create first, remember if the store allows, stop the superseded channel last. */
  function Ensured(b: Book, p: Pass): Book {
    match p.grant
    case None => b
    case Some(g) =>
      var channels := b.channels + [Created(p, g)];
      Book(if p.stopped && b.stored.Some? then Stop(channels, b.stored.value.channel, p.doneAt) else channels,
           if p.saved then Some(Remembered(b, g)) else b.stored)
  }

  function Cleared(b: Book, p: Pass): Book
    requires b.stored.Some?
  {
    Book(if p.stopped then Stop(b.channels, b.stored.value.channel, p.doneAt) else b.channels,
         if p.saved then None else b.stored)
  }

  function Reconciled(b: Book, p: Pass): Book {
    if p.wanted && !ShouldEnsure(b.stored, p.at, RENEW_LEAD) then b
    else if !p.wanted && b.stored.None? then b
    else if p.blocked then b
    else if p.wanted then Ensured(b, p)
    else Cleared(b, p)
  }

  class Connection {
    var channels: seq<Channel>
    var stored: Option<Stored>

    constructor ()
      ensures channels == [] && stored == None
    {
      channels, stored := [], None;
    }

    method StopWatch(i: nat, at: int, ok: bool)
      modifies this`channels
      ensures channels == if ok then Stop(old(channels), i, at) else old(channels)
    {
      if ok && i < |channels| && channels[i].stoppedAt.None? {
        channels := channels[i := channels[i].(stoppedAt := Some(at))];
      }
    }

    method EnsureWatch(existing: Option<Stored>, p: Pass)
      requires existing == stored
      modifies this
      ensures Book(channels, stored) == Ensured(old(Book(channels, stored)), p)
    {
      var token := TokenExp(p.at);
      if p.grant.None? {
        return;
      }
      var g := p.grant.value;
      var id := |channels|;
      channels := channels + [Channel(g.createdAt, g.createdAt + g.lifetime, token, None)];
      if p.saved {
        stored := Some(Stored(id, if g.reported then Some(g.createdAt + g.lifetime) else None));
      }
      if existing.Some? {
        StopWatch(existing.value.channel, p.doneAt, p.stopped);
      }
    }

    method StopAndClear(existing: Stored, p: Pass)
      requires stored == Some(existing)
      modifies this
      ensures Book(channels, stored) == Cleared(old(Book(channels, stored)), p)
    {
      StopWatch(existing.channel, p.doneAt, p.stopped);
      if p.saved {
        stored := None;
      }
    }

    method Reconcile(p: Pass)
      modifies this
      ensures Book(channels, stored) == Reconciled(old(Book(channels, stored)), p)
    {
      var existing := stored;
      if p.wanted && !ShouldEnsure(existing, p.at, RENEW_LEAD) {
        return;
      }
      if !p.wanted && existing.None? {
        return;
      }
      if p.blocked {
        return;
      }
      if p.wanted {
        EnsureWatch(existing, p);
      } else if existing.Some? {
        StopAndClear(existing.value, p);
      }
    }
  }

  // ---------- Which connections want a channel ----------

  /** A trigger as it decodes: only a collect trigger names a connection. */
  datatype Trigger = Undecodable | Other | Collect(connection: Option<string>)
  datatype Automation = Automation(enabled: bool, triggers: seq<Trigger>)

  /** `parse` reads a trimmed connection id. */
  predicate Wants(parse: string -> Option<nat>, t: Trigger, id: nat) {
    t.Collect? && t.connection.Some? && parse(t.connection.value) == Some(id)
  }

  predicate Asks(parse: string -> Option<nat>, a: Automation, id: nat) {
    a.enabled && exists i :: 0 <= i < |a.triggers| && Wants(parse, a.triggers[i], id)
  }

  method WantedConnectionIds(parse: string -> Option<nat>, automations: seq<Automation>) returns (ids: set<nat>)
    ensures forall id :: id in ids <==> exists k :: 0 <= k < |automations| && Asks(parse, automations[k], id)
  {
    ids := {};
    for k := 0 to |automations|
      invariant forall id :: id in ids <==> exists j :: 0 <= j < k && Asks(parse, automations[j], id)
    {
      var a := automations[k];
      if !a.enabled {
        continue;
      }
      ghost var before := ids;
      for i := 0 to |a.triggers|
        invariant forall id :: id in ids <==> id in before || exists j :: 0 <= j < i && Wants(parse, a.triggers[j], id)
      {
        var t := a.triggers[i];
        if t.Collect? && t.connection.Some? {
          var id := parse(t.connection.value);
          if id.Some? {
            ids := ids + {id.value};
          }
        }
      }
    }
  }

  // ---------- Runs of passes ----------

  /** `good` is when a pass last found the channel fresh or made one; `since` is when the first
      channel of the current wanted stretch was made. Neither influences what a pass does. */
  datatype State = State(book: Book, now: int, scanned: int, good: int, failures: nat, since: Option<int>)

  function Step(s: State, p: Pass): State {
    var b := Reconciled(s.book, p);
    if !p.wanted then State(b, if b == s.book then p.at else p.doneAt, p.at, p.at, 0, None)
    else if !ShouldEnsure(s.book.stored, p.at, RENEW_LEAD) then State(b, p.at, p.at, p.at, 0, s.since)
    else if p.blocked || p.grant.None? then State(b, p.doneAt, p.at, s.good, s.failures + 1, s.since)
    else State(b, p.doneAt, p.at, p.at, 0, if s.since.None? then Some(p.grant.value.createdAt) else s.since)
  }

  function Run(s: State, passes: seq<Pass>): State
    decreases |passes|
  {
    if passes == [] then s else Run(Step(s, passes[0]), passes[1..])
  }

  predicate Live(c: Channel, t: int) {
    c.createdAt <= t < c.expires && (c.stoppedAt.None? || t < c.stoppedAt.value)
  }

  ghost predicate CoveredAt(b: Book, t: int) {
    exists i :: 0 <= i < |b.channels| && Live(b.channels[i], t)
  }

  /** Some channel nobody has stopped expires no earlier than this. */
  predicate LastsUntil(b: Book, t: int) {
    exists i :: 0 <= i < |b.channels| && b.channels[i].stoppedAt.None? && t <= b.channels[i].expires
  }

  /** At every moment of the wanted stretch so far, from its first channel on. */
  ghost predicate Covered(s: State) {
    s.since.Some? && forall t :: s.since.value <= t < s.now ==> CoveredAt(s.book, t)
  }

  /** Passes come in time order, at most a tick apart, each over before the next may start; granted
      lifetimes are longer than the renewal lead and no longer than asked for. */
  predicate Scheduled(s: State, p: Pass) {
    && s.now <= p.at <= s.scanned + SCAN_TICK
    && p.at <= p.doneAt <= p.at + SCAN_TICK
    && (p.grant.Some? ==>
          && p.at <= p.grant.value.createdAt <= p.doneAt
          && RENEW_LEAD < p.grant.value.lifetime <= WATCH_TTL)
  }

  predicate ScheduledRun(s: State, passes: seq<Pass>)
    decreases |passes|
  {
    passes == [] || (Scheduled(s, passes[0]) && ScheduledRun(Step(s, passes[0]), passes[1..]))
  }

  predicate Attempts(s: State, p: Pass) {
    p.wanted && ShouldEnsure(s.book.stored, p.at, RENEW_LEAD)
  }

  predicate Creates(s: State, p: Pass) {
    Attempts(s, p) && !p.blocked && p.grant.Some?
  }

  /** A renewal succeeds before the channels there are run out, or fails and is over before. */
  predicate InTime(s: State, p: Pass) {
    if Creates(s, p) then LastsUntil(s.book, p.grant.value.createdAt)
    else Attempts(s, p) ==> LastsUntil(s.book, p.doneAt)
  }

  predicate InTimeRun(s: State, passes: seq<Pass>)
    decreases |passes|
  {
    passes == [] || (InTime(s, passes[0]) && InTimeRun(Step(s, passes[0]), passes[1..]))
  }

  /** Once there is a channel: at most 23 failed passes in a row, and should all 23 happen, a next
      channel made before the old one runs out. */
  predicate Tolerable(s: State, p: Pass) {
    s.since.Some? ==>
      && Step(s, p).failures <= 23
      && (s.failures == 23 && Creates(s, p) ==> LastsUntil(s.book, p.grant.value.createdAt))
  }

  predicate TolerableRun(s: State, passes: seq<Pass>)
    decreases |passes|
  {
    passes == [] || (Tolerable(s, passes[0]) && TolerableRun(Step(s, passes[0]), passes[1..]))
  }

  // ---------- Invariant ----------

  /** A channel of the past, whose token outlives it. */
  predicate ChannelOk(now: int, c: Channel) {
    && c.createdAt <= now && c.createdAt < c.expires <= c.tokenExp * 1000
    && (c.stoppedAt.Some? ==> c.stoppedAt.value <= now)
  }

  /** The newest channel is not stopped and outlives the last good pass by the lead; what is
      remembered is either that channel or something every later pass will find due. */
  ghost predicate Newest(b: Book, good: int, scanned: int) {
    && b.channels != []
    && var i := |b.channels| - 1;
       && b.channels[i].stoppedAt.None?
       && b.channels[i].expires > good + RENEW_LEAD
       && (ShouldEnsure(b.stored, scanned, RENEW_LEAD) || b.stored.value == Stored(i, Some(b.channels[i].expires)))
  }

  ghost predicate Inv(s: State) {
    && (s.book.stored.Some? ==> s.book.stored.value.channel < |s.book.channels|)
    && (forall i :: 0 <= i < |s.book.channels| ==> ChannelOk(s.now, s.book.channels[i]))
    && s.good <= s.scanned <= s.now
    && s.scanned <= s.good + SCAN_TICK * s.failures
    && (s.since.Some? ==> Newest(s.book, s.good, s.scanned) && s.since.value <= s.now)
  }

  /** A channel's token verifies for the channel's whole life exactly when the channel expires no
      later than the token. */
  lemma TokenOutlivesIff(c: Channel)
    requires c.createdAt < c.expires
    ensures (forall t :: c.createdAt <= t < c.expires ==> Verifies(c.tokenExp, t)) <==> c.expires <= c.tokenExp * 1000
  {
    if c.expires > c.tokenExp * 1000 {
      assert !Verifies(c.tokenExp, c.expires - 1);
    }
  }

  /** Minted at a pass, the token outlives what the pass creates: the day it is given beyond the
      lifetime asked for is more than a pass and the second the clock rounds away. */
  lemma EnsureKeepsInv(s: State, p: Pass)
    requires Inv(s) && Scheduled(s, p) && Creates(s, p)
    ensures Inv(Step(s, p))
  {
    var u := Step(s, p);
    forall k | 0 <= k < |u.book.channels| ensures ChannelOk(u.now, u.book.channels[k]) {
      if k < |s.book.channels| { assert ChannelOk(s.now, s.book.channels[k]); }
    }
  }

  lemma StepKeepsInv(s: State, p: Pass)
    requires Inv(s) && Scheduled(s, p)
    ensures Inv(Step(s, p))
  {
    if p.wanted && Creates(s, p) {
      EnsureKeepsInv(s, p);
    }
  }

  ghost predicate Init(s: State) {
    s.book == Book([], None) && s.since.None? && s.failures == 0 && s.good == s.scanned == s.now
  }

  // ---------- Exactly when cover is kept ----------

  /** Covered so far, and by something that has not run out. */
  ghost predicate Kept(s: State) {
    Covered(s) && LastsUntil(s.book, s.now)
  }

  lemma NewChannelCovers(s: State, p: Pass)
    requires Inv(s) && Scheduled(s, p) && Creates(s, p)
    ensures forall t :: p.grant.value.createdAt <= t <= p.doneAt ==> CoveredAt(Step(s, p).book, t)
    ensures LastsUntil(Step(s, p).book, p.doneAt)
  {
    var i, u := |s.book.channels|, Step(s, p);
    forall t | p.grant.value.createdAt <= t <= p.doneAt ensures CoveredAt(u.book, t) {
      assert Live(u.book.channels[i], t);
    }
    assert u.book.channels[i].stoppedAt.None? && p.doneAt <= u.book.channels[i].expires;
  }

  lemma OldChannelsCover(s: State, p: Pass, t: int)
    requires Inv(s) && Scheduled(s, p) && Creates(s, p) && t < p.doneAt
    requires CoveredAt(s.book, t)
    ensures CoveredAt(Step(s, p).book, t)
  {
    var i :| 0 <= i < |s.book.channels| && Live(s.book.channels[i], t);
    assert Live(Step(s, p).book.channels[i], t);
  }

  /** Nothing that was created by now covers the last moment before a time none of it reaches. */
  lemma RunOutMeansGap(s: State, p: Pass, until: int)
    requires Inv(s) && Scheduled(s, p) && s.now < until && !LastsUntil(s.book, until)
    requires if Creates(s, p) then until <= p.grant.value.createdAt else Step(s, p).book == s.book
    ensures !CoveredAt(Step(s, p).book, until - 1)
  {
    var u := Step(s, p);
    forall k | 0 <= k < |u.book.channels| ensures !Live(u.book.channels[k], until - 1) {
      if k < |s.book.channels| {
        assert ChannelOk(s.now, s.book.channels[k]);
      }
    }
  }

  lemma GapStays(s: State, p: Pass, t: int)
    requires Inv(s) && Scheduled(s, p) && p.wanted && t < s.now && !CoveredAt(s.book, t)
    ensures !CoveredAt(Step(s, p).book, t)
  {
    var u := Step(s, p);
    if Creates(s, p) {
      forall k | 0 <= k < |u.book.channels| ensures !Live(u.book.channels[k], t) {
        assert k < |s.book.channels| ==> !Live(s.book.channels[k], t);
      }
    }
  }

  lemma InTimeKeeps(s: State, p: Pass)
    requires Inv(s) && Scheduled(s, p) && p.wanted && Kept(s) && InTime(s, p)
    ensures Kept(Step(s, p))
  {
    var u := Step(s, p);
    if Creates(s, p) {
      NewChannelCovers(s, p);
      forall t | u.since.value <= t < u.now ensures CoveredAt(u.book, t) {
        if t < p.grant.value.createdAt {
          OldChannelsCover(s, p, t);
        }
      }
    } else {
      assert LastsUntil(s.book, u.now) by {
        if !Attempts(s, p) { assert s.book.channels[|s.book.channels| - 1].stoppedAt.None?; }
      }
    }
  }

  lemma LateLoses(s: State, p: Pass)
    requires Inv(s) && Scheduled(s, p) && p.wanted && Kept(s) && !InTime(s, p)
    ensures !Covered(Step(s, p))
  {
    var until := if Creates(s, p) then p.grant.value.createdAt else p.doneAt;
    assert s.now < until by {
      var i :| 0 <= i < |s.book.channels| && s.book.channels[i].stoppedAt.None? && s.now <= s.book.channels[i].expires;
      assert !(until <= s.book.channels[i].expires);
    }
    RunOutMeansGap(s, p, until);
  }

  lemma {:induction false} GapStaysForRun(s: State, passes: seq<Pass>)
    requires Inv(s) && ScheduledRun(s, passes) && (forall p :: p in passes ==> p.wanted) && s.since.Some? && !Covered(s)
    ensures !Covered(Run(s, passes))
    decreases |passes|
  {
    if passes != [] {
      var p := passes[0];
      StepKeepsInv(s, p);
      var t :| s.since.value <= t < s.now && !CoveredAt(s.book, t);
      GapStays(s, p, t);
      assert Step(s, p).since == s.since && Step(s, p).now >= s.now;
      GapStaysForRun(Step(s, p), passes[1..]);
    }
  }

  /** Through any passes of a wanted stretch, however many fail: there was an unexpired, unstopped
      channel at every moment if and only if every renewal was in time - made while some channel
      lasted, or given up on before the last one ran out. */
  lemma {:induction false} CoverKeptIff(s: State, passes: seq<Pass>)
    requires Inv(s) && Kept(s) && ScheduledRun(s, passes) && forall p :: p in passes ==> p.wanted
    ensures Covered(Run(s, passes)) <==> InTimeRun(s, passes)
    decreases |passes|
  {
    if passes != [] {
      var p := passes[0];
      StepKeepsInv(s, p);
      if InTime(s, p) {
        InTimeKeeps(s, p);
        CoverKeptIff(Step(s, p), passes[1..]);
      } else {
        LateLoses(s, p);
        GapStaysForRun(Step(s, p), passes[1..]);
      }
    }
  }

  // ---------- Hourly scans keep it ----------

  ghost predicate KeptInv(s: State) {
    Inv(s) && (s.since.Some? ==> s.failures <= 23 && Kept(s))
  }

  /** Twenty-two failures leave an hour for the next renewal; only after the twenty-third does it
      matter when in its pass the channel is made. */
  lemma TolerableIsInTime(s: State, p: Pass)
    requires Inv(s) && s.since.Some? && s.failures <= 23 && Scheduled(s, p) && Tolerable(s, p) && p.wanted
    ensures InTime(s, p)
  {
    var c := s.book.channels[|s.book.channels| - 1];
    assert c.stoppedAt.None? && c.expires > s.good + RENEW_LEAD;
  }

  lemma StepKeepsCover(s: State, p: Pass)
    requires KeptInv(s) && Scheduled(s, p) && Tolerable(s, p)
    ensures KeptInv(Step(s, p))
  {
    StepKeepsInv(s, p);
    if p.wanted && s.since.Some? {
      TolerableIsInTime(s, p);
      InTimeKeeps(s, p);
    }
  }

  lemma {:induction false} RunKeepsCover(s: State, passes: seq<Pass>)
    requires KeptInv(s) && ScheduledRun(s, passes) && TolerableRun(s, passes)
    ensures KeptInv(Run(s, passes))
    decreases |passes|
  {
    if passes != [] {
      StepKeepsCover(s, passes[0]);
      RunKeepsCover(Step(s, passes[0]), passes[1..]);
    }
  }

  // ---------- Main results ----------

  /** While the connection stays wanted there is, at every moment from the first success on, an
      unexpired, unstopped channel whose token verifies - even when channel state could not be
      saved, superseded channels could not be stopped, or Google reported no expiry - through up to
      23 failures in a row. */
  lemma WatchNeverLapses(s0: State, passes: seq<Pass>, t: int)
    requires Init(s0) && ScheduledRun(s0, passes) && TolerableRun(s0, passes)
    requires var s := Run(s0, passes); s.since.Some? && s.since.value <= t < s.now
    ensures var channels := Run(s0, passes).book.channels;
      exists i :: 0 <= i < |channels| && Live(channels[i], t) && Verifies(channels[i].tokenExp, t)
  {
    RunKeepsCover(s0, passes);
    var s := Run(s0, passes);
    assert Kept(s) && CoveredAt(s.book, t);
    var i :| 0 <= i < |s.book.channels| && Live(s.book.channels[i], t);
    assert ChannelOk(s.now, s.book.channels[i]);
    TokenOutlivesIff(s.book.channels[i]);
  }

  /** ... and on from there for a renewal lead beyond the last good pass, which is at least until
      the next scan is due. */
  lemma CoverLastsTheLead(s0: State, passes: seq<Pass>, t: int)
    requires Init(s0) && ScheduledRun(s0, passes) && TolerableRun(s0, passes)
    requires var s := Run(s0, passes); s.since.Some? && s.now <= t <= s.good + RENEW_LEAD
    ensures CoveredAt(Run(s0, passes).book, t)
    ensures var s := Run(s0, passes); s.scanned + SCAN_TICK <= s.good + RENEW_LEAD
  {
    RunKeepsCover(s0, passes);
    var s := Run(s0, passes);
    var c := s.book.channels[|s.book.channels| - 1];
    assert ChannelOk(s.now, c) && Live(c, t);
  }

  lemma {:induction false} RunKeepsInv(s: State, passes: seq<Pass>)
    requires Inv(s) && ScheduledRun(s, passes)
    ensures Inv(Run(s, passes))
    decreases |passes|
  {
    if passes != [] {
      StepKeepsInv(s, passes[0]);
      RunKeepsInv(Step(s, passes[0]), passes[1..]);
    }
  }

  /** Every channel a scheduled run ever creates, tolerable or not, has a token that verifies for
      the channel's whole life. */
  lemma TokenOutlivesTheChannel(s0: State, passes: seq<Pass>, i: nat, t: int)
    requires Init(s0) && ScheduledRun(s0, passes) && i < |Run(s0, passes).book.channels|
    requires var c := Run(s0, passes).book.channels[i]; c.createdAt <= t < c.expires
    ensures Verifies(Run(s0, passes).book.channels[i].tokenExp, t)
  {
    RunKeepsInv(s0, passes);
    var s := Run(s0, passes);
    assert ChannelOk(s.now, s.book.channels[i]);
    TokenOutlivesIff(s.book.channels[i]);
  }

  // ---------- Where cover is lost ----------

  function Failing(at: int): Pass {
    Pass(at, true, false, None, false, false, at)
  }

  function Failures(at: int, n: nat): seq<Pass>
    decreases n
  {
    if n == 0 then [] else [Failing(at)] + Failures(at + SCAN_TICK, n - 1)
  }

  /** Failures a tick apart are as scheduled, pass the time, and are tolerable up to the 23rd. */
  lemma {:induction false} FailuresOnlyPassTime(s: State, at: int, n: nat)
    requires ShouldEnsure(s.book.stored, at, RENEW_LEAD) && s.now == s.scanned && at == s.scanned + SCAN_TICK
    requires s.since.Some? && s.failures <= 23
    ensures ScheduledRun(s, Failures(at, n))
    ensures TolerableRun(s, Failures(at, n)) <==> s.failures + n <= 23
    ensures Run(s, Failures(at, n)) ==
      State(s.book, s.now + SCAN_TICK * n, s.scanned + SCAN_TICK * n, s.good, s.failures + n, s.since)
    decreases n
  {
    if n > 0 {
      var u := Step(s, Failing(at));
      assert Failures(at, n)[1..] == Failures(at + SCAN_TICK, n - 1);
      if u.failures <= 23 {
        FailuresOnlyPassTime(u, at + SCAN_TICK, n - 1);
      } else {
        FurtherFailures(u, at + SCAN_TICK, n - 1);
      }
    }
  }

  lemma {:induction false} FurtherFailures(s: State, at: int, n: nat)
    requires ShouldEnsure(s.book.stored, at, RENEW_LEAD) && s.now == s.scanned && at == s.scanned + SCAN_TICK
    ensures ScheduledRun(s, Failures(at, n))
    ensures Run(s, Failures(at, n)) ==
      State(s.book, s.now + SCAN_TICK * n, s.scanned + SCAN_TICK * n, s.good, s.failures + n, s.since)
    decreases n
  {
    if n > 0 {
      assert Failures(at, n)[1..] == Failures(at + SCAN_TICK, n - 1);
      FurtherFailures(Step(s, Failing(at)), at + SCAN_TICK, n - 1);
    }
  }

  /** A pass granted a channel some time into it. */
  function Succeeding(at: int, delay: nat, lifetime: int): Pass {
    Pass(at, true, false, Some(Grant(at + delay, lifetime, true)), true, false, at + delay)
  }

  /** From a standing start, one channel granted just over the lead, then failures every tick. */
  function Starved(now: int, n: nat): seq<Pass> {
    [Succeeding(now, 0, RENEW_LEAD + 1)] + Failures(now + SCAN_TICK, n)
  }

  lemma StarvedRun(s0: State, n: nat)
    requires Init(s0)
    ensures ScheduledRun(s0, Starved(s0.now, n))
    ensures TolerableRun(s0, Starved(s0.now, n)) <==> n <= 23
    ensures var first, s := Succeeding(s0.now, 0, RENEW_LEAD + 1), Run(s0, Starved(s0.now, n));
      && s.book == Book([Created(first, first.grant.value)], Some(Stored(0, Some(s0.now + RENEW_LEAD + 1))))
      && s.failures == n && s.since == Some(s0.now) && s.now == s.scanned == s0.now + SCAN_TICK * n
  {
    var first := Succeeding(s0.now, 0, RENEW_LEAD + 1);
    assert Starved(s0.now, n)[1..] == Failures(s0.now + SCAN_TICK, n);
    FailuresOnlyPassTime(Step(s0, first), s0.now + SCAN_TICK, n);
  }

  /** A 24th failure is one too many: on schedule throughout, tolerable up to the 23rd, the run
      leaves the connection uncovered before the next scan is due. */
  lemma TwentyFourFailuresLapse(s0: State)
    requires Init(s0)
    ensures TolerableRun(s0, Starved(s0.now, 23)) && !TolerableRun(s0, Starved(s0.now, 24))
    ensures ScheduledRun(s0, Starved(s0.now, 24))
    ensures var s, t := Run(s0, Starved(s0.now, 24)), s0.now + RENEW_LEAD + 1;
      s.since.Some? && s.scanned <= t < s.scanned + SCAN_TICK && !CoveredAt(s.book, t)
  {
    StarvedRun(s0, 23);
    StarvedRun(s0, 24);
  }

  /** After 23 failures the next channel has only what is left of the old one: made any later into
      its pass than that, though on schedule, it leaves a gap. */
  lemma LateRenewalLapses(s0: State, delay: nat)
    requires Init(s0) && 1 < delay <= SCAN_TICK
    ensures var s := Run(s0, Starved(s0.now, 23));
      var p := Succeeding(s.scanned + SCAN_TICK, delay, RENEW_LEAD + 1);
      && TolerableRun(s0, Starved(s0.now, 23)) && s.failures == 23
      && Scheduled(s, p) && Creates(s, p) && !InTime(s, p)
      && !CoveredAt(Step(s, p).book, s0.now + RENEW_LEAD + 1)
  {
    StarvedRun(s0, 23);
  }

  // ---------- Switching off and on again ----------

  ghost predicate OtherLive(b: Book, r: nat, t: int) {
    exists k :: 0 <= k < |b.channels| && k != r && Live(b.channels[k], t)
  }

  /** A connection switched off, and on again while its remembered channel is still fresh, is
      covered after the pass that would have renewed it, unless the channel was stopped and the
      stored state could not be cleared: then the pass takes the stopped channel for a fresh one. */
  lemma ReenabledIsCoveredIff(b: Book, r: nat, off: Pass, on: Pass)
    requires r < |b.channels| && b.channels[r].stoppedAt.None? && b.channels[r].createdAt <= off.at
    requires b.stored == Some(Stored(r, Some(b.channels[r].expires))) && b.channels[r].expires > on.at + RENEW_LEAD
    requires !off.wanted && off.at <= off.doneAt <= on.at
    requires on.wanted && !on.blocked && on.grant.Some?
    requires on.at <= on.grant.value.createdAt <= on.doneAt <= on.at + SCAN_TICK
    requires on.grant.value.lifetime > RENEW_LEAD
    ensures CoveredAt(Reconciled(Reconciled(b, off), on), on.doneAt) <==>
            !(!off.blocked && off.stopped && !off.saved) || OtherLive(b, r, on.doneAt)
  {
    var c := Reconciled(b, off);
    var d := Reconciled(c, on);
    if off.blocked || !off.stopped || off.saved {
      var i := if c.stored.None? then |b.channels| else r;
      assert Live(d.channels[i], on.doneAt);
    } else {
      assert d.channels == b.channels[r := b.channels[r].(stoppedAt := Some(off.doneAt))];
      if OtherLive(b, r, on.doneAt) {
        var k :| 0 <= k < |b.channels| && k != r && Live(b.channels[k], on.doneAt);
        assert Live(d.channels[k], on.doneAt);
      }
    }
  }

  /** The failing case in its plainest form: the connection's only channel, stopped but remembered. */
  lemma StoppedButRemembered(c: Channel, off: Pass, on: Pass)
    requires c.stoppedAt.None? && c.expires > on.at + RENEW_LEAD
    requires !off.wanted && !off.blocked && off.stopped && !off.saved
    requires on.wanted && on.at >= off.doneAt
    ensures var b := Reconciled(Reconciled(Book([c], Some(Stored(0, Some(c.expires)))), off), on);
      forall t :: t >= off.doneAt ==> !CoveredAt(b, t)
  {
  }

  // ---------- Where stops and saves succeed ----------

  /** Every stop and every save asked of the world works; passes follow one another. */
  predicate Smooth(s: State, p: Pass) {
    && p.stopped && p.saved
    && s.now <= p.at <= p.doneAt && (p.grant.Some? ==> p.at <= p.grant.value.createdAt <= p.doneAt)
  }

  predicate SmoothRun(s: State, passes: seq<Pass>)
    decreases |passes|
  {
    passes == [] || (Smooth(s, passes[0]) && SmoothRun(Step(s, passes[0]), passes[1..]))
  }

  predicate IsStored(b: Book, i: nat) {
    b.stored.Some? && b.stored.value.channel == i
  }

  /** Only the remembered channel, which is the newest, is not stopped. */
  ghost predicate OnlyStoredRuns(b: Book, now: int) {
    && (b.stored.Some? ==> var i := b.stored.value.channel; i + 1 == |b.channels| && b.channels[i].stoppedAt.None?)
    && (forall i :: 0 <= i < |b.channels| ==>
          if b.channels[i].stoppedAt.None? then IsStored(b, i) else b.channels[i].stoppedAt.value <= now)
  }

  lemma StepKeepsOneRunning(s: State, p: Pass)
    requires OnlyStoredRuns(s.book, s.now) && Smooth(s, p)
    ensures OnlyStoredRuns(Step(s, p).book, Step(s, p).now) && s.now <= Step(s, p).now
  {
  }

  lemma {:induction false} RunKeepsOneRunning(s: State, passes: seq<Pass>)
    requires OnlyStoredRuns(s.book, s.now) && SmoothRun(s, passes)
    ensures OnlyStoredRuns(Run(s, passes).book, Run(s, passes).now)
    decreases |passes|
  {
    if passes != [] {
      StepKeepsOneRunning(s, passes[0]);
      RunKeepsOneRunning(Step(s, passes[0]), passes[1..]);
    }
  }

  /** In every such run at most one channel has not been stopped, and it is the remembered one: a
      renewal stops the channel it supersedes. */
  lemma OneChannelRuns(s0: State, passes: seq<Pass>, i: nat, j: nat)
    requires Init(s0) && SmoothRun(s0, passes)
    requires var b := Run(s0, passes).book;
      i < |b.channels| && j < |b.channels| && b.channels[i].stoppedAt.None? && b.channels[j].stoppedAt.None?
    ensures i == j && IsStored(Run(s0, passes).book, i)
  {
    RunKeepsOneRunning(s0, passes);
  }

  /** And once the connection is no longer wanted, an unblocked pass leaves nothing remembered and no
      channel live from its end on. */
  lemma SwitchedOffIsGone(s0: State, passes: seq<Pass>, p: Pass, t: int)
    requires Init(s0) && SmoothRun(s0, passes) && Smooth(Run(s0, passes), p)
    requires !p.wanted && !p.blocked && t >= p.doneAt
    ensures var b := Step(Run(s0, passes), p).book; b.stored == None && !CoveredAt(b, t)
  {
    RunKeepsOneRunning(s0, passes);
    StepKeepsOneRunning(Run(s0, passes), p);
  }

  predicate AllReported(passes: seq<Pass>) {
    forall p :: p in passes && p.grant.Some? ==> p.grant.value.reported
  }

  predicate ExpiryKnown(b: Book) {
    b.stored.Some? ==>
      b.stored.value.channel < |b.channels| && b.stored.value.expiry == Some(b.channels[b.stored.value.channel].expires)
  }

  lemma {:induction false} RunKnowsExpiry(s: State, passes: seq<Pass>)
    requires OnlyStoredRuns(s.book, s.now) && ExpiryKnown(s.book) && SmoothRun(s, passes) && AllReported(passes)
    ensures ExpiryKnown(Run(s, passes).book)
    decreases |passes|
  {
    if passes != [] {
      StepKeepsOneRunning(s, passes[0]);
      RunKnowsExpiry(Step(s, passes[0]), passes[1..]);
    }
  }

  /** Where Google reports expiries, too, a wanted pass makes a channel exactly when none that runs
      outlasts it by the renewal lead, and otherwise leaves everything as it is. */
  lemma RenewsExactlyWhenDue(s0: State, passes: seq<Pass>, p: Pass)
    requires Init(s0) && SmoothRun(s0, passes) && AllReported(passes)
    requires p.wanted && !p.blocked && p.grant.Some?
    ensures var b, after := Run(s0, passes).book, Step(Run(s0, passes), p).book;
      if forall i :: 0 <= i < |b.channels| && b.channels[i].stoppedAt.None? ==>
           b.channels[i].expires <= p.at + RENEW_LEAD
      then |after.channels| == |b.channels| + 1
      else after == b
  {
    RunKeepsOneRunning(s0, passes);
    RunKnowsExpiry(s0, passes);
  }

  /** Whatever went before, switching off forgets the channel exactly if the clearing is saved, and
      stops it exactly if the stop works; no other channel and no other state is touched. */
  lemma SwitchingOffIff(b: Book, p: Pass, i: nat)
    requires !p.wanted && !p.blocked && b.stored.Some? && i < |b.channels|
    ensures var after := Reconciled(b, p);
      && (after.stored == None <==> p.saved) && (after.stored == b.stored <==> !p.saved)
      && |after.channels| == |b.channels|
      && (after.channels[i] != b.channels[i] <==> p.stopped && IsStored(b, i) && b.channels[i].stoppedAt.None?)
      && (after.channels[i] != b.channels[i] ==> after.channels[i] == b.channels[i].(stoppedAt := Some(p.doneAt)))
  {
  }
}
