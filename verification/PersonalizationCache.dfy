// The generation-stamped profile cache (crates/catalerum-api/src/personalization_cache.rs) and
// its one reader, `cached_profile` (crates/catalerum-api/src/state.rs).

module PersonalizationCache {
  import opened Collections

  datatype Key = Key(ws: nat, user: nat)
  datatype Entry<P> = Entry(profile: P, generation: nat, storedAt: int)

  function GenerationIn(generations: map<nat, nat>, ws: nat): nat {
    if ws in generations then generations[ws] else 0
  }

  /** Every entry of the workspace built before is now out of date. */
  function Bumped(generations: map<nat, nat>, ws: nat): map<nat, nat> {
    generations[ws := GenerationIn(generations, ws) + 1]
  }

  function WithEntry<P>(entries: map<Key, Entry<P>>, key: Key, profile: P, generation: nat, storedAt: int)
    : map<Key, Entry<P>>
  {
    entries[key := Entry(profile, generation, storedAt)]
  }

  /** The second critical section of `get`: the entry, judged against a generation read earlier. */
  function Lookup<P>(entries: map<Key, Entry<P>>, key: Key, current: nat, ttl: nat, now: int): Option<P> {
    if key !in entries || entries[key].generation != current then None
    else if Elapsed(entries[key].storedAt, now) >= ttl then None
    else Some(entries[key].profile)
  }

  /** A saturating difference of instants. */
  function Elapsed(since: int, now: int): nat {
    if now >= since then now - since else 0
  }

  class PersonalizationCache<P> {
    var generations: map<nat, nat>
    var entries: map<Key, Entry<P>>
    const ttl: nat

    constructor (ttl: nat)
      ensures this.ttl == ttl && generations == map[] && entries == map[]
    {
      this.ttl := ttl;
      generations, entries := map[], map[];
    }

    method Generation(ws: nat) returns (g: nat)
      ensures g == GenerationIn(generations, ws)
    {
      g := 0;
      if ws in generations {
        g := generations[ws];
      }
    }

    method Bump(ws: nat)
      modifies this`generations
      ensures generations == Bumped(old(generations), ws)
      ensures GenerationIn(generations, ws) == GenerationIn(old(generations), ws) + 1
      ensures forall w :: w != ws ==> GenerationIn(generations, w) == GenerationIn(old(generations), w)
    {
      if ws !in generations {
        generations := generations[ws := 0];
      }
      generations := generations[ws := generations[ws] + 1];
    }

    method Get(key: Key, now: int) returns (profile: Option<P>)
      ensures profile == Lookup(entries, key, GenerationIn(generations, key.ws), ttl, now)
      ensures profile.Some? <==>
        && key in entries
        && entries[key].generation == GenerationIn(generations, key.ws)
        && (if now <= entries[key].storedAt then ttl > 0 else now < entries[key].storedAt + ttl)
      ensures profile.Some? ==> profile.value == entries[key].profile
    {
      var current := Generation(key.ws);
      if key !in entries {
        return None;
      }
      var e := entries[key];
      if e.generation != current {
        return None;
      }
      if Elapsed(e.storedAt, now) >= ttl {
        return None;
      }
      return Some(e.profile);
    }

    /** From here on a get of the key hits under this generation only, until the TTL is over, and
        then returns this profile; what any other key's get returns is as before. */
    method Put(key: Key, profile: P, generation: nat, now: int)
      modifies this`entries
      ensures entries == WithEntry(old(entries), key, profile, generation, now)
      ensures forall g: nat, later: int ::
        Lookup(entries, key, g, ttl, later) ==
        if g == generation && Elapsed(now, later) < ttl then Some(profile) else None
      ensures forall k, g: nat, later: int ::
        k != key ==> Lookup(entries, k, g, ttl, later) == Lookup(old(entries), k, g, ttl, later)
    {
      entries := entries[key := Entry(profile, generation, now)];
    }
  }

  // ---------- Concurrent readers and writers ----------

  /** A profile read from the store: it shows the first `version` writes of its key. */
  datatype Snapshot = Snapshot(version: nat, readAt: int)

  /** `floor` is what freshness will be judged by: the newest write of the key whose bump had
      completed when the read began. It plays no part in what a step does. */
  datatype Reader =
    | Idle
    | Asking(key: Key, begun: int, floor: nat)
    | Comparing(key: Key, begun: int, floor: nat, current: nat)
    | Missed(key: Key, begun: int, floor: nat)
    | Reading(key: Key, begun: int, floor: nat, generation: nat)
    | Filling(key: Key, begun: int, floor: nat, generation: nat, profile: Snapshot)

  datatype Writer = Resting | Stored(key: Key, version: nat)
  datatype Bump = Bump(user: nat, version: nat)
  datatype Answer = Answer(key: Key, begun: int, floor: nat, profile: Snapshot, cachedAt: Option<int>)

  datatype State = State(
    now: int,
    generations: map<nat, nat>,
    entries: map<Key, Entry<Snapshot>>,
    writes: map<Key, seq<int>>, // when each write of a key reached the store
    bumps: map<nat, seq<Bump>>, // per workspace, the writes whose bump completed, in bump order
    readers: seq<Reader>,
    writers: seq<Writer>,
    answers: seq<Answer>)

  datatype Action =
    | Wait(ms: nat)
    | Ask(r: nat, key: Key)
    | TakeGeneration(r: nat)
    | CompareEntry(r: nat)
    | CaptureGeneration(r: nat)
    | ReadStore(r: nat)
    | FailRead(r: nat)
    | PutEntry(r: nat, storedAt: int) // the instant was taken some time between read and put
    | Write(w: nat, key: Key)
    | FinishBump(w: nat)

  function Of<K, T>(m: map<K, seq<T>>, k: K): seq<T> {
    if k in m then m[k] else []
  }

  /** The newest version of the user's profile among some completed bumps. */
  function Floor(bumps: seq<Bump>, user: nat): nat {
    if bumps == [] then 0
    else
      var before, last := Floor(bumps[..|bumps| - 1], user), bumps[|bumps| - 1];
      if last.user == user && last.version > before then last.version else before
  }

  function FloorOf(s: State, key: Key): nat {
    Floor(Of(s.bumps, key.ws), key.user)
  }

  function At(s: State, r: nat, reader: Reader): State
    requires r < |s.readers|
  {
    s.(readers := s.readers[r := reader])
  }

  function Replied(s: State, r: nat, profile: Snapshot, cachedAt: Option<int>): State
    requires r < |s.readers| && s.readers[r] != Idle
  {
    var pc := s.readers[r];
    At(s.(answers := s.answers + [Answer(pc.key, pc.begun, pc.floor, profile, cachedAt)]), r, Idle)
  }

  function Compared(ttl: nat, s: State, r: nat): State
    requires r < |s.readers| && s.readers[r].Comparing?
  {
    var pc := s.readers[r];
    match Lookup(s.entries, pc.key, pc.current, ttl, pc.begun)
    case Some(profile) => Replied(s, r, profile, Some(s.entries[pc.key].storedAt))
    case None => At(s, r, Missed(pc.key, pc.begun, pc.floor))
  }

  function Filled(s: State, r: nat, storedAt: int): State
    requires r < |s.readers| && s.readers[r].Filling?
  {
    var pc := s.readers[r];
    Replied(s.(entries := WithEntry(s.entries, pc.key, pc.profile, pc.generation, storedAt)), r, pc.profile, None)
  }

  function ReaderStep(ttl: nat, s: State, r: nat, a: Action): State
    requires r < |s.readers|
  {
    var pc := s.readers[r];
    match a
    case Ask(_, key) => if pc.Idle? then At(s, r, Asking(key, s.now, FloorOf(s, key))) else s
    case TakeGeneration(_) =>
      if pc.Asking? then At(s, r, Comparing(pc.key, pc.begun, pc.floor, GenerationIn(s.generations, pc.key.ws))) else s
    case CompareEntry(_) => if pc.Comparing? then Compared(ttl, s, r) else s
    case CaptureGeneration(_) =>
      if pc.Missed? then At(s, r, Reading(pc.key, pc.begun, pc.floor, GenerationIn(s.generations, pc.key.ws))) else s
    case ReadStore(_) =>
      if pc.Reading?
      then At(s, r, Filling(pc.key, pc.begun, pc.floor, pc.generation, Snapshot(|Of(s.writes, pc.key)|, s.now)))
      else s
    case FailRead(_) => if pc.Reading? then At(s, r, Idle) else s
    case PutEntry(_, storedAt) =>
      if pc.Filling? && pc.profile.readAt <= storedAt <= s.now then Filled(s, r, storedAt) else s
    case _ => s
  }

  function WriteStep(s: State, w: nat, key: Key): State
    requires w < |s.writers|
  {
    if s.writers[w] != Resting then s
    else
      var log := Of(s.writes, key);
      s.(writes := s.writes[key := log + [s.now]], writers := s.writers[w := Stored(key, |log| + 1)])
  }

  function BumpStep(s: State, w: nat): State
    requires w < |s.writers|
  {
    match s.writers[w]
    case Resting => s
    case Stored(key, version) =>
      s.(generations := Bumped(s.generations, key.ws),
         bumps := s.bumps[key.ws := Of(s.bumps, key.ws) + [Bump(key.user, version)]],
         writers := s.writers[w := Resting])
  }

  function Apply(ttl: nat, s: State, a: Action): State {
    match a
    case Wait(ms) => s.(now := s.now + ms)
    case Write(w, key) => if w < |s.writers| then WriteStep(s, w, key) else s
    case FinishBump(w) => if w < |s.writers| then BumpStep(s, w) else s
    case _ => if a.r < |s.readers| then ReaderStep(ttl, s, a.r, a) else s
  }

  function Run(ttl: nat, s: State, actions: seq<Action>): State
    decreases |actions|
  {
    if actions == [] then s else Run(ttl, Apply(ttl, s, actions[0]), actions[1..])
  }

  /** A fresh process over a store that may already hold profiles. */
  ghost predicate Init(s: State) {
    && s.generations == map[] && s.entries == map[] && s.bumps == map[] && s.answers == []
    && (forall k, i :: k in s.writes && 0 <= i < |s.writes[k]| ==> s.writes[k][i] <= s.now)
    && (forall r :: 0 <= r < |s.readers| ==> s.readers[r] == Idle)
    && (forall w :: 0 <= w < |s.writers| ==> s.writers[w] == Resting)
  }

  // ---------- Invariant ----------

  /** What the snapshot shows reached the store by the time it was read, and the rest no earlier. */
  ghost predicate Complete(writes: seq<int>, profile: Snapshot) {
    && profile.version <= |writes|
    && (forall i :: 0 <= i < profile.version ==> writes[i] <= profile.readAt)
    && forall i :: profile.version <= i < |writes| ==> writes[i] >= profile.readAt
  }

  /** Filled under a generation, a snapshot shows every write bumped by then. */
  ghost predicate FreshFor(bumps: seq<Bump>, user: nat, generation: nat, profile: Snapshot) {
    generation <= |bumps| && profile.version >= Floor(bumps[..generation], user)
  }

  /** The shared history the conditions below speak about. */
  datatype History = History(now: int, writes: map<Key, seq<int>>, bumps: map<nat, seq<Bump>>)

  function Past(s: State): History {
    History(s.now, s.writes, s.bumps)
  }

  ghost predicate EntryOk(h: History, key: Key, e: Entry<Snapshot>) {
    && FreshFor(Of(h.bumps, key.ws), key.user, e.generation, e.profile)
    && Complete(Of(h.writes, key), e.profile)
    && e.profile.readAt <= e.storedAt <= h.now
  }

  ghost predicate ReaderOk(h: History, pc: Reader) {
    pc.Idle? || (pc.begun <= h.now && ReaderFresh(h, Of(h.bumps, pc.key.ws), pc))
  }

  ghost predicate ReaderFresh(h: History, bumps: seq<Bump>, pc: Reader)
    requires !pc.Idle?
  {
    match pc
    case Asking(key, _, floor) => floor <= Floor(bumps, key.user)
    case Comparing(key, _, floor, current) => current <= |bumps| && floor <= Floor(bumps[..current], key.user)
    case Missed(key, _, floor) => floor <= Floor(bumps, key.user)
    case Reading(key, _, floor, generation) => generation <= |bumps| && floor <= Floor(bumps, key.user)
    case Filling(key, begun, floor, generation, profile) =>
      && begun <= profile.readAt <= h.now
      && floor <= profile.version
      && FreshFor(bumps, key.user, generation, profile)
      && Complete(Of(h.writes, key), profile)
  }

  ghost predicate WriterOk(h: History, w: Writer) {
    w.Stored? ==> 1 <= w.version <= |Of(h.writes, w.key)|
  }

  ghost predicate BumpOk(h: History, ws: nat, b: Bump) {
    1 <= b.version <= |Of(h.writes, Key(ws, b.user))|
  }

  ghost predicate BumpsOk(h: History, ws: nat) {
    forall i :: 0 <= i < |Of(h.bumps, ws)| ==> BumpOk(h, ws, Of(h.bumps, ws)[i])
  }

  ghost predicate AnswerOk(ttl: nat, h: History, a: Answer) {
    && a.profile.readAt <= h.now
    && a.floor <= a.profile.version
    && Complete(Of(h.writes, a.key), a.profile)
    && match a.cachedAt
       case Some(at) => a.profile.readAt <= at && Elapsed(at, a.begun) < ttl
       case None => a.begun <= a.profile.readAt
  }

  ghost predicate Counted(s: State, ws: nat) {
    GenerationIn(s.generations, ws) == |Of(s.bumps, ws)|
  }

  ghost predicate WritesPast(h: History, key: Key) {
    forall i :: 0 <= i < |Of(h.writes, key)| ==> Of(h.writes, key)[i] <= h.now
  }

  ghost predicate Inv(ttl: nat, s: State) {
    && (forall ws :: Counted(s, ws))
    && (forall key :: WritesPast(Past(s), key))
    && (forall ws :: BumpsOk(Past(s), ws))
    && (forall key :: key in s.entries ==> EntryOk(Past(s), key, s.entries[key]))
    && (forall r :: 0 <= r < |s.readers| ==> ReaderOk(Past(s), s.readers[r]))
    && (forall w :: 0 <= w < |s.writers| ==> WriterOk(Past(s), s.writers[w]))
    && (forall a :: a in s.answers ==> AnswerOk(ttl, Past(s), a))
  }

  lemma {:induction false} FloorOfPrefix(bumps: seq<Bump>, n: nat, user: nat)
    requires n <= |bumps|
    ensures Floor(bumps[..n], user) <= Floor(bumps, user)
    decreases |bumps|
  {
    if n == |bumps| {
      assert bumps[..n] == bumps;
    } else {
      var short := bumps[..|bumps| - 1];
      FloorOfPrefix(short, n, user);
      assert short[..n] == bumps[..n];
    }
  }

  lemma {:induction false} FloorIsReached(bumps: seq<Bump>, user: nat)
    ensures Floor(bumps, user) == 0 || Bump(user, Floor(bumps, user)) in bumps
    ensures forall b :: b in bumps && b.user == user ==> b.version <= Floor(bumps, user)
  {
    if bumps != [] {
      var short := bumps[..|bumps| - 1];
      FloorIsReached(short, user);
      assert bumps == short + [bumps[|bumps| - 1]];
    }
  }

  /** Nothing bumped is ahead of the store. */
  lemma StoreIsAhead(h: History, key: Key)
    requires BumpsOk(h, key.ws)
    ensures Floor(Of(h.bumps, key.ws), key.user) <= |Of(h.writes, key)|
  {
    var bumps := Of(h.bumps, key.ws);
    FloorIsReached(bumps, key.user);
    if Floor(bumps, key.user) != 0 {
      var i :| 0 <= i < |bumps| && bumps[i] == Bump(key.user, Floor(bumps, key.user));
      assert BumpOk(h, key.ws, bumps[i]);
    }
  }

  // ---------- Reader steps ----------

  lemma GenerationKeepsReader(ttl: nat, s: State, pc: Reader)
    requires Inv(ttl, s) && ReaderOk(Past(s), pc)
    ensures pc.Asking? ==>
      ReaderOk(Past(s), Comparing(pc.key, pc.begun, pc.floor, GenerationIn(s.generations, pc.key.ws)))
    ensures pc.Missed? ==>
      ReaderOk(Past(s), Reading(pc.key, pc.begun, pc.floor, GenerationIn(s.generations, pc.key.ws)))
  {
    if !pc.Idle? {
      var bumps := Of(s.bumps, pc.key.ws);
      assert Counted(s, pc.key.ws);
      assert bumps[..|bumps|] == bumps;
    }
  }

  lemma ReadKeepsReader(ttl: nat, s: State, pc: Reader)
    requires Inv(ttl, s) && ReaderOk(Past(s), pc) && pc.Reading?
    ensures ReaderOk(Past(s),
      Filling(pc.key, pc.begun, pc.floor, pc.generation, Snapshot(|Of(s.writes, pc.key)|, s.now)))
  {
    StoreIsAhead(Past(s), pc.key);
    assert WritesPast(Past(s), pc.key);
    FloorOfPrefix(Of(s.bumps, pc.key.ws), pc.generation, pc.key.user);
  }

  /** The heart of the cache: an entry whose generation equals one read after `begun` shows
      everything bumped by `begun`, whatever ran between the two critical sections. */
  lemma HitIsFresh(ttl: nat, s: State, pc: Reader)
    requires Inv(ttl, s) && ReaderOk(Past(s), pc) && pc.Comparing?
    ensures match Lookup(s.entries, pc.key, pc.current, ttl, pc.begun)
            case Some(profile) =>
              AnswerOk(ttl, Past(s), Answer(pc.key, pc.begun, pc.floor, profile, Some(s.entries[pc.key].storedAt)))
            case None => ReaderOk(Past(s), Missed(pc.key, pc.begun, pc.floor))
  {
    var bumps := Of(s.bumps, pc.key.ws);
    FloorOfPrefix(bumps, pc.current, pc.key.user);
    if pc.key in s.entries {
      assert EntryOk(Past(s), pc.key, s.entries[pc.key]);
    }
  }

  lemma AnswersKeepInv(ttl: nat, s: State, r: nat, pc: Reader, answers: seq<Answer>)
    requires Inv(ttl, s) && r < |s.readers| && ReaderOk(Past(s), pc)
    requires forall a :: a in answers ==> AnswerOk(ttl, Past(s), a)
    ensures Inv(ttl, At(s.(answers := s.answers + answers), r, pc))
  {
    var t := At(s.(answers := s.answers + answers), r, pc);
    assert Past(t) == Past(s);
    forall ws ensures Counted(t, ws) { assert Counted(s, ws); }
  }

  lemma PutKeepsInv(ttl: nat, s: State, key: Key, e: Entry<Snapshot>)
    requires Inv(ttl, s) && EntryOk(Past(s), key, e)
    ensures Inv(ttl, s.(entries := s.entries[key := e]))
  {
    var t := s.(entries := s.entries[key := e]);
    assert Past(t) == Past(s);
    forall ws ensures Counted(t, ws) { assert Counted(s, ws); }
  }

  lemma CompareKeepsInv(ttl: nat, s: State, r: nat)
    requires Inv(ttl, s) && r < |s.readers| && s.readers[r].Comparing?
    ensures Inv(ttl, Compared(ttl, s, r))
  {
    var pc := s.readers[r];
    HitIsFresh(ttl, s, pc);
    match Lookup(s.entries, pc.key, pc.current, ttl, pc.begun)
    case Some(profile) =>
      AnswersKeepInv(ttl, s, r, Idle, [Answer(pc.key, pc.begun, pc.floor, profile, Some(s.entries[pc.key].storedAt))]);
    case None =>
      AnswersKeepInv(ttl, s, r, Missed(pc.key, pc.begun, pc.floor), []);
      assert s.answers + [] == s.answers;
  }

  lemma FillKeepsInv(ttl: nat, s: State, r: nat, storedAt: int)
    requires Inv(ttl, s) && r < |s.readers| && s.readers[r].Filling?
    requires s.readers[r].profile.readAt <= storedAt <= s.now
    ensures Inv(ttl, Filled(s, r, storedAt))
  {
    var pc := s.readers[r];
    assert ReaderOk(Past(s), pc);
    var e := Entry(pc.profile, pc.generation, storedAt);
    PutKeepsInv(ttl, s, pc.key, e);
    AnswersKeepInv(ttl, s.(entries := s.entries[pc.key := e]), r, Idle,
                   [Answer(pc.key, pc.begun, pc.floor, pc.profile, None)]);
  }

  /** Steps that neither judge an entry nor store one. */
  lemma PlainStepKeepsInv(ttl: nat, s: State, r: nat, a: Action)
    requires Inv(ttl, s) && r < |s.readers| && !a.CompareEntry? && !a.PutEntry?
    ensures Inv(ttl, ReaderStep(ttl, s, r, a))
  {
    var pc := s.readers[r];
    assert ReaderOk(Past(s), pc);
    GenerationKeepsReader(ttl, s, pc);
    if pc.Reading? { ReadKeepsReader(ttl, s, pc); }
    assert s.answers + [] == s.answers && s.readers[r := pc] == s.readers;
    AnswersKeepInv(ttl, s, r, ReaderStep(ttl, s, r, a).readers[r], []);
  }

  lemma ReaderStepKeepsInv(ttl: nat, s: State, r: nat, a: Action)
    requires Inv(ttl, s) && r < |s.readers|
    ensures Inv(ttl, ReaderStep(ttl, s, r, a))
  {
    var pc := s.readers[r];
    match a
    case CompareEntry(_) => if pc.Comparing? { CompareKeepsInv(ttl, s, r); }
    case PutEntry(_, storedAt) =>
      if pc.Filling? && pc.profile.readAt <= storedAt <= s.now { FillKeepsInv(ttl, s, r, storedAt); }
    case _ => PlainStepKeepsInv(ttl, s, r, a);
  }

  // ---------- The history grows ----------

  /** Time, writes and bumps are only ever added to, and writes carry the current time. */
  ghost predicate Grows(h: History, g: History) {
    && h.now <= g.now
    && (forall key :: LogGrows(h, g, key))
    && (forall ws :: Of(h.bumps, ws) <= Of(g.bumps, ws))
  }

  ghost predicate LogGrows(h: History, g: History, key: Key) {
    && Of(h.writes, key) <= Of(g.writes, key)
    && forall i :: |Of(h.writes, key)| <= i < |Of(g.writes, key)| ==> Of(g.writes, key)[i] == h.now
  }

  lemma FreshGrows(bumps: seq<Bump>, more: seq<Bump>, user: nat)
    requires bumps <= more
    ensures Floor(bumps, user) <= Floor(more, user)
    ensures forall n :: 0 <= n <= |bumps| ==> more[..n] == bumps[..n]
  {
    assert more[..|bumps|] == bumps;
    FloorOfPrefix(more, |bumps|, user);
  }

  lemma ReaderGrows(h: History, g: History, pc: Reader)
    requires Grows(h, g) && ReaderOk(h, pc)
    ensures ReaderOk(g, pc)
  {
    if !pc.Idle? {
      FreshGrows(Of(h.bumps, pc.key.ws), Of(g.bumps, pc.key.ws), pc.key.user);
      assert LogGrows(h, g, pc.key);
    }
  }

  lemma EntryGrows(h: History, g: History, key: Key, e: Entry<Snapshot>)
    requires Grows(h, g) && EntryOk(h, key, e)
    ensures EntryOk(g, key, e)
  {
    FreshGrows(Of(h.bumps, key.ws), Of(g.bumps, key.ws), key.user);
    assert LogGrows(h, g, key);
  }

  lemma AnswerGrows(ttl: nat, h: History, g: History, a: Answer)
    requires Grows(h, g) && AnswerOk(ttl, h, a)
    ensures AnswerOk(ttl, g, a)
  {
    assert LogGrows(h, g, a.key);
  }

  /** What a step of a writer, or time, leaves to be checked once its history has grown. */
  lemma GrowthKeepsInv(ttl: nat, s: State, t: State)
    requires Inv(ttl, s) && Grows(Past(s), Past(t))
    requires t.entries == s.entries && t.readers == s.readers && t.answers == s.answers
    requires forall ws :: Counted(t, ws)
    requires forall key :: WritesPast(Past(t), key)
    requires forall ws :: BumpsOk(Past(t), ws)
    requires forall w :: 0 <= w < |t.writers| ==> WriterOk(Past(t), t.writers[w])
    ensures Inv(ttl, t)
  {
    forall key | key in t.entries ensures EntryOk(Past(t), key, t.entries[key]) {
      EntryGrows(Past(s), Past(t), key, s.entries[key]);
    }
    forall r | 0 <= r < |t.readers| ensures ReaderOk(Past(t), t.readers[r]) {
      ReaderGrows(Past(s), Past(t), s.readers[r]);
    }
    forall a | a in t.answers ensures AnswerOk(ttl, Past(t), a) {
      AnswerGrows(ttl, Past(s), Past(t), a);
    }
  }

  lemma WaitKeepsInv(ttl: nat, s: State, ms: nat)
    requires Inv(ttl, s)
    ensures Inv(ttl, s.(now := s.now + ms))
  {
    var t := s.(now := s.now + ms);
    forall ws ensures Counted(t, ws) && BumpsOk(Past(t), ws) {
      assert Counted(s, ws) && BumpsOk(Past(s), ws);
      forall i | 0 <= i < |Of(t.bumps, ws)| ensures BumpOk(Past(t), ws, Of(t.bumps, ws)[i]) {
        assert BumpOk(Past(s), ws, Of(s.bumps, ws)[i]);
      }
    }
    forall key ensures WritesPast(Past(t), key) { assert WritesPast(Past(s), key); }
    GrowthKeepsInv(ttl, s, t);
  }

  lemma WriteKeepsInv(ttl: nat, s: State, w: nat, key: Key)
    requires Inv(ttl, s) && w < |s.writers| && s.writers[w] == Resting
    ensures Inv(ttl, WriteStep(s, w, key))
  {
    var t := WriteStep(s, w, key);
    forall k ensures LogGrows(Past(s), Past(t), k) && WritesPast(Past(t), k) {
      assert WritesPast(Past(s), k);
    }
    forall ws ensures Counted(t, ws) && BumpsOk(Past(t), ws) {
      assert Counted(s, ws) && BumpsOk(Past(s), ws);
      forall i | 0 <= i < |Of(t.bumps, ws)| ensures BumpOk(Past(t), ws, Of(t.bumps, ws)[i]) {
        assert BumpOk(Past(s), ws, Of(s.bumps, ws)[i]);
      }
    }
    forall v | 0 <= v < |t.writers| ensures WriterOk(Past(t), t.writers[v]) {
      assert v != w ==> WriterOk(Past(s), s.writers[v]);
    }
    GrowthKeepsInv(ttl, s, t);
  }

  lemma BumpKeepsInv(ttl: nat, s: State, w: nat)
    requires Inv(ttl, s) && w < |s.writers| && s.writers[w].Stored?
    ensures Inv(ttl, BumpStep(s, w))
  {
    var t, key := BumpStep(s, w), s.writers[w].key;
    assert WriterOk(Past(s), s.writers[w]);
    forall k ensures WritesPast(Past(t), k) { assert WritesPast(Past(s), k); }
    forall ws ensures Counted(t, ws) && BumpsOk(Past(t), ws) {
      assert Counted(s, ws) && BumpsOk(Past(s), ws);
      forall i | 0 <= i < |Of(t.bumps, ws)| ensures BumpOk(Past(t), ws, Of(t.bumps, ws)[i]) {
        if i < |Of(s.bumps, ws)| {
          assert BumpOk(Past(s), ws, Of(s.bumps, ws)[i]);
        }
      }
    }
    forall v | 0 <= v < |t.writers| ensures WriterOk(Past(t), t.writers[v]) {
      assert v != w ==> WriterOk(Past(s), s.writers[v]);
    }
    GrowthKeepsInv(ttl, s, t);
  }

  lemma StepKeepsInv(ttl: nat, s: State, a: Action)
    requires Inv(ttl, s)
    ensures Inv(ttl, Apply(ttl, s, a))
  {
    match a
    case Wait(ms) => WaitKeepsInv(ttl, s, ms);
    case Write(w, key) => if w < |s.writers| && s.writers[w] == Resting { WriteKeepsInv(ttl, s, w, key); }
    case FinishBump(w) => if w < |s.writers| && s.writers[w].Stored? { BumpKeepsInv(ttl, s, w); }
    case _ => if a.r < |s.readers| { ReaderStepKeepsInv(ttl, s, a.r, a); }
  }

  lemma {:induction false} RunKeepsInv(ttl: nat, s: State, actions: seq<Action>)
    requires Inv(ttl, s)
    ensures Inv(ttl, Run(ttl, s, actions))
    decreases |actions|
  {
    if actions != [] {
      StepKeepsInv(ttl, s, actions[0]);
      RunKeepsInv(ttl, Apply(ttl, s, actions[0]), actions[1..]);
    }
  }

  lemma InitHasInv(ttl: nat, s: State)
    requires Init(s)
    ensures Inv(ttl, s)
  {
  }

  // ---------- What a caller of cached_profile can rely on ----------

  /** In every interleaving, no answer is older than the newest write whose bump had completed
      when its read began: neither a hit, nor a read-through, nor a hit on an entry some late
      fill put over a newer one. */
  lemma AnswersAreFresh(ttl: nat, s0: State, actions: seq<Action>)
    requires Init(s0)
    ensures forall a :: a in Run(ttl, s0, actions).answers ==> a.profile.version >= a.floor
  {
    InitHasInv(ttl, s0);
    RunKeepsInv(ttl, s0, actions);
    var s := Run(ttl, s0, actions);
    forall a | a in s.answers ensures a.profile.version >= a.floor {
      assert AnswerOk(ttl, Past(s), a);
    }
  }

  /** The backstop, for writers that never bump: a hit was filled less than the TTL before the
      read began, and shows every write older than the fill's store read. */
  lemma BackstopHolds(ttl: nat, s0: State, actions: seq<Action>, a: Answer, i: nat)
    requires Init(s0)
    requires var s := Run(ttl, s0, actions);
      && a in s.answers && a.cachedAt.Some?
      && i < |Of(s.writes, a.key)| && Of(s.writes, a.key)[i] < a.profile.readAt
    ensures Elapsed(a.cachedAt.value, a.begun) < ttl && a.profile.readAt <= a.cachedAt.value
    ensures i < a.profile.version
  {
    InitHasInv(ttl, s0);
    RunKeepsInv(ttl, s0, actions);
    assert AnswerOk(ttl, Past(Run(ttl, s0, actions)), a);
  }

  /** A fill that raced a bump is never served to a read that starts after that bump. */
  lemma RacedFillIsNeverServed(ttl: nat, s: State, key: Key, begun: int)
    requires Inv(ttl, s) && key in s.entries
    requires s.entries[key].profile.version < FloorOf(s, key)
    ensures Lookup(s.entries, key, GenerationIn(s.generations, key.ws), ttl, begun) == None
  {
    assert EntryOk(Past(s), key, s.entries[key]);
    assert Counted(s, key.ws);
    var bumps := Of(s.bumps, key.ws);
    assert bumps[..|bumps|] == bumps;
  }

  // ---------- When a hit is what a direct read would return ----------

  function Base(s0: State, key: Key): nat {
    |Of(s0.writes, key)|
  }

  /** Every write since the process started has been bumped, or its writer is about to. */
  ghost predicate Announced(s0: State, s: State, key: Key, version: nat) {
    || Bump(key.user, version) in Of(s.bumps, key.ws)
    || exists w :: 0 <= w < |s.writers| && s.writers[w] == Stored(key, version)
  }

  /** Nothing read in this process is older than what the store held when it started. */
  ghost predicate Recent(s0: State, s: State) {
    && (forall key :: Base(s0, key) <= |Of(s.writes, key)|)
    && (forall key :: key in s.entries ==> s.entries[key].profile.version >= Base(s0, key))
    && (forall r :: 0 <= r < |s.readers| && s.readers[r].Filling? ==>
          s.readers[r].profile.version >= Base(s0, s.readers[r].key))
    && (forall key, v :: Base(s0, key) < v <= |Of(s.writes, key)| ==> Announced(s0, s, key, v))
  }

  /** A reader moves alone; it stores what it holds, and holds what the store shows. */
  lemma ReaderMoves(ttl: nat, s: State, r: nat, a: Action)
    requires r < |s.readers|
    ensures var t, pc := ReaderStep(ttl, s, r, a), s.readers[r];
      && t.writes == s.writes && t.bumps == s.bumps && t.writers == s.writers
      && |t.readers| == |s.readers| && (forall q :: 0 <= q < |s.readers| && q != r ==> t.readers[q] == s.readers[q])
      && (t.readers[r].Filling? ==>
            t.readers[r] == pc || t.readers[r].profile.version == |Of(s.writes, t.readers[r].key)|)
      && (t.entries == s.entries || (pc.Filling? && exists at ::
            t.entries == WithEntry(s.entries, pc.key, pc.profile, pc.generation, at)))
  {
    if a.PutEntry? && s.readers[r].Filling? {
      assert s.readers[r].profile.readAt <= a.storedAt <= s.now ==>
        Filled(s, r, a.storedAt).entries ==
        WithEntry(s.entries, s.readers[r].key, s.readers[r].profile, s.readers[r].generation, a.storedAt);
    }
  }

  lemma ReadersKeepRecent(ttl: nat, s0: State, s: State, r: nat, a: Action)
    requires Recent(s0, s) && r < |s.readers|
    ensures Recent(s0, ReaderStep(ttl, s, r, a))
  {
    ReaderMoves(ttl, s, r, a);
    SameWritesStayRecent(s0, s, ReaderStep(ttl, s, r, a));
  }

  lemma SameWritesStayRecent(s0: State, s: State, t: State)
    requires Recent(s0, s) && t.writes == s.writes && t.bumps == s.bumps && t.writers == s.writers
    requires forall key :: key in t.entries ==>
      (key in s.entries && t.entries[key] == s.entries[key]) || t.entries[key].profile.version >= Base(s0, key)
    requires forall r :: 0 <= r < |t.readers| && t.readers[r].Filling? ==>
      t.readers[r].profile.version >= Base(s0, t.readers[r].key)
    ensures Recent(s0, t)
  {
    forall key, v | Base(s0, key) < v <= |Of(t.writes, key)| ensures Announced(s0, t, key, v) {
      assert Announced(s0, s, key, v);
    }
    forall key ensures Base(s0, key) <= |Of(t.writes, key)| {
      assert Base(s0, key) <= |Of(s.writes, key)|;
    }
  }

  lemma WriteKeepsRecent(s0: State, s: State, w: nat, key: Key)
    requires Recent(s0, s) && w < |s.writers| && s.writers[w] == Resting
    ensures Recent(s0, WriteStep(s, w, key))
  {
    var t := WriteStep(s, w, key);
    forall k ensures Base(s0, k) <= |Of(t.writes, k)| {
      assert Base(s0, k) <= |Of(s.writes, k)|;
    }
    forall k, v | Base(s0, k) < v <= |Of(t.writes, k)| ensures Announced(s0, t, k, v) {
      if k == key && v == |Of(t.writes, k)| {
        assert t.writers[w] == Stored(key, v);
      } else {
        assert Announced(s0, s, k, v);
        if u :| 0 <= u < |s.writers| && s.writers[u] == Stored(k, v) {
          assert t.writers[u] == Stored(k, v);
        }
      }
    }
  }

  lemma BumpKeepsRecent(s0: State, s: State, w: nat)
    requires Recent(s0, s) && w < |s.writers| && s.writers[w].Stored?
    ensures Recent(s0, BumpStep(s, w))
  {
    var t, stored := BumpStep(s, w), s.writers[w];
    forall k ensures Base(s0, k) <= |Of(t.writes, k)| {
      assert Base(s0, k) <= |Of(s.writes, k)|;
    }
    forall k, v | Base(s0, k) < v <= |Of(t.writes, k)| ensures Announced(s0, t, k, v) {
      assert Announced(s0, s, k, v);
      if stored == Stored(k, v) {
        assert Of(t.bumps, k.ws)[|Of(s.bumps, k.ws)|] == Bump(k.user, v);
      } else if u :| 0 <= u < |s.writers| && s.writers[u] == Stored(k, v) {
        assert t.writers[u] == Stored(k, v);
      }
    }
  }

  lemma StepKeepsRecent(ttl: nat, s0: State, s: State, a: Action)
    requires Recent(s0, s)
    ensures Recent(s0, Apply(ttl, s, a))
  {
    match a
    case Wait(ms) => SameWritesStayRecent(s0, s, s.(now := s.now + ms));
    case Write(w, key) => if w < |s.writers| && s.writers[w] == Resting { WriteKeepsRecent(s0, s, w, key); }
    case FinishBump(w) => if w < |s.writers| && s.writers[w].Stored? { BumpKeepsRecent(s0, s, w); }
    case _ => if a.r < |s.readers| { ReadersKeepRecent(ttl, s0, s, a.r, a); }
  }

  lemma {:induction false} RunKeepsRecent(ttl: nat, s0: State, s: State, actions: seq<Action>)
    requires Recent(s0, s)
    ensures Recent(s0, Run(ttl, s, actions))
    decreases |actions|
  {
    if actions != [] {
      StepKeepsRecent(ttl, s0, s, actions[0]);
      RunKeepsRecent(ttl, s0, Apply(ttl, s, actions[0]), actions[1..]);
    }
  }

  /** No write of the key is waiting for its bump. */
  predicate Quiet(s: State, key: Key) {
    forall w :: 0 <= w < |s.writers| && s.writers[w].Stored? ==> s.writers[w].key != key
  }

  /** `n` writes, all of them known to any read of the key that begins. */
  ghost predicate AllKnown(s0: State, s: State, key: Key, n: nat) {
    |Of(s.writes, key)| == n && (n == Base(s0, key) || FloorOf(s, key) >= n)
  }

  ghost predicate Knows(s0: State, pc: Reader, key: Key, n: nat) {
    (pc.Asking? || pc.Comparing?) && pc.key == key ==> n == Base(s0, key) || pc.floor >= n
  }

  lemma QuietMeansKnown(s0: State, s: State, key: Key)
    requires Recent(s0, s) && Quiet(s, key)
    ensures AllKnown(s0, s, key, |Of(s.writes, key)|)
  {
    var n := |Of(s.writes, key)|;
    assert Base(s0, key) <= n;
    if n > Base(s0, key) {
      assert Announced(s0, s, key, n);
      FloorIsReached(Of(s.bumps, key.ws), key.user);
      assert Bump(key.user, n) in Of(s.bumps, key.ws);
    }
  }

  /** A read of the key begins with the floor of that moment, and keeps it until it compares. */
  lemma ReaderLearns(ttl: nat, s: State, r: nat, a: Action)
    requires r < |s.readers|
    ensures var pc, u := s.readers[r], ReaderStep(ttl, s, r, a).readers[r];
      u.Asking? || u.Comparing? ==>
        u.floor == FloorOf(s, u.key)
        || ((pc.Asking? || pc.Comparing?) && pc.key == u.key && pc.floor == u.floor)
  {
  }

  lemma BumpKeepsKnown(s0: State, s: State, w: nat, key: Key, n: nat)
    requires AllKnown(s0, s, key, n) && w < |s.writers|
    ensures AllKnown(s0, BumpStep(s, w), key, n)
  {
    if s.writers[w].Stored? {
      FreshGrows(Of(s.bumps, key.ws), Of(BumpStep(s, w).bumps, key.ws), key.user);
    }
  }

  lemma StepKeepsKnown(ttl: nat, s0: State, s: State, a: Action, r: nat, key: Key, n: nat)
    requires AllKnown(s0, s, key, n) && r < |s.readers| && Knows(s0, s.readers[r], key, n)
    requires a.Write? ==> a.key != key
    ensures var t := Apply(ttl, s, a);
      AllKnown(s0, t, key, n) && |t.readers| == |s.readers| && Knows(s0, t.readers[r], key, n)
  {
    match a
    case Wait(ms) =>
    case Write(w, k) =>
    case FinishBump(w) => if w < |s.writers| { BumpKeepsKnown(s0, s, w, key, n); }
    case _ =>
      if a.r < |s.readers| {
        ReaderMoves(ttl, s, a.r, a);
        ReaderLearns(ttl, s, a.r, a);
      }
  }

  lemma {:induction false} RunKeepsKnown(ttl: nat, s0: State, s: State, actions: seq<Action>, r: nat, key: Key, n: nat)
    requires AllKnown(s0, s, key, n) && r < |s.readers| && Knows(s0, s.readers[r], key, n)
    requires forall a :: a in actions && a.Write? ==> a.key != key
    ensures var t := Run(ttl, s, actions);
      AllKnown(s0, t, key, n) && |t.readers| == |s.readers| && Knows(s0, t.readers[r], key, n)
    decreases |actions|
  {
    if actions != [] {
      StepKeepsKnown(ttl, s0, s, actions[0], r, key, n);
      RunKeepsKnown(ttl, s0, Apply(ttl, s, actions[0]), actions[1..], r, key, n);
    }
  }

  /** For a caller: a hit is what a direct read would return when, before the read began, every write of
      the key had been bumped, and none has reached the store since - whatever fills, bumps and
      writes of other keys ran in between. */
  lemma QuietHitIsDirect(ttl: nat, s0: State, before: seq<Action>, during: seq<Action>, r: nat, key: Key)
    requires Init(s0)
    requires var s := Run(ttl, s0, before); r < |s.readers| && s.readers[r] == Idle && Quiet(s, key)
    requires forall a :: a in during && a.Write? ==> a.key != key
    ensures var t := Run(ttl, Run(ttl, s0, before), during);
      && r < |t.readers|
      && (t.readers[r].Comparing? && t.readers[r].key == key ==>
            match Lookup(t.entries, key, t.readers[r].current, ttl, t.readers[r].begun)
            case Some(profile) => profile.version == |Of(t.writes, key)|
            case None => true)
  {
    var s := Run(ttl, s0, before);
    var t := Run(ttl, s, during);
    InitHasInv(ttl, s0);
    RunKeepsInv(ttl, s0, before);
    RunKeepsInv(ttl, s, during);
    RunKeepsRecent(ttl, s0, s0, before);
    RunKeepsRecent(ttl, s0, s, during);
    QuietMeansKnown(s0, s, key);
    RunKeepsKnown(ttl, s0, s, during, r, key, |Of(s.writes, key)|);
    var pc := t.readers[r];
    if pc.Comparing? && pc.key == key { HitIsFresh(ttl, t, pc); }
  }

  // ---------- A hit and the store read that filled its entry ----------

  /** The k-th action puts a write of the key into the store. */
  ghost predicate WroteAt(ttl: nat, s0: State, actions: seq<Action>, k: nat, key: Key) {
    k < |actions| && Writes(Run(ttl, s0, actions[..k]), actions[k], key)
  }

  predicate Writes(s: State, a: Action, key: Key) {
    a.Write? && a.key == key && a.w < |s.writers| && s.writers[a.w] == Resting
  }

  /** The k-th action is a store read of the key that returned this snapshot. */
  ghost predicate ReadAt(ttl: nat, s0: State, actions: seq<Action>, k: nat, key: Key, profile: Snapshot) {
    k < |actions| && Reads(Run(ttl, s0, actions[..k]), actions[k], key, profile)
  }

  predicate Reads(s: State, a: Action, key: Key, profile: Snapshot) {
    && a.ReadStore? && a.r < |s.readers| && s.readers[a.r].Reading? && s.readers[a.r].key == key
    && profile == Snapshot(|Of(s.writes, key)|, s.now)
  }

  ghost predicate WasRead(ttl: nat, s0: State, actions: seq<Action>, key: Key, profile: Snapshot) {
    exists k: nat :: ReadAt(ttl, s0, actions, k, key, profile)
  }

  ghost predicate Traced(ttl: nat, s0: State, actions: seq<Action>, s: State) {
    && (forall key :: key in s.entries ==> WasRead(ttl, s0, actions, key, s.entries[key].profile))
    && (forall r :: 0 <= r < |s.readers| && s.readers[r].Filling? ==>
          WasRead(ttl, s0, actions, s.readers[r].key, s.readers[r].profile))
  }

  lemma StepWrites(ttl: nat, s: State, a: Action, key: Key)
    ensures |Of(Apply(ttl, s, a).writes, key)| == |Of(s.writes, key)| + if Writes(s, a, key) then 1 else 0
  {
    if !a.Wait? && !a.Write? && !a.FinishBump? && a.r < |s.readers| { ReaderMoves(ttl, s, a.r, a); }
  }

  /** The store holds what it held, and one version more for each write since. */
  lemma {:induction false} StoreStandsIff(ttl: nat, s0: State, actions: seq<Action>, k: nat, key: Key)
    requires k <= |actions|
    ensures var was, now := |Of(Run(ttl, s0, actions[..k]).writes, key)|, |Of(Run(ttl, s0, actions).writes, key)|;
      was <= now && (was == now <==> forall j: nat :: j >= k ==> !WroteAt(ttl, s0, actions, j, key))
    decreases |actions|
  {
    if k == |actions| {
      assert actions[..k] == actions;
    } else {
      var before, n := actions[..|actions| - 1], |actions| - 1;
      StoreStandsIff(ttl, s0, before, k, key);
      assert before[..k] == actions[..k];
      RunLast(ttl, s0, actions);
      StepWrites(ttl, Run(ttl, s0, before), actions[n], key);
      assert WroteAt(ttl, s0, actions, n, key) <==> Writes(Run(ttl, s0, before), actions[n], key);
      forall j: nat | j < n ensures WroteAt(ttl, s0, actions, j, key) <==> WroteAt(ttl, s0, before, j, key) {
        assert before[..j] == actions[..j];
      }
    }
  }

  lemma ReadStays(ttl: nat, s0: State, actions: seq<Action>, a: Action, key: Key, profile: Snapshot)
    requires WasRead(ttl, s0, actions, key, profile)
    ensures WasRead(ttl, s0, actions + [a], key, profile)
  {
    var k: nat :| ReadAt(ttl, s0, actions, k, key, profile);
    assert (actions + [a])[..k] == actions[..k];
    assert ReadAt(ttl, s0, actions + [a], k, key, profile);
  }

  /** What a reader comes to hold it has just read. */
  lemma HoldsWhatItRead(ttl: nat, s: State, r: nat, a: Action)
    requires r < |s.readers|
    ensures var held := ReaderStep(ttl, s, r, a).readers[r];
      held.Filling? ==> held == s.readers[r] || (a.ReadStore? && s.readers[r].Reading? && s.readers[r].key == held.key
                                                && held.profile == Snapshot(|Of(s.writes, held.key)|, s.now))
  {
  }

  /** A step that concerns no reader leaves what readers hold and what is stored. */
  lemma OthersHoldStill(ttl: nat, s: State, a: Action)
    requires a.Wait? || a.Write? || a.FinishBump? || a.r >= |s.readers|
    ensures Apply(ttl, s, a).readers == s.readers && Apply(ttl, s, a).entries == s.entries
  {
  }

  /** What a step stores was held by a reader, and what a reader comes to hold it has just read. */
  lemma NewFromRead(ttl: nat, s: State, a: Action)
    ensures var t := Apply(ttl, s, a);
      && |t.readers| == |s.readers|
      && (forall r :: 0 <= r < |s.readers| && t.readers[r].Filling? ==>
            t.readers[r] == s.readers[r] || Reads(s, a, t.readers[r].key, t.readers[r].profile))
      && (forall key :: key in t.entries ==>
            || (key in s.entries && t.entries[key] == s.entries[key])
            || exists r :: 0 <= r < |s.readers| && s.readers[r].Filling?
                 && s.readers[r].key == key && s.readers[r].profile == t.entries[key].profile)
  {
    if a.Wait? || a.Write? || a.FinishBump? || a.r >= |s.readers| {
      OthersHoldStill(ttl, s, a);
    } else {
      ReaderMoves(ttl, s, a.r, a);
      HoldsWhatItRead(ttl, s, a.r, a);
    }
  }

  lemma {:induction false} RunIsTraced(ttl: nat, s0: State, actions: seq<Action>)
    requires Init(s0)
    ensures Traced(ttl, s0, actions, Run(ttl, s0, actions))
    decreases |actions|
  {
    if actions != [] {
      var before, a := actions[..|actions| - 1], actions[|actions| - 1];
      var s, t := Run(ttl, s0, before), Run(ttl, s0, actions);
      assert actions == before + [a];
      RunIsTraced(ttl, s0, before);
      RunLast(ttl, s0, actions);
      NewFromRead(ttl, s, a);
      forall r | 0 <= r < |t.readers| && t.readers[r].Filling?
        ensures WasRead(ttl, s0, actions, t.readers[r].key, t.readers[r].profile)
      {
        if t.readers[r] == s.readers[r] {
          ReadStays(ttl, s0, before, a, t.readers[r].key, t.readers[r].profile);
        } else {
          assert ReadAt(ttl, s0, actions, |before|, t.readers[r].key, t.readers[r].profile);
        }
      }
      forall key | key in t.entries ensures WasRead(ttl, s0, actions, key, t.entries[key].profile) {
        ReadStays(ttl, s0, before, a, key, t.entries[key].profile);
      }
    }
  }

  /** In every run, each hit goes back to the store read that filled its entry, and is what a direct
      read would return now exactly when no write of the key has reached the store since that read. */
  lemma HitIsDirectIff(ttl: nat, s0: State, actions: seq<Action>, r: nat, profile: Snapshot)
    requires Init(s0)
    requires var s := Run(ttl, s0, actions);
      && r < |s.readers| && s.readers[r].Comparing?
      && Lookup(s.entries, s.readers[r].key, s.readers[r].current, ttl, s.readers[r].begun) == Some(profile)
    ensures var s := Run(ttl, s0, actions);
      var key := s.readers[r].key;
      && (exists k: nat :: ReadAt(ttl, s0, actions, k, key, profile))
      && (forall k: nat :: ReadAt(ttl, s0, actions, k, key, profile) ==>
            (profile.version == |Of(s.writes, key)| <==> forall j: nat :: j > k ==> !WroteAt(ttl, s0, actions, j, key)))
  {
    var s := Run(ttl, s0, actions);
    var key := s.readers[r].key;
    RunIsTraced(ttl, s0, actions);
    assert WasRead(ttl, s0, actions, key, profile);
    forall k: nat | ReadAt(ttl, s0, actions, k, key, profile)
      ensures profile.version == |Of(s.writes, key)| <==> forall j: nat :: j > k ==> !WroteAt(ttl, s0, actions, j, key)
    {
      StoreStandsIff(ttl, s0, actions, k, key);
      assert !WroteAt(ttl, s0, actions, k, key);
    }
  }

  /** By the clock, where it can tell: an entry is what a direct read would return if the last write
      of its key came before its fill read the store, and only if that write did not come after. At
      one instant it is the order of the steps that decides, as above. */
  lemma DirectByTheClock(ttl: nat, s: State, key: Key)
    requires Inv(ttl, s) && key in s.entries && Of(s.writes, key) != []
    ensures var log, profile := Of(s.writes, key), s.entries[key].profile;
      && (log[|log| - 1] < profile.readAt ==> profile.version == |log|)
      && (profile.version == |log| ==> log[|log| - 1] <= profile.readAt)
  {
    assert EntryOk(Past(s), key, s.entries[key]);
  }

  lemma RunStep(ttl: nat, s: State, actions: seq<Action>)
    requires actions != []
    ensures Run(ttl, s, actions) == Run(ttl, Apply(ttl, s, actions[0]), actions[1..])
  {
  }

  lemma {:induction false} RunConcat(ttl: nat, s: State, first: seq<Action>, rest: seq<Action>)
    ensures Run(ttl, s, first + rest) == Run(ttl, Run(ttl, s, first), rest)
    decreases |first|
  {
    if first == [] {
      assert first + rest == rest;
    } else {
      assert (first + rest)[1..] == first[1..] + rest;
      RunConcat(ttl, Apply(ttl, s, first[0]), first[1..], rest);
    }
  }

  lemma RunLast(ttl: nat, s: State, actions: seq<Action>)
    requires actions != []
    ensures Run(ttl, s, actions) == Apply(ttl, Run(ttl, s, actions[..|actions| - 1]), actions[|actions| - 1])
  {
    var last := [actions[|actions| - 1]];
    assert actions == actions[..|actions| - 1] + last && last[1..] == [];
    RunConcat(ttl, s, actions[..|actions| - 1], last);
    RunStep(ttl, Run(ttl, s, actions[..|actions| - 1]), last);
  }

  lemma RunThree(ttl: nat, s: State, a: Action, b: Action, c: Action)
    ensures Run(ttl, s, [a, b, c]) == Apply(ttl, Apply(ttl, Apply(ttl, s, a), b), c)
  {
    RunStep(ttl, s, [a, b, c]);
    RunStep(ttl, Apply(ttl, s, a), [b, c]);
    RunStep(ttl, Apply(ttl, Apply(ttl, s, a), b), [c]);
  }

  function Consult(key: Key): seq<Action> {
    [Ask(0, key), TakeGeneration(0), CompareEntry(0)]
  }

  function Fill(now: int): seq<Action> {
    [CaptureGeneration(0), ReadStore(0), PutEntry(0, now)]
  }

  /** In a fresh process a reader misses, reads through and fills. */
  lemma MissRun(ttl: nat, s: State, key: Key)
    requires Init(s) && |s.readers| > 0
    ensures Run(ttl, s, Consult(key)) == At(s, 0, Missed(key, s.now, FloorOf(s, key)))
  {
    RunThree(ttl, s, Ask(0, key), TakeGeneration(0), CompareEntry(0));
  }

  lemma FillRun(ttl: nat, s: State, key: Key)
    requires Init(s) && |s.readers| > 0
    ensures var t := Run(ttl, At(s, 0, Missed(key, s.now, FloorOf(s, key))), Fill(s.now));
      t == s.(entries := map[key := Entry(Snapshot(|Of(s.writes, key)|, s.now), 0, s.now)], answers := t.answers)
  {
    var m := At(s, 0, Missed(key, s.now, FloorOf(s, key)));
    RunThree(ttl, m, CaptureGeneration(0), ReadStore(0), PutEntry(0, s.now));
    assert s.readers[0 := Idle] == s.readers;
  }

  lemma HitRun(ttl: nat, s: State, key: Key)
    requires |s.readers| > 0 && s.readers[0] == Idle
    requires Lookup(s.entries, key, GenerationIn(s.generations, key.ws), ttl, s.now).Some?
    ensures var e := s.entries[key];
      Run(ttl, s, Consult(key)) ==
      s.(answers := s.answers + [Answer(key, s.now, FloorOf(s, key), e.profile, Some(e.storedAt))])
  {
    RunThree(ttl, s, Ask(0, key), TakeGeneration(0), CompareEntry(0));
    assert s.readers[0 := Idle] == s.readers;
  }

  /** Freshness is judged by completed bumps and no stronger: between a store write and its
      bump a hit still shows the profile from before the write, where a direct read would not. */
  lemma HitCanLagTheStore(ttl: nat, s: State, key: Key) returns (actions: seq<Action>)
    requires Init(s) && ttl > 0 && |s.readers| > 0 && |s.writers| > 0
    ensures var t := Run(ttl, s, actions);
      && t.answers != []
      && var a := t.answers[|t.answers| - 1];
         a.key == key && a.cachedAt.Some? && a.profile.version < |Of(t.writes, key)| == |Of(s.writes, key)| + 1
  {
    var writing := [Write(0, key)];
    actions := Consult(key) + Fill(s.now) + writing + Consult(key);
    var s0 := At(s, 0, Missed(key, s.now, FloorOf(s, key)));
    var s1 := Run(ttl, s0, Fill(s.now));
    MissRun(ttl, s, key);
    FillRun(ttl, s, key);
    var s2 := WriteStep(s1, 0, key);
    RunStep(ttl, s1, writing);
    HitRun(ttl, s2, key);
    RunConcat(ttl, s, Consult(key), Fill(s.now));
    RunConcat(ttl, s, Consult(key) + Fill(s.now), writing);
    RunConcat(ttl, s, Consult(key) + Fill(s.now) + writing, Consult(key));
  }
}
