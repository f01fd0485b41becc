// The desktop agent's bounded parallel `search`: workers take tasks from a shared
// counter and hits from a shared, capped list of result slots
// (crates/catalerum-agent/src/ops.rs).
//
// The first half is a step model: one step is one access to a shared variable, and
// every interleaving of any number of workers is a run. The second half is the same
// code run by a single worker, written with its loops.

module ParallelSearch {
  import opened Collections

  datatype Hit = NameHit(path: string) | ContentHit(path: string, line: nat, text: string)

  /** One visited directory entry: whether its name matches, and, for a readable regular
      file, whether each line matches. An entry whose contents are skipped has no lines. */
  datatype Entry = Entry(name: Option<Hit>, lines: seq<Option<Hit>>)

  /** The walk of one first-level subtree, in walk order. */
  type Task = seq<Entry>

  datatype Config = Config(cap: nat, tasks: seq<Task>) {
    ghost predicate Valid() { cap >= 1 }
  }

  // ---------- What a sequential scan would find ----------

  function Found(h: Option<Hit>): seq<Hit> {
    if h.Some? then [h.value] else []
  }

  function LineHits(lines: seq<Option<Hit>>): seq<Hit> {
    if lines == [] then [] else Found(lines[0]) + LineHits(lines[1..])
  }

  function EntryHits(e: Entry): seq<Hit> {
    Found(e.name) + LineHits(e.lines)
  }

  function TaskHits(t: Task): seq<Hit> {
    if t == [] then [] else EntryHits(t[0]) + TaskHits(t[1..])
  }

  function ScanHits(tasks: seq<Task>): seq<Hit> {
    if tasks == [] then [] else TaskHits(tasks[0]) + ScanHits(tasks[1..])
  }

  // ---------- Shared state and one worker's position ----------

  datatype Shared = Shared(claimed: nat, capped: bool, timedOut: bool, matches: seq<Hit>, nextTask: nat)

  /** Where a `should_stop` test was called from. */
  datatype Site =
    | AtLoop
    | AtEntry(entry: Entry, rest: Task)
    | AtLine(hit: Option<Hit>, lines: seq<Option<Hit>>, rest: Task)

  /** What is left of the current task once a `push` returns. */
  datatype Cont = Cont(lines: seq<Option<Hit>>, rest: Task, isName: bool)

  datatype Pc =
    | CheckClaimed(site: Site)
    | CheckClock(site: Site)
    | Fetch
    | Claim(hit: Hit, k: Cont)
    | Claimed(hit: Hit, slot: nat, k: Cont)
    | Append(hit: Hit, k: Cont)
    | Done

  function NextEntry(rest: Task): Pc {
    if rest == [] then CheckClaimed(AtLoop) else CheckClaimed(AtEntry(rest[0], rest[1..]))
  }

  function NextLine(lines: seq<Option<Hit>>, rest: Task): Pc {
    if lines == [] then NextEntry(rest) else CheckClaimed(AtLine(lines[0], lines[1..], rest))
  }

  /** `should_stop` returned true: the loop ends, the walk breaks, the file scan returns. */
  function Stopped(site: Site): Pc {
    match site
    case AtLoop => Done
    case AtEntry(_, _) => CheckClaimed(AtLoop)
    case AtLine(_, _, rest) => NextEntry(rest)
  }

  function Proceed(site: Site): Pc {
    match site
    case AtLoop => Fetch
    case AtEntry(e, rest) =>
      if e.name.Some? then Claim(e.name.value, Cont(e.lines, rest, true)) else NextLine(e.lines, rest)
    case AtLine(hit, lines, rest) =>
      if hit.Some? then Claim(hit.value, Cont(lines, rest, false)) else NextLine(lines, rest)
  }

  /** `push` returned false: a name hit breaks the walk, a content hit ends the file. */
  function Refused(k: Cont): Pc {
    if k.isName then CheckClaimed(AtLoop) else NextEntry(k.rest)
  }

  /** One atomic step of a worker. `expired` is what the clock says if this step reads it. */
  function StepPc(c: Config, sh: Shared, pc: Pc, expired: bool): (Shared, Pc) {
    match pc
    case CheckClaimed(site) =>
      (sh, if sh.claimed >= c.cap then Stopped(site) else CheckClock(site))
    case CheckClock(site) =>
      if expired then (sh.(timedOut := true), Stopped(site)) else (sh, Proceed(site))
    case Fetch =>
      (sh.(nextTask := sh.nextTask + 1),
       if sh.nextTask < |c.tasks| then NextEntry(c.tasks[sh.nextTask]) else Done)
    case Claim(hit, k) =>
      (sh.(claimed := sh.claimed + 1), Claimed(hit, sh.claimed, k))
    case Claimed(hit, slot, k) =>
      if slot >= c.cap then (sh.(capped := true), Refused(k))
      else (sh.(capped := sh.capped || slot + 1 == c.cap), Append(hit, k))
    case Append(hit, k) =>
      (sh.(matches := sh.matches + [hit]), NextLine(k.lines, k.rest))
    case Done => (sh, Done)
  }

  /** `late` says that the deadline has passed: every clock reading from then on is expired. */
  datatype State = State(sh: Shared, workers: seq<Pc>, late: bool)

  /** `timed_out` starts as whatever the clock said when the shared state was built. */
  ghost predicate Init(c: Config, s: State) {
    && c.Valid()
    && |s.workers| >= 1
    && s.sh.claimed == 0 && !s.sh.capped && s.sh.matches == [] && s.sh.nextTask == 0
    && s.sh.timedOut == s.late
    && forall i :: 0 <= i < |s.workers| ==> s.workers[i] == CheckClaimed(AtLoop)
  }

  function Step(c: Config, s: State, i: nat): State
    requires i < |s.workers|
  {
    var (sh, pc) := StepPc(c, s.sh, s.workers[i], s.late);
    State(sh, s.workers[i := pc], s.late)
  }

  /** The deadline passes; nobody notices until a clock is read. */
  function Elapsed(s: State): State {
    s.(late := true)
  }

  predicate Moves(c: Config, s: State, i: nat, s': State) {
    i < |s.workers| && s.workers[i] != Done && s' == Step(c, s, i)
  }

  ghost predicate Next(c: Config, s: State, s': State) {
    (!s.late && s' == Elapsed(s)) || exists i: nat :: Moves(c, s, i, s')
  }

  ghost predicate IsRun(c: Config, run: seq<State>) {
    && |run| >= 1
    && Init(c, run[0])
    && forall j :: 0 <= j < |run| - 1 ==> Next(c, run[j], run[j + 1])
  }

  ghost predicate Joined(s: State) {
    forall i :: 0 <= i < |s.workers| ==> s.workers[i] == Done
  }

  // ---------- Accounting for every hit ----------
  //
  // Hits are weighed by an arbitrary `w`: a weight of one counts them, and the weight that
  // is one on a single hit counts that hit's occurrences.

  function FoundWeight(w: Hit -> nat, h: Option<Hit>): nat {
    if h.Some? then w(h.value) else 0
  }

  function LineWeight(w: Hit -> nat, lines: seq<Option<Hit>>): nat {
    if lines == [] then 0 else FoundWeight(w, lines[0]) + LineWeight(w, lines[1..])
  }

  function TaskWeight(w: Hit -> nat, t: Task): nat {
    if t == [] then 0
    else FoundWeight(w, t[0].name) + LineWeight(w, t[0].lines) + TaskWeight(w, t[1..])
  }

  function ContWeight(w: Hit -> nat, k: Cont): nat {
    LineWeight(w, k.lines) + TaskWeight(w, k.rest)
  }

  function SiteWeight(w: Hit -> nat, site: Site): nat {
    match site
    case AtLoop => 0
    case AtEntry(e, rest) => FoundWeight(w, e.name) + LineWeight(w, e.lines) + TaskWeight(w, rest)
    case AtLine(hit, lines, rest) => FoundWeight(w, hit) + LineWeight(w, lines) + TaskWeight(w, rest)
  }

  /** The weight of the hits a worker still owes: its task's hits not yet in `matches`. */
  function OwedBy(w: Hit -> nat, pc: Pc): nat {
    match pc
    case CheckClaimed(site) => SiteWeight(w, site)
    case CheckClock(site) => SiteWeight(w, site)
    case Claim(hit, k) => w(hit) + ContWeight(w, k)
    case Claimed(hit, _, k) => w(hit) + ContWeight(w, k)
    case Append(hit, k) => w(hit) + ContWeight(w, k)
    case Fetch => 0
    case Done => 0
  }

  function Owed(w: Hit -> nat): Pc -> nat { (pc: Pc) => OwedBy(w, pc) }

  function Unfetched(c: Config, w: Hit -> nat, n: nat): nat
    decreases |c.tasks| - n
  {
    if n >= |c.tasks| then 0 else TaskWeight(w, c.tasks[n]) + Unfetched(c, w, n + 1)
  }

  function Held(c: Config, w: Hit -> nat, s: State): nat {
    Sum(w, s.sh.matches) + Sum(Owed(w), s.workers) + Unfetched(c, w, s.sh.nextTask)
  }

  function One(): Hit -> nat { (h: Hit) => 1 }

  function Is(h: Hit): Hit -> nat { (x: Hit) => if x == h then 1 else 0 }

  lemma {:induction false} LineHitsWeight(w: Hit -> nat, lines: seq<Option<Hit>>)
    ensures Sum(w, LineHits(lines)) == LineWeight(w, lines)
  {
    if lines != [] {
      LineHitsWeight(w, lines[1..]);
      SumConcat(w, Found(lines[0]), LineHits(lines[1..]));
    }
  }

  lemma {:induction false} TaskHitsWeight(w: Hit -> nat, t: Task)
    ensures Sum(w, TaskHits(t)) == TaskWeight(w, t)
  {
    if t != [] {
      TaskHitsWeight(w, t[1..]);
      LineHitsWeight(w, t[0].lines);
      SumConcat(w, Found(t[0].name), LineHits(t[0].lines));
      SumConcat(w, EntryHits(t[0]), TaskHits(t[1..]));
    }
  }

  lemma {:induction false} ScanHitsWeight(c: Config, w: Hit -> nat, n: nat)
    requires n <= |c.tasks|
    ensures Sum(w, ScanHits(c.tasks[n..])) == Unfetched(c, w, n)
    decreases |c.tasks| - n
  {
    if n < |c.tasks| {
      assert c.tasks[n..][1..] == c.tasks[n + 1..];
      ScanHitsWeight(c, w, n + 1);
      TaskHitsWeight(w, c.tasks[n]);
      SumConcat(w, TaskHits(c.tasks[n]), ScanHits(c.tasks[n + 1..]));
    }
  }

  lemma {:induction false} OccurrenceWeight(h: Hit, s: seq<Hit>)
    ensures Sum(Is(h), s) == multiset(s)[h]
  {
    if s != [] {
      OccurrenceWeight(h, s[1..]);
      assert s == [s[0]] + s[1..];
    }
  }

  lemma {:induction false} CountWeight(s: seq<Hit>)
    ensures Sum(One(), s) == |s|
  {
    if s != [] {
      CountWeight(s[1..]);
    }
  }

  // ---------- What every step keeps ----------

  ghost predicate Stopping(c: Config, sh: Shared) {
    sh.claimed >= c.cap || sh.timedOut
  }

  /** One for a slot below the cap that is claimed but not yet filled. */
  function InFlight(c: Config): Pc -> nat {
    (pc: Pc) => if (pc.Claimed? && pc.slot < c.cap) || pc.Append? then 1 else 0
  }

  /** One for a hit that has its slot number but is still owed. */
  function NumberedBy(pc: Pc): nat {
    if pc.Claimed? || pc.Append? then 1 else 0
  }

  function Numbered(): Pc -> nat { (pc: Pc) => NumberedBy(pc) }

  ghost predicate LastSlot(c: Config, pc: Pc) { pc.Claimed? && pc.slot + 1 == c.cap }

  /** Slots, the `capped` flag, and why a worker may have left its loop. */
  ghost predicate Inv(c: Config, s: State) {
    && c.Valid()
    && |s.sh.matches| + Sum(InFlight(c), s.workers) == Min(s.sh.claimed, c.cap)
    && (s.sh.capped ==> s.sh.claimed >= c.cap)
    && (s.sh.claimed >= c.cap && !s.sh.capped ==>
          exists i :: 0 <= i < |s.workers| && LastSlot(c, s.workers[i]))
    && (forall i :: 0 <= i < |s.workers| && s.workers[i].Claimed? ==> s.workers[i].slot < s.sh.claimed)
    && forall i :: 0 <= i < |s.workers| && s.workers[i] == Done ==>
         Stopping(c, s.sh) || s.sh.nextTask >= |c.tasks|
  }

  lemma StepSlots(c: Config, sh: Shared, pc: Pc, expired: bool)
    requires c.Valid() && (pc.Claimed? ==> pc.slot < sh.claimed)
    ensures var (sh', pc') := StepPc(c, sh, pc, expired);
            && |sh'.matches| + InFlight(c)(pc') + Min(sh.claimed, c.cap)
                 == |sh.matches| + InFlight(c)(pc) + Min(sh'.claimed, c.cap)
            && sh.claimed <= sh'.claimed && sh.nextTask <= sh'.nextTask
            && (sh.capped ==> sh'.capped) && (sh.timedOut ==> sh'.timedOut)
            && (sh'.capped && !sh.capped ==> sh'.claimed >= c.cap)
            && (LastSlot(c, pc) ==> sh'.capped)
            && (sh.claimed < c.cap <= sh'.claimed ==> LastSlot(c, pc'))
            && (pc'.Claimed? ==> pc'.slot < sh'.claimed)
            && (pc' == Done && pc != Done ==> Stopping(c, sh') || sh'.nextTask > |c.tasks|)
  {
    NextKinds(pc);
  }

  /** The positions a step moves to after a test or a push are never inside a push. */
  lemma NextKinds(pc: Pc)
    ensures pc.CheckClaimed? || pc.CheckClock? ==>
              && (Stopped(pc.site) == Done ==> pc.site.AtLoop?)
              && (Stopped(pc.site) == Done || Stopped(pc.site).CheckClaimed?)
              && (Proceed(pc.site).Fetch? || Proceed(pc.site).Claim? || Proceed(pc.site).CheckClaimed?)
    ensures pc.Claimed? || pc.Append? ==> Refused(pc.k).CheckClaimed? && NextLine(pc.k.lines, pc.k.rest).CheckClaimed?
  {
  }

  lemma StepKeepsInv(c: Config, s: State, i: nat)
    requires Inv(c, s) && i < |s.workers|
    ensures Inv(c, Step(c, s, i))
  {
    var expired := s.late;
    var (sh', pc') := StepPc(c, s.sh, s.workers[i], expired);
    var ws' := s.workers[i := pc'];
    StepSlots(c, s.sh, s.workers[i], expired);
    SumUpdate(InFlight(c), s.workers, i, pc');
    if sh'.claimed >= c.cap && !sh'.capped {
      if s.sh.claimed < c.cap {
        assert LastSlot(c, ws'[i]);
      } else {
        var j :| 0 <= j < |s.workers| && LastSlot(c, s.workers[j]);
        assert j != i && ws'[j] == s.workers[j];
      }
    }
  }

  /** What one step does to the hits: it moves them, or drops some while stopping. */
  lemma StepHits(c: Config, w: Hit -> nat, sh: Shared, pc: Pc, expired: bool)
    requires pc.Claimed? ==> pc.slot < sh.claimed
    ensures var (sh', pc') := StepPc(c, sh, pc, expired);
            var before := Sum(w, sh.matches) + OwedBy(w, pc) + Unfetched(c, w, sh.nextTask);
            var after := Sum(w, sh'.matches) + OwedBy(w, pc') + Unfetched(c, w, sh'.nextTask);
            && after <= before
            && (!Stopping(c, sh') ==> after == before)
  {
    match pc
    case CheckClaimed(site) => SiteMoves(w, site);
    case CheckClock(site) => SiteMoves(w, site);
    case Claimed(hit, slot, k) => ContMoves(w, k);
    case Append(hit, k) =>
      ContMoves(w, k);
      SumConcat(w, sh.matches, [hit]);
    case Fetch =>
      if sh.nextTask < |c.tasks| {
        EntryMoves(w, c.tasks[sh.nextTask]);
      }
    case Claim(hit, k) =>
    case Done =>
  }

  lemma EntryMoves(w: Hit -> nat, rest: Task)
    ensures OwedBy(w, NextEntry(rest)) == TaskWeight(w, rest)
  {
  }

  lemma LineMoves(w: Hit -> nat, lines: seq<Option<Hit>>, rest: Task)
    ensures OwedBy(w, NextLine(lines, rest)) == LineWeight(w, lines) + TaskWeight(w, rest)
  {
    EntryMoves(w, rest);
  }

  lemma ContMoves(w: Hit -> nat, k: Cont)
    ensures OwedBy(w, NextLine(k.lines, k.rest)) == ContWeight(w, k)
    ensures OwedBy(w, Refused(k)) <= ContWeight(w, k)
  {
    LineMoves(w, k.lines, k.rest);
    EntryMoves(w, k.rest);
  }

  lemma SiteMoves(w: Hit -> nat, site: Site)
    ensures OwedBy(w, Proceed(site)) == SiteWeight(w, site)
    ensures OwedBy(w, Stopped(site)) <= SiteWeight(w, site)
  {
    match site
    case AtLoop =>
    case AtEntry(e, rest) => LineMoves(w, e.lines, rest);
    case AtLine(hit, lines, rest) => LineMoves(w, lines, rest); EntryMoves(w, rest);
  }

  /** Slots taken, hits owed and hits unfetched, less the hits that have their number. */
  ghost predicate FewerNumbers(c: Config, sh: Shared, pc: Pc, sh': Shared, pc': Pc) {
    sh'.claimed + OwedBy(One(), pc') + NumberedBy(pc) + Unfetched(c, One(), sh'.nextTask)
      <= sh.claimed + OwedBy(One(), pc) + NumberedBy(pc') + Unfetched(c, One(), sh.nextTask)
  }

  lemma TestNumbers(c: Config, sh: Shared, pc: Pc, expired: bool)
    requires pc.CheckClaimed? || pc.CheckClock?
    ensures FewerNumbers(c, sh, pc, StepPc(c, sh, pc, expired).0, StepPc(c, sh, pc, expired).1)
  {
    NextKinds(pc);
    SiteMoves(One(), pc.site);
  }

  lemma PushNumbers(c: Config, sh: Shared, pc: Pc, expired: bool)
    requires pc.Claim? || pc.Claimed? || pc.Append?
    ensures FewerNumbers(c, sh, pc, StepPc(c, sh, pc, expired).0, StepPc(c, sh, pc, expired).1)
  {
    NextKinds(pc);
    ContMoves(One(), pc.k);
  }

  lemma EntryNumbers(rest: Task)
    ensures NumberedBy(NextEntry(rest)) == 0 && OwedBy(One(), NextEntry(rest)) == TaskWeight(One(), rest)
  {
    EntryMoves(One(), rest);
  }

  lemma UnfetchedStep(c: Config, w: Hit -> nat, n: nat)
    ensures Unfetched(c, w, n) == if n < |c.tasks| then TaskWeight(w, c.tasks[n]) + Unfetched(c, w, n + 1) else 0
  {
  }

  lemma FetchNumbers(c: Config, sh: Shared, expired: bool)
    ensures FewerNumbers(c, sh, Fetch, StepPc(c, sh, Fetch, expired).0, StepPc(c, sh, Fetch, expired).1)
  {
    var n := sh.nextTask;
    UnfetchedStep(c, One(), n);
    UnfetchedStep(c, One(), n + 1);
    if n < |c.tasks| { EntryNumbers(c.tasks[n]); }
    assert StepPc(c, sh, Fetch, expired) ==
           (sh.(nextTask := n + 1), if n < |c.tasks| then NextEntry(c.tasks[n]) else Done);
  }

  /** One claim takes one slot number; nothing else changes how many there are. */
  lemma StepNumbers(c: Config, sh: Shared, pc: Pc, expired: bool)
    ensures FewerNumbers(c, sh, pc, StepPc(c, sh, pc, expired).0, StepPc(c, sh, pc, expired).1)
  {
    if pc.CheckClaimed? || pc.CheckClock? {
      TestNumbers(c, sh, pc, expired);
    } else if pc.Fetch? {
      FetchNumbers(c, sh, expired);
    } else if pc != Done {
      PushNumbers(c, sh, pc, expired);
    }
  }

  // ---------- Along a run ----------

  lemma InitHasInv(c: Config, s: State)
    requires Init(c, s)
    ensures Inv(c, s)
  {
    SumZero(InFlight(c), s.workers);
  }

  lemma StepOf(c: Config, run: seq<State>, j: nat) returns (i: nat)
    requires IsRun(c, run) && 0 < j < |run| && run[j] != Elapsed(run[j - 1])
    ensures Moves(c, run[j - 1], i, run[j])
  {
    assert Next(c, run[j - 1], run[j - 1 + 1]);
    i :| Moves(c, run[j - 1], i, run[j]);
  }

  lemma {:induction false} RunHasInv(c: Config, run: seq<State>, j: nat)
    requires IsRun(c, run) && j < |run|
    ensures Inv(c, run[j]) && |run[j].workers| == |run[0].workers|
  {
    if j == 0 {
      InitHasInv(c, run[0]);
    } else {
      RunHasInv(c, run, j - 1);
      if run[j] != Elapsed(run[j - 1]) {
        var i := StepOf(c, run, j);
        StepKeepsInv(c, run[j - 1], i);
      }
    }
  }

  /** No hit is invented along a run, and none is lost before the search is stopping. */
  lemma {:induction false} RunConservesHits(c: Config, run: seq<State>, j: nat, w: Hit -> nat)
    requires IsRun(c, run) && j < |run|
    ensures Held(c, w, run[j]) <= Sum(w, ScanHits(c.tasks))
    ensures !Stopping(c, run[j].sh) ==> Held(c, w, run[j]) == Sum(w, ScanHits(c.tasks))
  {
    if j == 0 {
      SumZero(Owed(w), run[0].workers);
      ScanHitsWeight(c, w, 0);
      assert c.tasks[0..] == c.tasks;
    } else {
      RunConservesHits(c, run, j - 1, w);
      if run[j] != Elapsed(run[j - 1]) {
        RunHasInv(c, run, j - 1);
        var i := StepOf(c, run, j);
        StepHits(c, w, run[j - 1].sh, run[j - 1].workers[i], run[j - 1].late);
        StepSlots(c, run[j - 1].sh, run[j - 1].workers[i], run[j - 1].late);
        SumUpdate(Owed(w), run[j - 1].workers, i, run[j].workers[i]);
      }
    }
  }

  /** Slot numbers are only ever handed to hits the scan would find. */
  lemma {:induction false} RunNumbersHits(c: Config, run: seq<State>, j: nat)
    requires IsRun(c, run) && j < |run|
    ensures run[j].sh.claimed + Sum(Owed(One()), run[j].workers) + Unfetched(c, One(), run[j].sh.nextTask)
              <= |ScanHits(c.tasks)| + Sum(Numbered(), run[j].workers)
  {
    if j == 0 {
      SumZero(Owed(One()), run[0].workers);
      ScanHitsWeight(c, One(), 0);
      CountWeight(ScanHits(c.tasks));
      assert c.tasks[0..] == c.tasks;
    } else {
      RunNumbersHits(c, run, j - 1);
      if run[j] != Elapsed(run[j - 1]) {
        var i := StepOf(c, run, j);
        StepNumbers(c, run[j - 1].sh, run[j - 1].workers[i], run[j - 1].late);
        SumUpdate(Owed(One()), run[j - 1].workers, i, run[j].workers[i]);
        SumUpdate(Numbered(), run[j - 1].workers, i, run[j].workers[i]);
      }
    }
  }

  // ---------- What every interleaving delivers at join ----------

  lemma JoinedHits(c: Config, run: seq<State>, h: Hit)
    requires IsRun(c, run) && Joined(run[|run| - 1])
    ensures var sh := run[|run| - 1].sh;
            && multiset(sh.matches)[h] <= multiset(ScanHits(c.tasks))[h]
            && (!Stopping(c, sh) ==> multiset(sh.matches)[h] == multiset(ScanHits(c.tasks))[h])
  {
    var last := run[|run| - 1];
    RunHasInv(c, run, |run| - 1);
    RunConservesHits(c, run, |run| - 1, Is(h));
    SumZero(Owed(Is(h)), last.workers);
    OccurrenceWeight(h, last.sh.matches);
    OccurrenceWeight(h, ScanHits(c.tasks));
    if !Stopping(c, last.sh) {
      assert last.workers[0] == Done;
    }
  }

  /** Main result. Whatever the interleaving: the number of results, the meaning of the
      flag, and, when the search is not reported as truncated, exactly the scan's hits. */
  lemma EveryInterleavingRefinesTheScan(c: Config, run: seq<State>)
    requires IsRun(c, run) && Joined(run[|run| - 1])
    ensures var sh := run[|run| - 1].sh;
            && |sh.matches| == Min(sh.claimed, c.cap)
            && (sh.capped <==> sh.claimed >= c.cap)
            && multiset(sh.matches) <= multiset(ScanHits(c.tasks))
            && (!sh.capped && !sh.timedOut ==>
                  sh.nextTask >= |c.tasks| && multiset(sh.matches) == multiset(ScanHits(c.tasks)))
  {
    var last := run[|run| - 1];
    RunHasInv(c, run, |run| - 1);
    SumZero(InFlight(c), last.workers);
    forall h: Hit
      ensures multiset(last.sh.matches)[h] <= multiset(ScanHits(c.tasks))[h]
      ensures !Stopping(c, last.sh) ==> multiset(last.sh.matches)[h] == multiset(ScanHits(c.tasks))[h]
    {
      JoinedHits(c, run, h);
    }
    assert last.workers[0] == Done;
  }

  /** Without a timeout the outcome does not depend on the schedule: the count is the
      scan's count up to the cap, and the search reports itself capped exactly when the
      scan has at least `cap` hits. */
  lemma OutcomeIsScheduleIndependent(c: Config, run: seq<State>)
    requires IsRun(c, run) && Joined(run[|run| - 1]) && !run[|run| - 1].sh.timedOut
    ensures var sh := run[|run| - 1].sh;
            && |sh.matches| == Min(|ScanHits(c.tasks)|, c.cap)
            && (sh.capped <==> |ScanHits(c.tasks)| >= c.cap)
  {
    var last := run[|run| - 1];
    EveryInterleavingRefinesTheScan(c, run);
    RunNumbersHits(c, run, |run| - 1);
    SumZero(Numbered(), last.workers);
    if !last.sh.capped {
      assert |multiset(last.sh.matches)| == |multiset(ScanHits(c.tasks))|;
    }
  }

  // ---------- Every task is fetched once ----------

  /** In step j of the run some worker takes task k and starts on it. */
  ghost predicate FetchedAt(c: Config, run: seq<State>, j: nat, k: nat) {
    && j + 1 < |run| && k < |c.tasks|
    && run[j].sh.nextTask == k && run[j + 1].sh.nextTask == k + 1
    && exists i :: 0 <= i < |run[j].workers| && i < |run[j + 1].workers|
                   && run[j].workers[i] == Fetch && run[j + 1].workers[i] == NextEntry(c.tasks[k])
  }

  lemma CounterMoves(c: Config, run: seq<State>, j: nat)
    requires IsRun(c, run) && j + 1 < |run|
    ensures run[j + 1].sh.nextTask == run[j].sh.nextTask
            || (run[j + 1].sh.nextTask == run[j].sh.nextTask + 1
                && (run[j].sh.nextTask < |c.tasks| ==> FetchedAt(c, run, j, run[j].sh.nextTask)))
  {
    if run[j + 1] != Elapsed(run[j]) {
      var i := StepOf(c, run, j + 1);
      var pc := run[j].workers[i];
      if pc == Fetch && run[j].sh.nextTask < |c.tasks| {
        assert run[j + 1].workers[i] == NextEntry(c.tasks[run[j].sh.nextTask]);
      }
    }
  }

  lemma CounterRises(c: Config, run: seq<State>, j: nat)
    requires IsRun(c, run) && j + 1 < |run|
    ensures run[j].sh.nextTask <= run[j + 1].sh.nextTask
  {
    CounterMoves(c, run, j);
  }

  lemma {:induction false} CounterGrows(c: Config, run: seq<State>, i: nat, j: nat)
    requires IsRun(c, run) && i <= j < |run|
    ensures run[i].sh.nextTask <= run[j].sh.nextTask
    decreases j - i
  {
    if i < j {
      CounterGrows(c, run, i, j - 1);
      CounterRises(c, run, j - 1);
    }
  }

  lemma {:induction false} FetchedBefore(c: Config, run: seq<State>, n: nat, k: nat) returns (j: nat)
    requires IsRun(c, run) && n < |run| && k < run[n].sh.nextTask && k < |c.tasks|
    ensures j < n && FetchedAt(c, run, j, k)
    decreases n
  {
    CounterMoves(c, run, n - 1);
    if run[n - 1].sh.nextTask == k {
      j := n - 1;
    } else {
      j := FetchedBefore(c, run, n - 1, k);
    }
  }

  lemma FetchedOnce(c: Config, run: seq<State>, i: nat, j: nat, k: nat)
    requires IsRun(c, run) && FetchedAt(c, run, i, k) && FetchedAt(c, run, j, k)
    ensures i == j
  {
    if i < j { CounterGrows(c, run, i + 1, j); }
    if j < i { CounterGrows(c, run, j + 1, i); }
  }

  /** When a search joins untruncated, every task - with hits or without - was taken in exactly one
      step by one worker, and by none a second time. */
  lemma EveryTaskIsFetchedOnce(c: Config, run: seq<State>, k: nat) returns (j: nat)
    requires IsRun(c, run) && Joined(run[|run| - 1]) && k < |c.tasks|
    requires !run[|run| - 1].sh.capped && !run[|run| - 1].sh.timedOut
    ensures FetchedAt(c, run, j, k) && forall i: nat :: FetchedAt(c, run, i, k) ==> i == j
  {
    EveryInterleavingRefinesTheScan(c, run);
    j := FetchedBefore(c, run, |run| - 1, k);
    forall i: nat | FetchedAt(c, run, i, k) ensures i == j {
      FetchedOnce(c, run, i, j, k);
    }
  }

  // ---------- Every interleaving ends ----------

  function TaskWork(t: Task): nat {
    if t == [] then 3 else 5 + 5 * |t[0].lines| + TaskWork(t[1..])
  }

  function LineWork(lines: seq<Option<Hit>>, rest: Task): nat { 5 * |lines| + TaskWork(rest) }

  function SiteWork(site: Site): nat {
    match site
    case AtLoop => 1
    case AtEntry(e, rest) => 3 + LineWork(e.lines, rest)
    case AtLine(_, lines, rest) => 3 + LineWork(lines, rest)
  }

  function PcWork(pc: Pc): nat {
    match pc
    case CheckClaimed(site) => 2 + SiteWork(site)
    case CheckClock(site) => 1 + SiteWork(site)
    case Fetch => 1
    case Claim(_, k) => 3 + LineWork(k.lines, k.rest)
    case Claimed(_, _, k) => 2 + LineWork(k.lines, k.rest)
    case Append(_, k) => 1 + LineWork(k.lines, k.rest)
    case Done => 0
  }

  function UnfetchedWork(c: Config, n: nat): nat
    decreases |c.tasks| - n
  {
    if n >= |c.tasks| then 0 else TaskWork(c.tasks[n]) + UnfetchedWork(c, n + 1)
  }

  function Work(c: Config, s: State): nat {
    Sum(PcWork, s.workers) + UnfetchedWork(c, s.sh.nextTask) + if s.late then 0 else 1
  }

  lemma StepPcReducesWork(c: Config, sh: Shared, pc: Pc, expired: bool)
    requires pc != Done
    ensures var (sh', pc') := StepPc(c, sh, pc, expired);
            PcWork(pc') + UnfetchedWork(c, sh'.nextTask) < PcWork(pc) + UnfetchedWork(c, sh.nextTask)
  {
    match pc
    case CheckClaimed(site) => SiteWorks(site);
    case CheckClock(site) => SiteWorks(site);
    case Claimed(hit, slot, k) => NextWorks(k.lines, k.rest);
    case Append(hit, k) => NextWorks(k.lines, k.rest);
    case Fetch =>
      if sh.nextTask < |c.tasks| {
        NextWorks([], c.tasks[sh.nextTask]);
      }
    case Claim(hit, k) =>
  }

  lemma {:induction false} TaskWorkAtLeast(t: Task)
    ensures TaskWork(t) >= 3
  {
    if t != [] {
      TaskWorkAtLeast(t[1..]);
    }
  }

  lemma NextWorks(lines: seq<Option<Hit>>, rest: Task)
    ensures PcWork(NextEntry(rest)) == TaskWork(rest) >= 3
    ensures PcWork(NextLine(lines, rest)) == LineWork(lines, rest)
  {
    TaskWorkAtLeast(rest);
  }

  lemma SiteWorks(site: Site)
    ensures PcWork(Proceed(site)) <= SiteWork(site)
    ensures PcWork(Stopped(site)) <= SiteWork(site)
  {
    match site
    case AtLoop =>
    case AtEntry(e, rest) => NextWorks(e.lines, rest);
    case AtLine(_, lines, rest) => NextWorks(lines, rest);
  }

  lemma StepReducesWork(c: Config, s: State, i: nat)
    requires i < |s.workers| && s.workers[i] != Done
    ensures Work(c, Step(c, s, i)) < Work(c, s)
  {
    StepPcReducesWork(c, s.sh, s.workers[i], s.late);
    SumUpdate(PcWork, s.workers, i, Step(c, s, i).workers[i]);
  }

  /** No schedule runs forever: a run has at most as many steps as there was work. */
  lemma {:induction false} EveryRunIsBounded(c: Config, run: seq<State>)
    requires IsRun(c, run)
    ensures |run| - 1 + Work(c, run[|run| - 1]) <= Work(c, run[0])
  {
    if |run| > 1 {
      var shorter, n := run[..|run| - 1], |run| - 1;
      if run[n] != Elapsed(run[n - 1]) {
        var i := StepOf(c, run, n);
        StepReducesWork(c, run[n - 1], i);
      }
      assert Next(c, run[n - 1], run[n - 1 + 1]);
      EveryRunIsBounded(c, shorter);
    }
  }

  /** And no schedule gets stuck: short of join, some worker can step. */
  lemma UnjoinedCanStep(c: Config, s: State)
    requires !Joined(s)
    ensures exists s' :: Next(c, s, s')
  {
    var i: nat :| i < |s.workers| && s.workers[i] != Done;
    assert Moves(c, s, i, Step(c, s, i));
    assert Next(c, s, Step(c, s, i));
  }

  // ---------- The deadline ----------

  /** In step j some worker that found slots left reads the clock, after the deadline. */
  ghost predicate ReadsLate(c: Config, run: seq<State>, j: nat) {
    j + 1 < |run| && run[j].late && exists i: nat :: Moves(c, run[j], i, run[j + 1]) && run[j].workers[i].CheckClock?
  }

  lemma PcChanges(c: Config, sh: Shared, pc: Pc, expired: bool)
    requires pc != Done
    ensures StepPc(c, sh, pc, expired).1 != pc
  {
  }

  /** The mover of a step is the one worker whose position changes. */
  lemma OneMover(c: Config, s: State, i: nat, k: nat, t: State)
    requires Moves(c, s, i, t) && Moves(c, s, k, t)
    ensures i == k
  {
    PcChanges(c, s.sh, s.workers[i], s.late);
    assert t.workers[i] != s.workers[i] && Step(c, s, k).workers[i] != s.workers[i];
  }

  lemma ElapsedMovesNobody(c: Config, s: State, i: nat)
    ensures !Moves(c, s, i, Elapsed(s))
  {
    if i < |s.workers| && s.workers[i] != Done { PcChanges(c, s.sh, s.workers[i], s.late); }
  }

  lemma MoverReads(c: Config, run: seq<State>, j: nat, i: nat)
    requires IsRun(c, run) && j + 1 < |run| && Moves(c, run[j], i, run[j + 1])
    ensures ReadsLate(c, run, j) <==> run[j].late && run[j].workers[i].CheckClock?
  {
    if ReadsLate(c, run, j) {
      var k: nat :| Moves(c, run[j], k, run[j + 1]) && run[j].workers[k].CheckClock?;
      OneMover(c, run[j], i, k, run[j + 1]);
    }
  }

  lemma NoMoverNoRead(c: Config, run: seq<State>, j: nat)
    requires IsRun(c, run) && j + 1 < |run| && run[j + 1] == Elapsed(run[j])
    ensures !ReadsLate(c, run, j)
  {
    forall k: nat ensures !Moves(c, run[j], k, Elapsed(run[j])) { ElapsedMovesNobody(c, run[j], k); }
  }

  lemma TimedOutStep(c: Config, run: seq<State>, j: nat)
    requires IsRun(c, run) && j + 1 < |run|
    ensures run[j + 1].sh.timedOut <==> run[j].sh.timedOut || ReadsLate(c, run, j)
  {
    if run[j + 1] == Elapsed(run[j]) {
      NoMoverNoRead(c, run, j);
    } else {
      var i := StepOf(c, run, j + 1);
      MoverReads(c, run, j, i);
    }
  }

  /** A timeout is recorded exactly when the clock had run out as the search began, or a worker has
      read it after the deadline since. */
  lemma {:induction false} TimedOutIff(c: Config, run: seq<State>, j: nat)
    requires IsRun(c, run) && j < |run|
    ensures run[j].sh.timedOut <==> run[0].late || exists k: nat :: k < j && ReadsLate(c, run, k)
  {
    if j > 0 {
      TimedOutIff(c, run, j - 1);
      TimedOutStep(c, run, j - 1);
    }
  }

  /** What a worker may still do after the deadline, and what it has done in a step: take a task, or
      append a hit. */
  function OwedLate(pc: Pc): nat {
    if pc.CheckClaimed? || pc.CheckClock? || pc == Done then 0 else 1
  }

  /** Worker `i` takes a task or appends a hit. */
  predicate Acts(c: Config, s: State, i: nat, t: State) {
    Moves(c, s, i, t) && (t.sh.nextTask > s.sh.nextTask || |t.sh.matches| > |s.sh.matches|)
  }

  function ActsOf(c: Config, run: seq<State>, i: nat, start: nat, end: nat): nat
    requires end < |run|
    decreases end
  {
    if end <= start then 0
    else ActsOf(c, run, i, start, end - 1) + if Acts(c, run[end - 1], i, run[end]) then 1 else 0
  }

  lemma LateMove(c: Config, s: State, i: nat)
    requires i < |s.workers| && s.workers[i] != Done && s.late
    ensures var t := Step(c, s, i);
      && t.late && OwedLate(t.workers[i]) <= OwedLate(s.workers[i])
      && (Acts(c, s, i, t) ==>
            && OwedLate(s.workers[i]) == 1 && OwedLate(t.workers[i]) == 0
            && t.sh.nextTask + |t.sh.matches| == s.sh.nextTask + |s.sh.matches| + 1)
  {
    NextKinds(s.workers[i]);
  }

  lemma LateStep(c: Config, run: seq<State>, i: nat, end: nat)
    requires IsRun(c, run) && 0 < end < |run| && run[end - 1].late && i < |run[end - 1].workers|
    ensures run[end].late && |run[end].workers| == |run[end - 1].workers|
    ensures OwedLate(run[end].workers[i]) + (if Acts(c, run[end - 1], i, run[end]) then 1 else 0)
              <= OwedLate(run[end - 1].workers[i])
  {
    var s, t := run[end - 1], run[end];
    if t == Elapsed(s) {
      ElapsedMovesNobody(c, s, i);
    } else {
      var k := StepOf(c, run, end);
      LateMove(c, s, k);
      if Acts(c, s, i, t) { OneMover(c, s, i, k, t); }
    }
  }

  /** From the deadline on, each worker takes at most one more task or appends at most one more hit. */
  lemma {:induction false} DeadlineStopsWorkers(c: Config, run: seq<State>, i: nat, start: nat, end: nat)
    requires IsRun(c, run) && start <= end < |run| && run[start].late && i < |run[start].workers|
    ensures run[end].late && i < |run[end].workers|
    ensures ActsOf(c, run, i, start, end) + OwedLate(run[end].workers[i]) <= OwedLate(run[start].workers[i]) <= 1
    decreases end
  {
    if start < end {
      DeadlineStopsWorkers(c, run, i, start, end - 1);
      LateStep(c, run, i, end);
    }
  }

  function LateLeft(): Pc -> nat { (pc: Pc) => OwedLate(pc) }

  /** So after the deadline the whole pool takes and appends no more than it has workers. */
  lemma {:induction false} DeadlineStopsThePool(c: Config, run: seq<State>, start: nat, end: nat)
    requires IsRun(c, run) && start <= end < |run| && run[start].late
    ensures run[end].late
    ensures run[end].sh.nextTask + |run[end].sh.matches| + Sum(LateLeft(), run[end].workers)
              <= run[start].sh.nextTask + |run[start].sh.matches| + Sum(LateLeft(), run[start].workers)
    decreases end
  {
    if start < end {
      DeadlineStopsThePool(c, run, start, end - 1);
      if run[end] != Elapsed(run[end - 1]) {
        var k := StepOf(c, run, end);
        LateMove(c, run[end - 1], k);
        CountersGrow(c, run[end - 1], k);
        SumUpdate(LateLeft(), run[end - 1].workers, k, run[end].workers[k]);
      }
    }
  }

  lemma CountersGrow(c: Config, s: State, i: nat)
    requires i < |s.workers|
    ensures s.sh.nextTask <= Step(c, s, i).sh.nextTask && |s.sh.matches| <= |Step(c, s, i).sh.matches|
  {
  }

  lemma {:induction false} AtMostAll<T>(f: T -> nat, s: seq<T>)
    requires forall x :: f(x) <= 1
    ensures Sum(f, s) <= |s|
  {
    if s != [] {
      AtMostAll(f, s[1..]);
    }
  }

  /** In numbers: at most one task or hit per worker after the deadline, in all. */
  lemma LateSearchWindsDown(c: Config, run: seq<State>, start: nat, end: nat)
    requires IsRun(c, run) && start <= end < |run| && run[start].late
    ensures run[end].sh.nextTask + |run[end].sh.matches|
              <= run[start].sh.nextTask + |run[start].sh.matches| + |run[0].workers|
  {
    DeadlineStopsThePool(c, run, start, end);
    RunHasInv(c, run, start);
    AtMostAll(LateLeft(), run[start].workers);
  }

  // ---------- The same code run by one worker ----------

  lemma LinesLeft(lines: seq<Option<Hit>>, i: nat)
    requires i < |lines|
    ensures LineHits(lines[i..]) == Found(lines[i]) + LineHits(lines[i + 1..])
  {
    assert lines[i..][1..] == lines[i + 1..];
  }

  lemma EntriesLeft(task: Task, i: nat)
    requires i < |task|
    ensures TaskHits(task[i..]) == Found(task[i].name) + (LineHits(task[i].lines) + TaskHits(task[i + 1..]))
  {
    assert task[i..][1..] == task[i + 1..];
  }

  lemma TasksLeft(tasks: seq<Task>, i: nat)
    requires i < |tasks|
    ensures ScanHits(tasks[i..]) == TaskHits(tasks[i]) + ScanHits(tasks[i + 1..])
  {
    assert tasks[i..][1..] == tasks[i + 1..];
  }

  /** Moving a part of what is left over to what is done. */
  lemma Moved<T>(done: seq<T>, part: seq<T>, left: seq<T>, done': seq<T>)
    requires done' <= done + part
    ensures done' <= done + (part + left)
    ensures done' == done + part ==> done' + left == done + (part + left)
  {
    assert done + (part + left) == (done + part) + left;
  }

  /** The shared fields after a push: a slot is taken, and with it goes the hit if there was one left. */
  function Pushed(cap: nat, sh: Shared, hit: Hit): Shared {
    sh.(claimed := sh.claimed + 1,
        capped := sh.capped || sh.claimed + 1 >= cap,
        matches := if sh.claimed < cap then sh.matches + [hit] else sh.matches)
  }

  /** Uninterrupted, the machine's steps claim, flag and append are one push. */
  lemma PushIsItsSteps(c: Config, sh: Shared, hit: Hit, k: Cont)
    requires c.cap >= 1
    ensures var (s1, p1) := StepPc(c, sh, Claim(hit, k), false);
            var (s2, p2) := StepPc(c, s1, p1, false);
            if sh.claimed < c.cap then p2.Append? && StepPc(c, s2, p2, false).0 == Pushed(c.cap, sh, hit)
            else p2 == Refused(k) && s2 == Pushed(c.cap, sh, hit)
  {
  }

  /** Uninterrupted, the machine's steps are one test: the slots first, then, if there are any left, the
      clock, which is recorded when it has run out. */
  lemma TestIsItsSteps(c: Config, sh: Shared, site: Site, expired: bool)
    ensures var (s1, p1) := StepPc(c, sh, CheckClaimed(site), expired);
            var (s2, p2) := if p1 == CheckClock(site) then StepPc(c, s1, p1, expired) else (s1, p1);
            && s2 == sh.(timedOut := sh.timedOut || (sh.claimed < c.cap && expired))
            && p2 == if sh.claimed >= c.cap || expired then Stopped(site) else Proceed(site)
  {
    NextKinds(CheckClock(site));
  }

  /** `push` and `should_stop` over the shared fields, and the loops that call them. */
  class SearchShared {
    const cap: nat
    var claimed: nat
    var capped: bool
    var timedOut: bool
    var matches: seq<Hit>
    var nextTask: nat

    /** Time only passes: the clock readings before this one are early, it and all later ones are
        expired. `readings` counts those taken. */
    const deadline: nat
    var readings: nat

    constructor (cap: nat, deadline: nat)
      requires cap >= 1
      ensures Valid() && this.cap == cap && this.deadline == deadline && readings == 1
      ensures claimed == 0 && matches == [] && nextTask == 0
    {
      this.cap, this.deadline := cap, deadline;
      claimed, capped, matches, nextTask := 0, false, [], 0;
      readings, timedOut := 1, deadline == 0;
    }

    /** A timeout is recorded exactly when some reading taken so far was expired. */
    ghost predicate Valid()
      reads this
    {
      && cap >= 1 && |matches| == Min(claimed, cap) && (capped <==> claimed >= cap)
      && (timedOut <==> deadline < readings)
    }

    ghost function View(): Shared
      reads this
    {
      Shared(claimed, capped, timedOut, matches, nextTask)
    }

    /** Reads the clock when there are slots left, and records what it says. */
    method ShouldStop() returns (stop: bool)
      requires Valid()
      modifies this`timedOut, this`readings
      ensures Valid()
      ensures stop <==> claimed >= cap || deadline <= old(readings)
      ensures readings == if claimed >= cap then old(readings) else old(readings) + 1
      ensures timedOut <==> old(timedOut) || (claimed < cap && deadline <= old(readings))
    {
      if claimed >= cap {
        return true;
      }
      var expired := deadline <= readings;
      readings := readings + 1;
      if expired {
        timedOut := true;
        return true;
      }
      return false;
    }

    /** Refuses exactly when no slot was left. */
    method Push(hit: Hit) returns (ok: bool)
      requires Valid()
      modifies this`claimed, this`capped, this`matches
      ensures Valid()
      ensures View() == Pushed(cap, old(View()), hit)
      ensures ok <==> old(claimed) < cap
    {
      var slot := claimed;
      claimed := claimed + 1;
      if slot >= cap {
        capped := true;
        return false;
      }
      if slot + 1 == cap {
        capped := true;
      }
      matches := matches + [hit];
      return true;
    }

    /** A hit, if this is one, is pushed. */
    method PushFound(found: Option<Hit>) returns (ok: bool)
      requires Valid()
      modifies this`claimed, this`capped, this`matches
      ensures Valid() && claimed >= old(claimed) && (!ok ==> claimed >= cap)
      ensures matches == old(matches) + if ok then Found(found) else []
    {
      if found.None? {
        return true;
      }
      ok := Push(found.value);
    }

    ghost predicate Stopping()
      reads this
    {
      claimed >= cap || timedOut
    }

    /** The results are a prefix of `goal`; all of it unless the search is stopping. */
    ghost predicate Reached(goal: seq<Hit>)
      reads this
    {
      matches <= goal && (Stopping() || matches == goal)
    }

    method SearchFileContents(lines: seq<Option<Hit>>)
      requires Valid()
      modifies this`claimed, this`capped, this`timedOut, this`matches, this`readings
      ensures Valid() && (old(timedOut) ==> timedOut) && claimed >= old(claimed) && readings >= old(readings)
      ensures Reached(old(matches) + LineHits(lines))
      ensures readings <= Max(old(readings), deadline) + 1
      ensures deadline <= old(readings) ==> matches == old(matches)
    {
      ghost var goal := matches + LineHits(lines);
      var i := 0;
      while i < |lines|
        invariant 0 <= i <= |lines|
        invariant Valid() && (old(timedOut) ==> timedOut) && claimed >= old(claimed) && readings >= old(readings)
        invariant matches <= goal && matches + LineHits(lines[i..]) == goal
        invariant readings <= Max(old(readings), deadline)
        invariant deadline <= old(readings) ==> matches == old(matches)
      {
        var stop := ShouldStop();
        if stop {
          return;
        }
        LinesLeft(lines, i);
        Moved(matches, Found(lines[i]), LineHits(lines[i + 1..]), matches + Found(lines[i]));
        var ok := PushFound(lines[i]);
        if !ok {
          return;
        }
        i := i + 1;
      }
      assert lines[i..] == [];
    }

    method SearchTask(task: Task)
      requires Valid()
      modifies this`claimed, this`capped, this`timedOut, this`matches, this`readings
      ensures Valid() && (old(timedOut) ==> timedOut) && claimed >= old(claimed) && readings >= old(readings)
      ensures Reached(old(matches) + TaskHits(task))
      ensures readings <= Max(old(readings), deadline) + 2
      ensures deadline <= old(readings) ==> matches == old(matches)
    {
      ghost var goal := matches + TaskHits(task);
      var i := 0;
      while i < |task|
        invariant 0 <= i <= |task|
        invariant Valid() && (old(timedOut) ==> timedOut) && claimed >= old(claimed) && readings >= old(readings)
        invariant matches <= goal
        invariant Stopping() || matches + TaskHits(task[i..]) == goal
        invariant readings <= Max(old(readings), deadline) + 1
        invariant deadline <= old(readings) ==> matches == old(matches)
      {
        var stop := ShouldStop();
        if stop {
          return;
        }
        var e := task[i];
        ghost var before, later := matches, TaskHits(task[i + 1..]);
        EntriesLeft(task, i);
        var ok := PushFound(e.name);
        if !ok {
          return;
        }
        Moved(before, Found(e.name), LineHits(e.lines) + later, matches);
        ghost var named := matches;
        SearchFileContents(e.lines);
        Moved(named, LineHits(e.lines), later, matches);
        i := i + 1;
      }
      assert task[i..] == [];
    }

    /** One worker alone finds the scan's hits in scan order, up to the cap. Once a reading is expired
        each of the three loops it may be in takes at most one more. */
    method RunWorker(tasks: seq<Task>)
      requires Valid() && claimed == 0 && nextTask == 0
      modifies this
      ensures Valid() && readings >= old(readings) && matches <= ScanHits(tasks)
      ensures !timedOut ==> matches == ScanHits(tasks)[..Min(|ScanHits(tasks)|, cap)]
      ensures !timedOut ==> (capped <==> |ScanHits(tasks)| >= cap)
      ensures readings <= Max(old(readings), deadline) + 3
      ensures deadline <= old(readings) ==> matches == [] && nextTask == 0
    {
      ghost var goal := ScanHits(tasks);
      assert tasks[0..] == tasks;
      while true
        invariant Valid() && readings >= old(readings) && 0 <= nextTask <= |tasks|
        invariant matches <= goal
        invariant Stopping() || matches + ScanHits(tasks[nextTask..]) == goal
        invariant readings <= Max(old(readings), deadline) + 2
        invariant deadline <= old(readings) ==> matches == [] && nextTask == 0
        decreases |tasks| - nextTask
      {
        var stop := ShouldStop();
        if stop {
          break;
        }
        var index := nextTask;
        nextTask := nextTask + 1;
        if index >= |tasks| {
          assert tasks[index..] == [];
          break;
        }
        TasksLeft(tasks, index);
        ghost var before := matches;
        SearchTask(tasks[index]);
        Moved(before, TaskHits(tasks[index]), ScanHits(tasks[nextTask..]), matches);
      }
    }
  }
}
