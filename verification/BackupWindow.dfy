// The scheduled backup worker's single fire per window
// (crates/catalerum-backup/src/worker.rs). Times are milliseconds on a clock all pods share;
// window names are whole seconds, as in the source.

module BackupWindow {
  import opened Text
  import opened TimedLock

  /** The interval in whole seconds; the worker floors its interval at 60 s. */
  function Secs(interval: nat): nat {
    interval / 1000
  }

  function Window(interval: nat, t: int): int
    requires interval >= 60_000
  {
    t / 1000 / Secs(interval) * Secs(interval)
  }

  function FireKey(window: int): string {
    "backup-fire:" + IntText(window)
  }

  lemma FireKeyInjective(v: int, w: int)
    requires FireKey(v) == FireKey(w)
    ensures v == w
  {
    assert IntText(v) == FireKey(v)[|"backup-fire:"|..];
    assert IntText(w) == FireKey(w)[|"backup-fire:"|..];
    IntTextInjective(v, w);
  }

  /** The clock reading lies in the window it names. */
  lemma WindowHolds(interval: nat, t: int)
    requires interval >= 60_000
    ensures Window(interval, t) * 1000 <= t < (Window(interval, t) + Secs(interval)) * 1000
  {
  }

  /** Readings an interval apart never name the same window. */
  lemma WindowsAdvance(interval: nat, t: int, u: int)
    requires interval >= 60_000 && u >= t + interval
    ensures Window(interval, t) < Window(interval, u)
  {
  }

  /** A pod sleeps, reads the clock, and only then asks for the lock: it may stall between
      any two of these. */
  datatype Pc = Sleeping(until: int) | Named(window: int) | BackingUp(window: int)
  datatype Pod = Pod(pc: Pc, attempts: seq<int>, lastRead: int)
  datatype Fire = Fire(window: int, at: int)
  datatype Refusal = Refusal(window: int, at: int)

  datatype State = State(
    now: int,
    locks: Table<int>, // by window: the resource name is one to one with it
    nextToken: nat,
    pods: seq<Pod>,
    fires: seq<Fire>,
    refusals: seq<Refusal>)

  datatype Action =
    | Wait(ms: nat)
    | Expire(window: int)
    | ReadClock(p: nat)
    | TryFire(p: nat, lockError: bool)
    | Finish(p: nat)
    | Restart(p: nat)

  function Moved(s: State, p: nat, pc: Pc): State
    requires p < |s.pods|
  {
    s.(pods := s.pods[p := s.pods[p].(pc := pc)])
  }

  function Read(interval: nat, s: State, p: nat): State
    requires interval >= 60_000 && p < |s.pods|
  {
    var w := Window(interval, s.now);
    s.(pods := s.pods[p := Pod(Named(w), s.pods[p].attempts + [w], s.now)])
  }

  function Fired(interval: nat, s: State, p: nat, lockError: bool): State
    requires p < |s.pods| && s.pods[p].pc.Named?
  {
    var w := s.pods[p].pc.window;
    if lockError then Moved(s, p, Sleeping(s.now + interval))
    else if Free(s.locks, w, s.now) then
      Moved(s.(locks := Acquired(s.locks, w, s.nextToken, interval, s.now),
               nextToken := s.nextToken + 1,
               fires := s.fires + [Fire(w, s.now)]),
            p, BackingUp(w))
    else Moved(s.(refusals := s.refusals + [Refusal(w, s.now)]), p, Sleeping(s.now + interval))
  }

  function Apply(interval: nat, s: State, a: Action): State
    requires interval >= 60_000
  {
    if a.Wait? then s.(now := s.now + a.ms)
    else if a.Expire? then s.(locks := Purged(s.locks, a.window, s.now))
    else if a.p >= |s.pods| then s
    else
      var pc := s.pods[a.p].pc;
      match a
      case ReadClock(p) => if pc.Sleeping? && pc.until <= s.now then Read(interval, s, p) else s
      case TryFire(p, lockError) => if pc.Named? then Fired(interval, s, p, lockError) else s
      case Finish(p) => if pc.BackingUp? then Moved(s, p, Sleeping(s.now + interval)) else s
      case Restart(p) => Moved(s, p, Sleeping(s.now + interval))
  }

  function Run(interval: nat, s: State, actions: seq<Action>): State
    requires interval >= 60_000
    decreases |actions|
  {
    if actions == [] then s else Run(interval, Apply(interval, s, actions[0]), actions[1..])
  }

  ghost predicate Init(interval: nat, s: State) {
    && interval >= 60_000
    && s.locks == map[] && s.fires == [] && s.refusals == []
    && forall p :: 0 <= p < |s.pods| ==>
         s.pods[p].attempts == [] && s.pods[p].pc == Sleeping(s.now + interval) && s.pods[p].lastRead == s.now
  }

  // ---------- Invariant ----------

  ghost predicate Spaced(interval: nat, a: Fire, b: Fire) {
    a.window == b.window ==> b.at >= a.at + interval
  }

  ghost predicate Locked(interval: nat, s: State, f: Fire) {
    s.now < f.at + interval ==>
      f.window in s.locks && s.locks[f.window].expiresAt == f.at + interval
  }

  ghost predicate HasFire(interval: nat, s: State, k: int, expiresAt: int) {
    exists f :: f in s.fires && f.window == k && expiresAt == f.at + interval
  }

  ghost predicate RefusedFor(interval: nat, s: State, r: Refusal) {
    exists f :: f in s.fires && f.window == r.window && f.at <= r.at < f.at + interval
  }

  ghost predicate FireInv(interval: nat, s: State) {
    && (forall i :: 0 <= i < |s.fires| ==> s.fires[i].window * 1000 <= s.fires[i].at <= s.now)
    && (forall i, j :: 0 <= i < j < |s.fires| ==> Spaced(interval, s.fires[i], s.fires[j]))
    && (forall i :: 0 <= i < |s.fires| ==> Locked(interval, s, s.fires[i]))
    && (forall k :: k in s.locks ==> HasFire(interval, s, k, s.locks[k].expiresAt))
    && (forall r :: r in s.refusals ==> RefusedFor(interval, s, r))
  }

  /** A pod's attempts carry increasing windows, the last one read at `lastRead`. */
  ghost predicate PodOk(interval: nat, s: State, pod: Pod)
    requires interval >= 60_000
  {
    && pod.lastRead <= s.now
    && (forall i, j :: 0 <= i < j < |pod.attempts| ==> pod.attempts[i] < pod.attempts[j])
    && (forall i :: 0 <= i < |pod.attempts| ==> pod.attempts[i] <= Window(interval, pod.lastRead))
    && (pod.pc.Sleeping? ==> pod.pc.until >= pod.lastRead + interval)
    && (pod.pc.Named? ==> pod.pc.window == Window(interval, pod.lastRead))
  }

  ghost predicate Inv(interval: nat, s: State) {
    && interval >= 60_000
    && FireInv(interval, s)
    && forall p :: 0 <= p < |s.pods| ==> PodOk(interval, s, s.pods[p])
  }

  lemma ReadKeepsPod(interval: nat, s: State, p: nat)
    requires Inv(interval, s) && p < |s.pods| && s.pods[p].pc.Sleeping? && s.pods[p].pc.until <= s.now
    ensures PodOk(interval, s, Read(interval, s, p).pods[p])
  {
    var pod := s.pods[p];
    assert PodOk(interval, s, pod);
    WindowsAdvance(interval, pod.lastRead, s.now);
  }

  /** A pod that has not read the clock keeps its attempts. */
  lemma PodStands(interval: nat, s: State, pod: Pod, s': State, pod': Pod)
    requires interval >= 60_000 && PodOk(interval, s, pod) && s.now <= s'.now
    requires pod'.attempts == pod.attempts && pod'.lastRead == pod.lastRead
    requires pod'.pc == pod.pc || pod'.pc == Sleeping(s.now + interval) || pod'.pc.BackingUp?
    ensures PodOk(interval, s', pod')
  {
  }

  lemma PodKept(interval: nat, s: State, a: Action, p: nat)
    requires Inv(interval, s) && p < |s.pods|
    ensures PodOk(interval, Apply(interval, s, a), Apply(interval, s, a).pods[p])
  {
    assert PodOk(interval, s, s.pods[p]);
    if a.ReadClock? && a.p == p && s.pods[p].pc.Sleeping? && s.pods[p].pc.until <= s.now {
      ReadKeepsPod(interval, s, p);
    } else {
      PodStands(interval, s, s.pods[p], Apply(interval, s, a), Apply(interval, s, a).pods[p]);
    }
  }

  lemma ApplyKeepsPods(interval: nat, s: State, a: Action)
    requires Inv(interval, s)
    ensures forall p :: 0 <= p < |s.pods| ==> PodOk(interval, Apply(interval, s, a), Apply(interval, s, a).pods[p])
  {
    forall p | 0 <= p < |s.pods|
      ensures PodOk(interval, Apply(interval, s, a), Apply(interval, s, a).pods[p])
    {
      PodKept(interval, s, a, p);
    }
  }

  lemma NewFireKeepsInv(interval: nat, s: State, s': State, f: Fire)
    requires interval >= 60_000 && FireInv(interval, s)
    requires f.at == s.now && f.window * 1000 <= s.now && Free(s.locks, f.window, s.now)
    requires s'.now == s.now && s'.fires == s.fires + [f] && s'.refusals == s.refusals
    requires s'.locks == s.locks[f.window := Held(s.nextToken, s.now + interval)]
    ensures FireInv(interval, s')
  {
    forall i | 0 <= i < |s.fires|
      ensures Spaced(interval, s.fires[i], f) && Locked(interval, s', s.fires[i])
    {
      assert Locked(interval, s, s.fires[i]);
    }
    NewFireKeepsOrigins(interval, s, s', f);
  }

  lemma NewFireKeepsOrigins(interval: nat, s: State, s': State, f: Fire)
    requires FireInv(interval, s)
    requires s'.fires == s.fires + [f] && f.at == s.now && s'.refusals == s.refusals
    requires s'.locks == s.locks[f.window := Held(s.nextToken, s.now + interval)]
    ensures forall k :: k in s'.locks ==> HasFire(interval, s', k, s'.locks[k].expiresAt)
    ensures forall r :: r in s'.refusals ==> RefusedFor(interval, s', r)
  {
  }

  lemma RefusalKeepsInv(interval: nat, s: State, s': State, w: int)
    requires FireInv(interval, s) && !Free(s.locks, w, s.now)
    requires s'.now == s.now && s'.fires == s.fires && s'.locks == s.locks
    requires s'.refusals == s.refusals + [Refusal(w, s.now)]
    ensures FireInv(interval, s')
  {
  }

  /** Nothing but time has passed since the last fire, and locks only ran out. */
  lemma QuietKeepsInv(interval: nat, s: State, s': State)
    requires FireInv(interval, s)
    requires s'.fires == s.fires && s'.refusals == s.refusals && s'.now >= s.now
    requires forall k :: k in s'.locks ==> k in s.locks && s'.locks[k] == s.locks[k]
    requires forall k :: k in s.locks && s.locks[k].expiresAt > s.now ==> k in s'.locks
    ensures FireInv(interval, s')
  {
  }

  lemma TryFireKeepsInv(interval: nat, s: State, p: nat)
    requires Inv(interval, s) && p < |s.pods| && s.pods[p].pc.Named?
    ensures FireInv(interval, Fired(interval, s, p, false))
  {
    var w := s.pods[p].pc.window;
    assert PodOk(interval, s, s.pods[p]);
    WindowHolds(interval, s.pods[p].lastRead);
    if Free(s.locks, w, s.now) {
      NewFireKeepsInv(interval, s, Fired(interval, s, p, false), Fire(w, s.now));
    } else {
      RefusalKeepsInv(interval, s, Fired(interval, s, p, false), w);
    }
  }

  lemma ApplyKeepsInv(interval: nat, s: State, a: Action)
    requires Inv(interval, s)
    ensures Inv(interval, Apply(interval, s, a))
  {
    ApplyKeepsPods(interval, s, a);
    if a.TryFire? && a.p < |s.pods| && s.pods[a.p].pc.Named? && !a.lockError {
      TryFireKeepsInv(interval, s, a.p);
    } else {
      QuietKeepsInv(interval, s, Apply(interval, s, a));
    }
  }

  lemma {:induction false} RunKeepsInv(interval: nat, s: State, actions: seq<Action>)
    requires Inv(interval, s)
    ensures Inv(interval, Run(interval, s, actions))
    decreases |actions|
  {
    if actions != [] {
      ApplyKeepsInv(interval, s, actions[0]);
      RunKeepsInv(interval, Apply(interval, s, actions[0]), actions[1..]);
    }
  }

  // ---------- What every run guarantees ----------

  ghost predicate WithinWindow(interval: nat, f: Fire) {
    f.at < (f.window + Secs(interval)) * 1000
  }

  /** Two backups of one window can only happen when the later pod's lock call landed after
      the window was over; among calls made inside their window there is one winner. */
  lemma OneBackupPerWindow(interval: nat, s0: State, actions: seq<Action>, i: nat, j: nat)
    requires Init(interval, s0)
    requires i < j < |Run(interval, s0, actions).fires|
    requires var s := Run(interval, s0, actions); s.fires[i].window == s.fires[j].window
    ensures var s := Run(interval, s0, actions);
            && s.fires[j].at >= s.fires[i].at + interval
            && !WithinWindow(interval, s.fires[j])
  {
    RunKeepsInv(interval, s0, actions);
    var s := Run(interval, s0, actions);
    assert Spaced(interval, s.fires[i], s.fires[j]);
  }

  /** A window is never lost to a mere refusal: some pod took it less than an interval ago. */
  lemma RefusedWindowWasTaken(interval: nat, s0: State, actions: seq<Action>, r: Refusal)
    requires Init(interval, s0) && r in Run(interval, s0, actions).refusals
    ensures exists f :: f in Run(interval, s0, actions).fires && f.window == r.window
                        && f.at <= r.at < f.at + interval
  {
    RunKeepsInv(interval, s0, actions);
    assert RefusedFor(interval, Run(interval, s0, actions), r);
  }

  /** One pod never tries the same window twice, restarts included. */
  lemma AttemptsAdvance(interval: nat, s0: State, actions: seq<Action>, p: nat, i: nat, j: nat)
    requires Init(interval, s0) && p < |Run(interval, s0, actions).pods|
    requires i < j < |Run(interval, s0, actions).pods[p].attempts|
    ensures var attempts := Run(interval, s0, actions).pods[p].attempts; attempts[i] < attempts[j]
  {
    RunKeepsInv(interval, s0, actions);
    assert PodOk(interval, Run(interval, s0, actions), Run(interval, s0, actions).pods[p]);
  }

  /** The condition on the lock call is needed: a pod that stalls between reading the clock
      and asking for the lock repeats a window already backed up. */
  lemma StalledPodRepeatsTheWindow(interval: nat, s0: State) returns (s: State)
    requires Init(interval, s0) && |s0.pods| == 2
    ensures s == Run(interval, s0,
      [Wait(interval), ReadClock(0), ReadClock(1), TryFire(0, false), Wait(interval), TryFire(1, false)])
    ensures |s.fires| == 2 && s.fires[0].window == s.fires[1].window
  {
    var actions := [Wait(interval), ReadClock(0), ReadClock(1), TryFire(0, false), Wait(interval), TryFire(1, false)];
    var s3 := BothRead(interval, s0, actions);
    var s4 := Fired(interval, s3, 0, false);
    var s5 := s4.(now := s4.now + interval);
    s := Fired(interval, s5, 1, false);
    RunStep(interval, s3, actions[3..]);
    RunStep(interval, s4, actions[3..][1..]);
    RunStep(interval, s5, actions[3..][1..][1..]);
  }

  lemma BothRead(interval: nat, s0: State, actions: seq<Action>) returns (s: State)
    requires Init(interval, s0) && |s0.pods| == 2
    requires |actions| >= 3 && actions[..3] == [Wait(interval), ReadClock(0), ReadClock(1)]
    ensures Run(interval, s0, actions) == Run(interval, s, actions[3..])
    ensures s.locks == map[] && s.fires == [] && |s.pods| == 2
    ensures s.pods[0].pc == s.pods[1].pc == Named(Window(interval, s0.now + interval))
  {
    assert actions[0] == actions[..3][0] && actions[1] == actions[..3][1] && actions[2] == actions[..3][2];
    var s1 := s0.(now := s0.now + interval);
    var s2 := Read(interval, s1, 0);
    s := Read(interval, s2, 1);
    RunStep(interval, s0, actions);
    RunStep(interval, s1, actions[1..]);
    RunStep(interval, s2, actions[2..]);
    assert actions[1..][1..] == actions[2..] && actions[2..][1..] == actions[3..];
  }

  lemma RunStep(interval: nat, s: State, actions: seq<Action>)
    requires interval >= 60_000 && actions != []
    ensures Run(interval, s, actions) == Run(interval, Apply(interval, s, actions[0]), actions[1..])
  {
  }

  // ---------- The worker's loop ----------

  /** A pod wakes exactly when its time is up, and tries the window of that moment; it backs up exactly
      when the lock call works and the window is free, and otherwise, or when done, or on a restart,
      sleeps a whole interval. */
  lemma WorkerLoops(interval: nat, s: State, p: nat, lockError: bool)
    requires interval >= 60_000 && p < |s.pods|
    ensures var pc := s.pods[p].pc;
      && (pc.Sleeping? ==> var t := Apply(interval, s, ReadClock(p));
            if s.now < pc.until then t == s
            else
              && t.pods[p].pc.Named?
              && var w := t.pods[p].pc.window;
                 w * 1000 <= s.now < (w + Secs(interval)) * 1000 && t.pods[p].attempts == s.pods[p].attempts + [w])
      && (pc.Named? ==> var t := Apply(interval, s, TryFire(p, lockError));
            if !lockError && Free(s.locks, pc.window, s.now)
            then t.pods[p].pc == BackingUp(pc.window) && t.fires == s.fires + [Fire(pc.window, s.now)]
            else t.pods[p].pc == Sleeping(s.now + interval) && t.fires == s.fires && t.locks == s.locks)
      && (pc.BackingUp? ==> Apply(interval, s, Finish(p)).pods[p].pc == Sleeping(s.now + interval))
      && Apply(interval, s, Restart(p)).pods[p].pc == Sleeping(s.now + interval)
  {
    WindowHolds(interval, s.now);
  }
}
