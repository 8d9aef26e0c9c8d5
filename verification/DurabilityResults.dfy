/** What the serializer promises over whole runs, and exactly where it breaks its promises. */
module DurabilityResults {
  import opened Jobs
  import opened Persisted
  import opened Serializing
  import opened Durability

  lemma StartInv()
    ensures Inv(START)
  {
    EmptyLog(FRESH);
    NothingOwed(map[]);
  }

  lemma {:induction false} RunKeeps(acts: seq<Action>)
    requires Orderly(START, acts)
    ensures Run(START, acts).Some? && Inv(Run(START, acts).value)
  {
    if acts == [] {
      StartInv();
    } else {
      var init := acts[..|acts| - 1];
      RunKeeps(init);
      StepKeeps(Run(START, init).value, acts[|acts| - 1]);
    }
  }

  // ---- Durability ----

  /** What the callers are told of a run, by a recovery or a flush, honours what was owed at that moment. */
  ghost predicate Truthful(h: seq<Event>, e: Event) {
    match e
    case Recovered(run) => Honours(h, run)
    case Flushed(snap, live) => Honours(h, snap) && Honours(h, live)
    case _ => true
  }

  ghost predicate RecoveriesHonour(h: seq<Event>) {
    forall k {:trigger h[k]} :: 0 <= k < |h| ==> Truthful(h[..k], h[k])
  }

  lemma HistoryGrows(s: Sys, a: Action)
    requires Step(s, a).Some?
    ensures var h := Step(s, a).value.history;
            || h == s.history
            || (&& |h| == |s.history| + 1 && h[..|s.history|] == s.history
                && var e := h[|s.history|];
                   e.Recovered? || e.Flushed? ==>
                     && s.proc.Up? && s.proc.phase.Reopening?
                     && e == if s.proc.booting then Recovered(s.proc.run) else Flushed(s.proc.phase.snap, s.proc.run))
  {
  }

  lemma OneMoreHonours(h: seq<Event>, next: seq<Event>)
    requires RecoveriesHonour(h) && |next| == |h| + 1 && next[..|h|] == h && Truthful(h, next[|h|])
    ensures RecoveriesHonour(next)
  {
    forall k | 0 <= k < |next| ensures Truthful(next[..k], next[k]) {
      if k < |h| {
        assert next[..k] == h[..k] && next[k] == next[..|h|][k];
      }
    }
  }

  lemma {:induction false} RunHonours(acts: seq<Action>)
    requires Orderly(START, acts)
    ensures Run(START, acts).Some? && RecoveriesHonour(Run(START, acts).value.history)
  {
    if acts != [] {
      var init := acts[..|acts| - 1];
      RunHonours(init);
      RunKeeps(init);
      var s := Run(START, init).value;
      var t := Step(s, acts[|acts| - 1]).value;
      HistoryGrows(s, acts[|acts| - 1]);
      if t.history != s.history {
        OneMoreHonours(s.history, t.history);
      }
    }
  }

  /** Reached from a fresh directory by callers that keep the discipline. */
  ghost predicate Reachable(s: Sys) {
    exists acts :: Orderly(START, acts) && Run(START, acts) == Some(s)
  }

  lemma ReachableInv(s: Sys)
    requires Reachable(s)
    ensures Inv(s) && RecoveriesHonour(s.history)
  {
    var acts :| Orderly(START, acts) && Run(START, acts) == Some(s);
    RunKeeps(acts);
    RunHonours(acts);
  }

  /**
   * From a fresh directory, through failing calls, checkpoints, crashes and recoveries that are
   * themselves cut short, every NewJsonSerializer that succeeds returns a run that honours everything
   * its callers had seen.
   */
  lemma EveryRecoveryHonours(s: Sys)
    requires Reachable(s)
    ensures RecoveriesHonour(s.history)
  {
    ReachableInv(s);
  }

  predicate Holds(m: Store, j: Job) {
    j.id in m && m[j.id] == j
  }

  /** The event gives the job this value. */
  predicate Gives(e: Event, j: Job) {
    match e
    case Updated(u) => u == j
    case Acknowledged(u) => u == j
    case Recovered(run) => Holds(run, j)
    case Flushed(snap, live) => Holds(snap, j) || Holds(live, j)
  }

  /** An event after which earlier values of the id are gone. */
  predicate Settles(e: Event, id: string) {
    match e
    case Updated(_) => false
    case Acknowledged(j) => j.id == id
    case _ => true
  }

  predicate ByOwnId(m: Store) {
    forall id :: id in m ==> m[id].id == id
  }

  /** All jobs of the event's runs are stored under their own ids. */
  predicate WellKeyed(e: Event) {
    match e
    case Recovered(run) => ByOwnId(run)
    case Flushed(snap, live) => ByOwnId(snap) && ByOwnId(live)
    case _ => true
  }

  /** The allowed values are those given by an event that nothing later settled. */
  lemma {:induction false} AllowedExactly(h: seq<Event>, j: Job)
    requires forall k :: 0 <= k < |h| ==> WellKeyed(h[k])
    ensures j in Allowed(h, j.id) <==>
            exists k :: 0 <= k < |h| && Gives(h[k], j) && forall l :: k < l < |h| ==> !Settles(h[l], j.id)
  {
    if h != [] {
      var init := h[..|h| - 1];
      AllowedExactly(init, j);
      if j in Allowed(init, j.id) && !Settles(h[|h| - 1], j.id) {
        var k :| 0 <= k < |init| && Gives(init[k], j) && forall l :: k < l < |init| ==> !Settles(init[l], j.id);
        assert Gives(h[k], j);
        forall l | k < l < |h| ensures !Settles(h[l], j.id) {
          assert l < |init| ==> h[l] == init[l];
        }
      }
      if k :| 0 <= k < |h| && Gives(h[k], j) && forall l :: k < l < |h| ==> !Settles(h[l], j.id) {
        if k < |init| {
          assert Gives(init[k], j);
          assert forall l :: k < l < |init| ==> h[l] == init[l];
        }
      }
    }
  }

  /** What the theorems below need to know of a history. */
  ghost predicate Sound(h: seq<Event>) {
    RecoveriesHonour(h) && forall k :: 0 <= k < |h| ==> WellKeyed(h[k])
  }

  lemma {:induction false} AllowedKeyed(h: seq<Event>, id: string)
    requires forall k :: 0 <= k < |h| ==> WellKeyed(h[k])
    ensures forall j :: j in Allowed(h, id) ==> j.id == id
  {
    if h != [] {
      AllowedKeyed(h[..|h| - 1], id);
    }
  }

  lemma HonouringIsKeyed(h: seq<Event>, m: Store)
    requires Honours(h, m) && forall k :: 0 <= k < |h| ==> WellKeyed(h[k])
    ensures ByOwnId(m)
  {
    forall id | id in m ensures m[id].id == id {
      AllowedKeyed(h, id);
    }
  }

  lemma {:induction false} HonourableIsKeyed(h: seq<Event>)
    requires RecoveriesHonour(h)
    ensures Sound(h)
  {
    if h != [] {
      var init, e := h[..|h| - 1], h[|h| - 1];
      forall k | 0 <= k < |init| ensures Truthful(init[..k], init[k]) {
        assert init[..k] == h[..k] && init[k] == h[k];
      }
      HonourableIsKeyed(init);
      assert Truthful(init, e);
      if e.Recovered? {
        HonouringIsKeyed(init, e.run);
      } else if e.Flushed? {
        HonouringIsKeyed(init, e.snap);
        HonouringIsKeyed(init, e.live);
      }
      forall k | 0 <= k < |h| ensures WellKeyed(h[k]) {
        assert k < |init| ==> h[k] == init[k];
      }
    }
  }

  predicate Writes(e: Event, j: Job) {
    e == Updated(j) || e == Acknowledged(j)
  }

  /** Whether some call since `from` gave the job this value. */
  ghost predicate Written(h: seq<Event>, from: nat, to: nat, j: Job)
    requires to <= |h|
  {
    exists w :: from <= w < to && Writes(h[w], j)
  }

  /** An allowed value was written by a caller, and not before the last acknowledgement of the job. */
  lemma {:induction false} AllowedWasWritten(h: seq<Event>, from: nat, i: nat, j: Job)
    requires Sound(h) && i <= |h| && j in Allowed(h[..i], j.id)
    requires from > 0 ==> from < i && h[from].Acknowledged? && h[from].job.id == j.id
    ensures Written(h, from, i, j)
    decreases i
  {
    var p := h[..i];
    assert forall k :: 0 <= k < i ==> WellKeyed(h[k]);
    AllowedExactly(p, j);
    var w :| 0 <= w < |p| && Gives(p[w], j) && forall l :: w < l < |p| ==> !Settles(p[l], j.id);
    assert from > 0 && w < from ==> Settles(p[from], j.id);
    assert p[w] == h[w];
    if h[w].Recovered? || h[w].Flushed? {
      assert Truthful(h[..w], h[w]);
      AllowedWasWritten(h, from, w, j);
    } else {
      assert Writes(h[w], j);
    }
  }

  lemma {:induction false} OwedForGood(h: seq<Event>, k: nat, i: nat, id: string)
    requires Sound(h) && k < i <= |h| && Owed(h[..k + 1], id)
    ensures Owed(h[..i], id)
    decreases i
  {
    assert h[..i][..i - 1] == h[..i - 1] && h[..i][i - 1] == h[i - 1];
    if k < i - 1 {
      OwedForGood(h, k, i - 1, id);
      if h[i - 1].Recovered? {
        assert Truthful(h[..i - 1], h[i - 1]);
      }
    }
  }

  /**
   * The durability theorem: a job once acknowledged is in every later recovered run, and its value there
   * was written at or after that acknowledgement.
   */
  lemma AcknowledgedSurvives(s: Sys, k: nat, i: nat)
    requires Reachable(s) && k < i < |s.history| && s.history[k].Acknowledged? && s.history[i].Recovered?
    ensures && s.history[k].job.id in s.history[i].run
            && Written(s.history, k, i, s.history[i].run[s.history[k].job.id])
  {
    var h := s.history;
    ReachableInv(s);
    HonourableIsKeyed(h);
    assert h[..k + 1][k] == h[k];
    OwedForGood(h, k, i, h[k].job.id);
    assert Truthful(h[..i], h[i]) && WellKeyed(h[i]);
    AllowedWasWritten(h, k, i, h[i].run[h[k].job.id]);
  }

  /**
   * A job that a successful checkpoint has published is in every later recovered run, with the value
   * published, the value memory held when the checkpoint returned, or one written since.
   */
  lemma FlushedSurvives(s: Sys, k: nat, i: nat, id: string)
    requires Reachable(s) && k < i < |s.history| && s.history[k].Flushed? && s.history[i].Recovered?
    requires id in s.history[k].snap
    ensures id in s.history[i].run
    ensures var j := s.history[i].run[id]; Gives(s.history[k], j) || Written(s.history, k, i, j)
  {
    var h := s.history;
    ReachableInv(s);
    HonourableIsKeyed(h);
    assert h[..k + 1][k] == h[k];
    OwedForGood(h, k, i, id);
    assert Truthful(h[..i], h[i]) && WellKeyed(h[i]);
    FlushedOrWritten(h, k, i, h[i].run[id]);
  }

  lemma {:induction false} FlushedOrWritten(h: seq<Event>, k: nat, i: nat, j: Job)
    requires Sound(h) && k < i <= |h| && h[k].Flushed? && j in Allowed(h[..i], j.id)
    ensures Gives(h[k], j) || Written(h, k, i, j)
    decreases i
  {
    var p := h[..i];
    assert forall l :: 0 <= l < i ==> WellKeyed(h[l]);
    AllowedExactly(p, j);
    var w :| 0 <= w < |p| && Gives(p[w], j) && forall l :: w < l < |p| ==> !Settles(p[l], j.id);
    assert w < k ==> Settles(p[k], j.id);
    assert p[w] == h[w];
    if w > k && (h[w].Recovered? || h[w].Flushed?) {
      assert Truthful(h[..w], h[w]);
      FlushedOrWritten(h, k, w, j);
    } else if w > k {
      assert Writes(h[w], j);
    }
  }

  /** Recoveries invent nothing: every job in a recovered run was written before with that very value. */
  lemma NothingInvented(s: Sys, i: nat, id: string)
    requires Reachable(s) && i < |s.history| && s.history[i].Recovered? && id in s.history[i].run
    ensures Written(s.history, 0, i, s.history[i].run[id])
  {
    ReachableInv(s);
    HonourableIsKeyed(s.history);
    assert Truthful(s.history[..i], s.history[i]) && WellKeyed(s.history[i]);
    AllowedWasWritten(s.history, 0, i, s.history[i].run[id]);
  }

  // ---- Files ----

  /**
   * At every moment of every run there is at most one segment, and from the first successful
   * construction on the main checkpoint is there in full, so that a crash now leaves a disk from which
   * everything owed is recoverable.
   */
  lemma DiskAtEveryMoment(s: Sys)
    requires Reachable(s)
    ensures |s.disk.sealed| + (if s.disk.active.Some? then 1 else 0) <= 1
    ensures s.history != [] ==> s.disk.main.Whole? && Honours(s.history, Recoverable(s.disk))
  {
    ReachableInv(s);
  }

  /** A rotation never renames over a sealed segment: there is none. */
  lemma RotationOverwritesNothing(s: Sys, sees: bool, r: Result)
    requires Reachable(s) && Step(s, Rotate(sees, r)).Some? && s.disk.active.Some?
    ensures s.disk.sealed == map[]
  {
    ReachableInv(s);
  }

  /** The number of the next rotation is 1 whenever there is something to rotate. */
  predicate NextIsOne(s: Sys) {
    && (InPhase(s, Rotating) ==> !s.proc.booting)
    && (s.proc.Up? && (s.proc.booting || s.disk.active.Some? || s.proc.phase.Reopening?) ==> s.proc.sealSeq == 0)
  }

  predicate OnlyFirst(d: Disk) {
    forall n :: n in d.sealed ==> n == 1
  }

  lemma NextIsOneStep(s: Sys, a: Action)
    requires NextIsOne(s) && Step(s, a).Some?
    ensures NextIsOne(Step(s, a).value)
  {
  }

  lemma OnlyFirstStep(s: Sys, a: Action)
    requires NextIsOne(s) && OnlyFirst(s.disk) && Step(s, a).Some?
    ensures OnlyFirst(Step(s, a).value.disk)
  {
  }

  /** So rotation numbers never come near the width of the source's counter. */
  lemma {:induction false} SegmentsAreNumberedOne(acts: seq<Action>)
    requires Run(START, acts).Some?
    ensures NextIsOne(Run(START, acts).value) && OnlyFirst(Run(START, acts).value.disk)
  {
    if acts != [] {
      SegmentsAreNumberedOne(acts[..|acts| - 1]);
      NextIsOneStep(Run(START, acts[..|acts| - 1]).value, acts[|acts| - 1]);
      OnlyFirstStep(Run(START, acts[..|acts| - 1]).value, acts[|acts| - 1]);
    }
  }

  // ---- A failed checkpoint is fail-stop ----

  predicate Closed(s: Sys) {
    s.proc.Up? && !s.proc.booting && !s.proc.open
  }

  lemma ClosedStep(s: Sys, a: Action)
    requires Closed(s) && Step(s, a).Some? && a != Reopen(Done) && !a.Crash?
    ensures Closed(Step(s, a).value)
    ensures Step(s, a).value.history == s.history ||
            (a.Update? && Step(s, a).value.history == s.history + [Updated(a.job)])
  {
  }

  /** Nothing but updates in memory has happened since. */
  ghost predicate OnlyUpdates(h: seq<Event>, since: seq<Event>) {
    |since| <= |h| && h[..|since|] == since && forall k :: |since| <= k < |h| ==> h[k].Updated?
  }

  lemma OneMoreUpdate(since: seq<Event>, h: seq<Event>, next: seq<Event>)
    requires OnlyUpdates(h, since) && (next == h || exists j :: next == h + [Updated(j)])
    ensures OnlyUpdates(next, since)
  {
  }

  predicate KeepsClosed(a: Action) {
    a != Reopen(Done) && !a.Crash?
  }

  lemma {:induction false} StaysClosed(s: Sys, acts: seq<Action>)
    requires Closed(s) && Run(s, acts).Some?
    requires forall k :: 0 <= k < |acts| ==> KeepsClosed(acts[k])
    ensures Closed(Run(s, acts).value) && OnlyUpdates(Run(s, acts).value.history, s.history)
  {
    if acts != [] {
      var init := acts[..|acts| - 1];
      StaysClosed(s, init);
      var m, a := Run(s, init).value, acts[|acts| - 1];
      assert KeepsClosed(a);
      ClosedStep(m, a);
      OneMoreUpdate(s.history, m.history, Step(m, a).value.history);
    }
  }

  /** With the append file closed nothing is acknowledged, nor can be, until a later checkpoint reopens it. */
  lemma {:induction false} NothingAcknowledgedWhileClosed(s: Sys, acts: seq<Action>, j: Job, ar: AppendResult)
    requires Closed(s) && Run(s, acts).Some?
    requires forall k :: 0 <= k < |acts| ==> KeepsClosed(acts[k])
    ensures OnlyUpdates(Run(s, acts).value.history, s.history)
    ensures Step(Run(s, acts).value, Append(j, ar)) == None
  {
    StaysClosed(s, acts);
  }

  /** A checkpoint that fails at any of its calls has left the append file closed. */
  lemma FailedCheckpointCloses(s: Sys, a: Action)
    requires s.proc.Up? && !s.proc.booting && !s.proc.open && !s.proc.phase.Idle?
    requires Step(s, a).Some? && Ready(Step(s, a).value)
    ensures Step(s, a).value.proc.open <==> a == Reopen(Done)
  {
  }
}
