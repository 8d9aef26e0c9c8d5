/** Where the durability promise ends: each hypothesis of the theorems, with a run that breaks it. */
module DurabilityLimits {
  import opened Jobs
  import opened Persisted
  import opened Serializing
  import opened Durability
  import opened DurabilityResults
  import opened Stretches
  import opened Replaying
  import opened Serializer
  import Names = SegmentNames

  // ---- Checkpoints without faults ----

  /** One checkpoint file and an empty log; with `taken`, the cleanup has removed the checkpoint, too. */
  function Flat(run: Store, taken: bool): Disk {
    Disk(if taken then Missing else Whole(run), Missing, Missing, map[], Some([]))
  }

  /** After a checkpoint without faults, from the snapshot on. */
  function Materialized(s: Sys, taken: bool): Sys
    requires s.proc.Up?
  {
    Sys(Flat(s.proc.run, taken), Up(false, s.proc.run, true, 0, Idle),
        s.history + [if s.proc.booting then Recovered(s.proc.run) else Flushed(s.proc.run, s.proc.run)])
  }

  lemma Materializes(s: Sys, taken: bool) returns (acts: seq<Action>)
    requires InPhase(s, Snapshotting) && OneSegment(s.disk) && !s.proc.open && s.disk.backup == Missing
    ensures Smooth(s, acts, Materialized(s, taken), !taken)
  {
    var t, more, u, v;
    acts, t := Publishes(s);
    more, u := RemovesOne(t);
    SmoothFurther(s, acts, t, more, u, !taken);
    acts, v := acts + more, u;
    if taken {
      v := u.(disk := u.disk.(main := Missing));
      SmoothOn(s, acts, u, false, Remove(Checkpoint, Done), v);
      acts := acts + [Remove(Checkpoint, Done)];
    }
    more := Reopens(v);
    SmoothFurther(s, acts, v, more, Materialized(s, taken), !taken);
    acts := acts + more;
  }

  function Reopened(s: Sys): Sys
    requires s.proc.Up? && s.proc.phase.Deleting?
  {
    Sys(s.disk.(active := Some([])), Up(false, s.proc.run, true, 0, Idle),
        s.history + [if s.proc.booting then Recovered(s.proc.run) else Flushed(s.proc.phase.snap, s.proc.run)])
  }

  lemma Reopens(s: Sys) returns (acts: seq<Action>)
    requires s.proc.Up? && s.proc.phase.Deleting? && NoSegment(s.disk)
    ensures Smooth(s, acts, Reopened(s), true)
  {
    var t := s.(proc := s.proc.(sealSeq := 0, phase := Reopening(s.proc.phase.snap)));
    TrailStart(s);
    SmoothOn(s, [], s, true, Removed(true), t);
    SmoothOn(s, [] + [Removed(true)], t, true, Reopen(Done), Reopened(s));
    acts := [] + [Removed(true)] + [Reopen(Done)];
  }

  lemma Publishes(s: Sys) returns (acts: seq<Action>, t: Sys)
    requires InPhase(s, Snapshotting)
    ensures t == SetFile(s, s.disk.(main := Whole(s.proc.run), tmp := Missing), Deleting(s.proc.run))
    ensures Smooth(s, acts, t, true)
  {
    var run := s.proc.run;
    TrailStart(s);
    var t1 := At(s, Opening(run));
    SmoothOn(s, [], s, true, Snapshot, t1);
    var t2 := SetFile(t1, t1.disk.(tmp := Partial), Encoding(run));
    SmoothOn(s, [] + [Snapshot], t1, true, OpenTmp(Done), t2);
    acts := [] + [Snapshot] + [OpenTmp(Done)];
    var t3 := SetFile(t2, t2.disk.(tmp := Whole(run)), Syncing(run));
    SmoothOn(s, acts, t2, true, Encode(Done), t3);
    acts := acts + [Encode(Done)];
    var t4 := At(t3, Renaming(run));
    SmoothOn(s, acts, t3, true, SyncClose(Done), t4);
    acts := acts + [SyncClose(Done)];
    t := SetFile(s, s.disk.(main := Whole(run), tmp := Missing), Deleting(run));
    SmoothOn(s, acts, t4, true, Publish(Done), t);
    acts := acts + [Publish(Done)];
  }

  lemma RemovesOne(s: Sys) returns (acts: seq<Action>, t: Sys)
    requires s.proc.Up? && s.proc.phase.Deleting? && OneSegment(s.disk)
    ensures t == s.(disk := s.disk.(sealed := map[], active := None))
    ensures Smooth(s, acts, t, true)
  {
    TrailStart(s);
    acts, t := [], s.(disk := s.disk.(sealed := map[], active := None));
    if s.disk.active.Some? {
      SmoothOn(s, acts, s, true, Remove(Active, Done), t);
      acts := acts + [Remove(Active, Done)];
    } else if s.disk.sealed != map[] {
      assert s.disk.sealed.Keys != {};
      var n :| n in s.disk.sealed;
      RemovedLast(s.disk, Sealed(n));
      SmoothOn(s, acts, s, true, Remove(Sealed(n), Done), t);
      acts := acts + [Remove(Sealed(n), Done)];
    }
  }

  /** A first construction without faults in an empty directory. */
  function FirstReady(taken: bool): Sys {
    Sys(Flat(map[], taken), Up(false, map[], true, 0, Idle), [Recovered(map[])])
  }

  const READY := FirstReady(false)

  const EMPTY := Sys(FRESH, Up(true, map[], false, 0, Snapshotting), [])

  lemma FirstLoad() returns (acts: seq<Action>)
    ensures Leads(START, acts, EMPTY) && Orderly(START, acts) && AllFaultless(acts)
  {
    var t1 := Sys(FRESH, Up(true, map[], false, 0, Statting), []);
    var t2, t3 := At(t1, Promoting), At(t1, Loading);
    OrderlyOn(START, [], START, Boot, t1);
    acts := [] + [Boot];
    OrderlyOn(START, acts, t1, StatMain(Done), t2);
    acts := acts + [StatMain(Done)];
    OrderlyOn(START, acts, t2, Promote(true, true, Done), t3);
    acts := acts + [Promote(true, true, Done)];
    EmptyLog(FRESH);
    SeenIsRecoverable(FRESH, Sight(true, []));
    OrderlyOn(START, acts, t3, Load(Sight(true, []), Done), EMPTY);
    acts := acts + [Load(Sight(true, []), Done)];
  }

  lemma FirstBoot(taken: bool) returns (acts: seq<Action>)
    ensures Leads(START, acts, FirstReady(taken)) && AllFaultless(acts) && (!taken ==> Orderly(START, acts))
  {
    acts := FirstLoad();
    var more := Materializes(EMPTY, taken);
    assert [] + [Recovered(map[])] == [Recovered(map[])];
    LeadsFurther(START, acts, EMPTY, more, FirstReady(taken));
    FaultlessParts(acts, more);
    if !taken {
      OrderlyFurther(START, acts, EMPTY, more, FirstReady(taken));
    }
    acts := acts + more;
  }

  lemma OnlyOn(s: Sys, acts: seq<Action>, t: Sys, a: Action, u: Sys)
    requires Leads(s, acts, t) && Step(t, a) == Some(u)
    ensures Leads(s, acts + [a], u)
    ensures AllFaultless(acts) && Faultless(a) ==> AllFaultless(acts + [a])
  {
    LeadsOn(s, acts, t, a);
    FaultlessOn(acts, a);
  }

  /** One job updated and acknowledged. */
  function FirstUpdated(j: Job, taken: bool): Sys {
    Sys(Flat(map[], taken).(active := Some([j])), Up(false, map[j.id := j], true, 0, Idle),
        [Recovered(map[]), Updated(j), Acknowledged(j)])
  }

  lemma FirstUpdate(j: Job, taken: bool) returns (acts: seq<Action>)
    ensures Leads(START, acts, FirstUpdated(j, taken)) && AllFaultless(acts)
  {
    acts := FirstBoot(taken);
    var s := FirstReady(taken);
    var u := Sys(s.disk, Up(false, map[j.id := j], true, 0, Idle), [Recovered(map[]), Updated(j)]);
    assert Apply(j, map[]) == map[j.id := j];
    assert [Recovered(map[])] + [Updated(j)] == [Recovered(map[]), Updated(j)];
    OnlyOn(START, acts, s, Update(j), u);
    acts := acts + [Update(j)];
    assert u.history + [Acknowledged(j)] == FirstUpdated(j, taken).history && [] + [j] == [j];
    OnlyOn(START, acts, u, Append(j, Acked), FirstUpdated(j, taken));
    acts := acts + [Append(j, Acked)];
  }

  /** The log of one line sealed at the start of a checkpoint. */
  lemma Seals(s: Sys, acts: seq<Action>, t: Sys, j: Job) returns (more: seq<Action>, u: Sys)
    requires Leads(s, acts, t) && Ready(t) && t.proc.sealSeq == 0
    requires t.disk.sealed == map[] && t.disk.active == Some([j])
    ensures u == Sys(t.disk.(sealed := map[1 := [j]], active := None),
                     Up(false, t.proc.run, false, 1, Snapshotting), t.history)
    ensures Leads(s, more, u) && (AllFaultless(acts) ==> AllFaultless(more))
  {
    var v := Sys(t.disk, Up(false, t.proc.run, false, 0, Rotating), t.history);
    OnlyOn(s, acts, t, StartCheckpoint, v);
    u := Sys(t.disk.(sealed := map[1 := [j]], active := None),
             Up(false, t.proc.run, false, 1, Snapshotting), t.history);
    assert map[][1 := [j]] == map[1 := [j]];
    OnlyOn(s, acts + [StartCheckpoint], v, Rotate(true, Done), u);
    more := acts + [StartCheckpoint] + [Rotate(true, Done)];
  }

  // ---- Lookups that fail ----

  /**
   * With at most one segment, as in every reachable state, a recovery whose lookups miss something still
   * returns the full run exactly when the main checkpoint already holds every line of the log.
   */
  lemma BlindRecoveryIsFullExactly(d: Disk, sight: Sight)
    requires OneSegment(d) && Picks(sight.order, d.sealed)
    ensures Seen(d, sight) == Recoverable(d) <==> SeesAll(d, sight) || Covers(Base(d.main), Log(d))
  {
    ReplayAddsNothingExactly(Log(d), Base(d.main));
    if SeesAll(d, sight) {
      SeenIsRecoverable(d, sight);
    } else {
      NothingSeen(d, sight);
    }
  }

  lemma NothingSeen(d: Disk, sight: Sight)
    requires OneSegment(d) && Picks(sight.order, d.sealed) && !SeesAll(d, sight)
    ensures Seen(d, sight) == Base(d.main)
  {
    PicksFit(sight.order, d.sealed);
    if sight.order != [] {
      OneKey(d.sealed, sight.order[0]);
    }
    assert LinesOf([], d.sealed) + [] == [];
  }

  lemma OneKey(m: map<nat, seq<Job>>, n: nat)
    requires |m| <= 1 && n in m
    ensures forall k :: k in m <==> k == n
  {
    assert {n} <= m.Keys && |m.Keys - {n}| == |m.Keys| - 1;
  }

  /** One error of os.Stat on the active log during a recovery, and an acknowledged job is gone. */
  lemma BlindRecoveryLosesAcknowledged(j: Job) returns (acts: seq<Action>)
    ensures Run(START, acts).Some? && !RecoveriesHonour(Run(START, acts).value.history)
  {
    acts := FirstUpdate(j, false);
    var s := Sys(FirstUpdated(j, false).disk, Down, FirstUpdated(j, false).history);
    CrashOn(START, acts, FirstUpdated(j, false));
    acts := acts + [Crash];
    var more, w := BlindBoot(s);
    LeadsFurther(START, acts, s, more, w);
    acts := acts + more;
    var h := w.history;
    assert h[..3] == s.history && h[3] == Recovered(map[]);
    assert h[..3][..2] == s.history[..2];
    assert Owed(h[..3], j.id);
    assert !Truthful(h[..3], h[3]);
  }

  /** A recovery that sees the checkpoint and misses the active log. */
  lemma BlindBoot(s: Sys) returns (acts: seq<Action>, t: Sys)
    requires s.proc.Down? && s.disk.main.Whole? && s.disk.sealed == map[]
    ensures Leads(s, acts, t) && t.history == s.history + [Recovered(s.disk.main.content)]
  {
    var d := s.disk.(tmp := Missing, backup := Missing);
    var t1 := Sys(s.disk, Up(true, map[], false, 0, Statting), s.history);
    var t2 := At(t1, CleanTmp);
    var t3 := SetFile(t1, s.disk.(tmp := Missing), CleanBackup);
    var t4 := SetFile(t1, d, Loading);
    OnlyOn(s, [], s, Boot, t1);
    acts := [] + [Boot];
    OnlyOn(s, acts, t1, StatMain(Done), t2);
    acts := acts + [StatMain(Done)];
    OnlyOn(s, acts, t2, Clean(Done), t3);
    acts := acts + [Clean(Done)];
    OnlyOn(s, acts, t3, Clean(Done), t4);
    acts := acts + [Clean(Done)];
    var load := Load(Sight(false, []), Done);
    var t5 := Sys(d, Up(true, d.main.content, false, 0, Snapshotting), s.history);
    assert Seen(d, Sight(false, [])) == d.main.content by {
      assert LinesOf([], d.sealed) + [] == [];
    }
    OnlyOn(s, acts, t4, load, t5);
    acts := acts + [load];
    var more := Materializes(t5, false);
    t := Materialized(t5, false);
    LeadsFurther(s, acts, t5, more, t);
    acts := acts + more;
  }

  /**
   * And a stem that holds the segment marker and then no number hides every sealed segment: its recovery is
   * full exactly when nothing sealed is left that the checkpoint does not cover.
   */
  lemma UnrecognisedStemLosesExactly(d: Disk, stem: string, faults: ReadFaults, sight: Sight)
    requires OneSegment(d) && !faults.listing && !faults.stat && SightOf(sight, d, stem, faults)
    ensures Seen(d, sight) == Recoverable(d) <==>
            Names.Recognised(stem) || d.sealed == map[] || Covers(Base(d.main), SealedLines(d.sealed))
  {
    BlindRecoveryIsFullExactly(d, sight);
    SeesAllExactly(sight, d, stem, faults);
    assert d.sealed != map[] ==> Log(d) == SealedLines(d.sealed) + [] == SealedLines(d.sealed);
  }

  // ---- Callers that log before they update memory ----

  lemma EmptyLogRecovers(d: Disk)
    requires d.sealed == map[] && ActiveLines(d.active) == []
    ensures Recoverable(d) == Base(d.main)
  {
    EmptyLog(d.(active := None));
    LogOfActive(d);
  }

  /**
   * After a successful checkpoint that has removed all segments what is recoverable is the run in memory,
   * unless the cleanup takes the checkpoint: then nothing is.
   */
  lemma CheckpointKeepsExactlyMemory(run: Store, d: Disk, base: string)
    ensures Recoverable(Checkpointed(run, d, base, false)) == if Names.TakesCheckpoint(base) then map[] else run
  {
    EmptyLogRecovers(Checkpointed(run, d, base, false));
  }

  /** JobUpdate without UpdateJob before it: acknowledged, and lost by the next checkpoint. */
  lemma LoggedOnlyIsLost(j: Job) returns (acts: seq<Action>)
    ensures Run(START, acts).Some?
    ensures var s := Run(START, acts).value;
            Owed(s.history, j.id) && j.id !in Recoverable(s.disk)
  {
    acts := FirstBoot(false);
    var u := Sys(READY.disk.(active := Some([j])), READY.proc, [Recovered(map[]), Acknowledged(j)]);
    assert [Recovered(map[])] + [Acknowledged(j)] == u.history && [] + [j] == [j];
    OnlyOn(START, acts, READY, Append(j, Acked), u);
    acts := acts + [Append(j, Acked)];
    var w;
    acts, w := Seals(START, acts, u, j);
    var more := Materializes(w, false);
    LeadsFurther(START, acts, w, more, Materialized(w, false));
    acts := acts + more;
    OwedAfterFlush(u.history, j.id, map[], map[]);
    EmptyLogRecovers(Flat(map[], false));
  }

  lemma OwedAfterFlush(h: seq<Event>, id: string, snap: Store, live: Store)
    requires Owed(h, id)
    ensures Owed(h + [Flushed(snap, live)], id)
  {
    assert (h + [Flushed(snap, live)])[..|h|] == h;
  }

  // ---- A checkpoint path that the cleanup matches ----

  /**
   * Without a single fault, and with callers that keep every promise: where the cleanup takes the checkpoint
   * (SegmentNames.TakesCheckpoint) an acknowledged job is lost by the next checkpoint.
   */
  lemma TakenCheckpointLosesAcknowledged(j: Job) returns (acts: seq<Action>)
    ensures Run(START, acts).Some? && AllFaultless(acts)
    ensures var s := Run(START, acts).value;
            Owed(s.history, j.id) && Recoverable(s.disk) == map[]
  {
    acts := FirstUpdate(j, true);
    var t, w := FirstUpdated(j, true), READY;
    acts, w := Seals(START, acts, t, j);
    var more := Materializes(w, true);
    LeadsFurther(START, acts, w, more, Materialized(w, true));
    FaultlessParts(acts, more);
    acts := acts + more;
    OwedAfterFlush(t.history, j.id, w.proc.run, w.proc.run);
    EmptyLogRecovers(Flat(w.proc.run, true));
  }

  // ---- A cleanup that misses a segment ----

  /**
   * A segment left beside a newer checkpoint does no harm exactly when the checkpoint covers it, that is,
   * when no job in it has changed since.
   */
  lemma StaleSegmentIsHarmlessExactly(d: Disk)
    requires d.main.Whole?
    ensures Recoverable(d) == d.main.content <==> Covers(d.main.content, Log(d))
  {
    ReplayAddsNothingExactly(Log(d), d.main.content);
  }

  /** Published again with a listing that misses the sealed segment. */
  lemma MissesSegment(s: Sys, acts: seq<Action>, t: Sys, r: Result) returns (more: seq<Action>, u: Sys)
    requires Leads(s, acts, t) && InPhase(t, Snapshotting) && t.disk.active == None && !t.proc.booting
    requires !t.proc.open
    ensures u == Sys(t.disk.(main := Whole(t.proc.run), tmp := Missing, active := if r.Done? then Some([]) else None),
                     Up(false, t.proc.run, r.Done?, 0, Idle),
                     t.history + if r.Done? then [Flushed(t.proc.run, t.proc.run)] else [])
    ensures Leads(s, more, u)
  {
    var published, v;
    more, published := Publishes(t);
    LeadsFurther(s, acts, t, more, published);
    more := acts + more;
    v := Sys(published.disk, Up(false, t.proc.run, false, 0, Reopening(t.proc.run)), t.history);
    OnlyOn(s, more, published, Removed(false), v);
    more := more + [Removed(false)];
    u := Sys(t.disk.(main := Whole(t.proc.run), tmp := Missing, active := if r.Done? then Some([]) else None),
             Up(false, t.proc.run, r.Done?, 0, Idle),
             t.history + if r.Done? then [Flushed(t.proc.run, t.proc.run)] else []);
    assert t.history + [] == t.history;
    OnlyOn(s, more, v, Reopen(r), u);
    more := more + [Reopen(r)];
  }

  /**
   * Two cleanups whose listing misses the sealed segment, one job changed between them: the second
   * checkpoint returns without error and has published the new value, and a recovery brings back the old.
   */
  lemma StaleSegmentRevives(j: Job, k: Job) returns (acts: seq<Action>)
    requires j.id == k.id && j != k
    ensures Run(START, acts).Some?
    ensures var s := Run(START, acts).value;
            Allowed(s.history, j.id) == {k} && j.id in Recoverable(s.disk) && Recoverable(s.disk)[j.id] == j
  {
    acts := FirstUpdate(j, false);
    var w, u;
    acts, w := Seals(START, acts, FirstUpdated(j, false), j);
    acts, u := MissesSegment(START, acts, w, Fails);
    acts, w := ChangesAgain(START, acts, u, k);
    acts, u := MissesSegment(START, acts, w, Done);
    assert w.proc.run == map[k.id := k];
    RevivedJob(u.disk, j, k);
  }

  /** A change of memory, and a checkpoint with nothing to rotate. */
  lemma ChangesAgain(s: Sys, acts: seq<Action>, t: Sys, k: Job) returns (more: seq<Action>, u: Sys)
    requires Leads(s, acts, t) && Ready(t) && !t.proc.open && t.proc.sealSeq == 0 && t.disk.active == None
    ensures u == Sys(t.disk, Up(false, Apply(k, t.proc.run), false, 0, Snapshotting), t.history + [Updated(k)])
    ensures Leads(s, more, u)
  {
    var run, h := Apply(k, t.proc.run), t.history + [Updated(k)];
    var v, x := Sys(t.disk, Up(false, run, false, 0, Idle), h), Sys(t.disk, Up(false, run, false, 0, Rotating), h);
    u := Sys(t.disk, Up(false, run, false, 0, Snapshotting), h);
    OnlyOn(s, acts, t, Update(k), v);
    OnlyOn(s, acts + [Update(k)], v, StartCheckpoint, x);
    more := acts + [Update(k)] + [StartCheckpoint];
    OnlyOn(s, more, x, Rotate(true, Done), u);
    more := more + [Rotate(true, Done)];
  }

  lemma RevivedJob(d: Disk, j: Job, k: Job)
    requires j.id == k.id && d.sealed == map[1 := [j]] && ActiveLines(d.active) == [] && d.main == Whole(map[k.id := k])
    ensures j.id in Recoverable(d) && Recoverable(d)[j.id] == j
  {
    OneSealed(1, [j]);
    assert Log(d) == [j];
    assert [j][..0] == [] && Replay([j], d.main.content) == Apply(j, Replay([], d.main.content));
  }

  // ---- A checkpoint that fails ----

  /** One failing rename is enough to reach a serializer that is ready for calls and acknowledges nothing. */
  lemma FailedCheckpointReached() returns (acts: seq<Action>)
    ensures Orderly(START, acts) && Run(START, acts).Some?
    ensures Closed(Run(START, acts).value) && Ready(Run(START, acts).value)
  {
    acts := FirstBoot(false);
    var u := READY.(proc := Up(false, map[], false, 0, Rotating));
    OrderlyOn(START, acts, READY, StartCheckpoint, u);
    acts := acts + [StartCheckpoint];
    var v := READY.(proc := Up(false, map[], false, 0, Idle));
    OrderlyOn(START, acts, u, Rotate(true, Fails), v);
    acts := acts + [Rotate(true, Fails)];
  }

  // ---- A first checkpoint cut short ----

  /** No recovery that sees the tmp file can succeed on these disks. */
  predicate Stuck(s: Sys) {
    || (s.disk.main.Partial? && (s.proc.Up? ==> s.proc.booting && Before(s.proc.phase) && !s.proc.phase.Promoting?))
    || (s.disk.main.Missing? && s.disk.tmp.Partial? &&
          (s.proc.Up? ==> s.proc.booting && (s.proc.phase.Statting? || s.proc.phase.Promoting?)))
  }

  predicate SeesTmp(a: Action) {
    a.Promote? ==> a.seesTmp
  }

  lemma StuckStep(s: Sys, a: Action)
    requires Stuck(s) && Step(s, a).Some? && SeesTmp(a)
    ensures Stuck(Step(s, a).value)
  {
  }

  /** No construction ever succeeds again. */
  lemma {:induction false} StuckForever(s: Sys, acts: seq<Action>)
    requires Stuck(s) && Run(s, acts).Some?
    requires forall k :: 0 <= k < |acts| ==> SeesTmp(acts[k])
    ensures Stuck(Run(s, acts).value) && !Ready(Run(s, acts).value)
  {
    if acts != [] {
      StuckForever(s, acts[..|acts| - 1]);
      assert SeesTmp(acts[|acts| - 1]);
      StuckStep(Run(s, acts[..|acts| - 1]).value, acts[|acts| - 1]);
    }
  }

  /** A directory that cannot be recovered never held anything owed. */
  lemma StuckOwesNothing(s: Sys)
    requires Reachable(s) && Stuck(s)
    ensures s.history == []
  {
    ReachableInv(s);
  }

  lemma OpensTmp(s: Sys, content: Store)
    requires InPhase(s, Opening(content))
    ensures Step(s, OpenTmp(Done)) == Some(SetFile(s, s.disk.(tmp := Partial), Encoding(content)))
  {
  }

  /** A crash while the very first checkpoint is written. */
  lemma CutShort() returns (acts: seq<Action>)
    ensures Orderly(START, acts) && Leads(START, acts, Sys(FRESH.(tmp := Partial), Down, []))
  {
    acts := FirstLoad();
    var t1 := At(EMPTY, Opening(map[]));
    var t2 := SetFile(t1, t1.disk.(tmp := Partial), Encoding(map[]));
    TrailStart(EMPTY);
    SmoothOn(EMPTY, [], EMPTY, true, Snapshot, t1);
    OpensTmp(t1, map[]);
    SmoothOn(EMPTY, [] + [Snapshot], t1, true, OpenTmp(Done), t2);
    var more := [] + [Snapshot] + [OpenTmp(Done)];
    OrderlyFurther(START, acts, EMPTY, more, t2);
    acts := acts + more;
    CrashOn(START, acts, t2);
    acts := acts + [Crash];
  }

  /** It is enough. */
  lemma FirstCheckpointCutShort() returns (acts: seq<Action>)
    ensures Orderly(START, acts) && Run(START, acts).Some? && Stuck(Run(START, acts).value)
  {
    acts := CutShort();
    assert Stuck(Sys(FRESH.(tmp := Partial), Down, []));
  }
}
