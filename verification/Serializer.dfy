/**
 * JsonSerializer as the source writes it: an object over a directory, each file-system call able to fail.
 * Every method hands back the calls it made as actions of the step system, so that what holds after any
 * prefix of actions, a crash included, holds in the middle of the method.
 */
module Serializer {
  import opened Jobs
  import opened Persisted
  import opened Serializing
  import opened Durability
  import opened DurabilityResults
  import opened Stretches
  import opened Replaying
  import opened Decimal
  import Names = SegmentNames

  /** The calls of one JobUpdate that return an error: Encode, which then has written nothing, and Sync. */
  datatype AppendFaults = AppendFaults(encode: bool, sync: bool)

  /**
   * The calls of a checkpoint, of the end of a construction and of Close that return an error. `stat` and
   * `rotate` look for the active log and rename it; `open`, `encode` and `sync` write the tmp file, `drop`
   * removes it when it could not be encoded, and `rename` publishes it; `listing` and `remove` belong to the
   * cleanup, `reopen` and `close` to the append file.
   */
  datatype WriteFaults = WriteFaults(stat: bool, rotate: bool, open: bool, encode: bool, drop: bool, sync: bool,
    rename: bool, listing: bool, remove: set<Artifact>, reopen: bool, close: bool)

  /** The calls of recoverCheckpointAtomic that return an error; those of the two removals are ignored. */
  datatype BootFaults = BootFaults(statMain: bool, statTmp: bool, statBackup: bool, promote: bool, dropTmp: bool,
    dropBackup: bool)

  predicate NoWriteFault(f: WriteFaults) {
    && !f.stat && !f.rotate && !f.open && !f.encode && !f.drop && !f.sync && !f.rename
    && !f.listing && f.remove == {} && !f.reopen && !f.close
  }

  predicate NoBootFault(f: BootFaults) {
    !f.statMain && !f.statTmp && !f.statBackup && !f.promote && !f.dropTmp && !f.dropBackup
  }

  /** What one call returns. */
  function Attempt(fails: bool): Result {
    if fails then Fails else Done
  }

  /** The directory; `history` is what the callers have seen. */
  class Directory {
    var disk: Disk
    ghost var history: seq<Event>

    constructor ()
      ensures disk == FRESH && history == []
    {
      disk := FRESH;
      history := [];
    }

    ghost function Down(): Sys reads this {
      Sys(disk, Proc.Down, history)
    }
  }

  /** The same files but for the two a checkpoint in progress works on. */
  predicate SameButCheckpoint(d: Disk, e: Disk) {
    d.backup == e.backup && d.sealed == e.sealed && d.active == e.active
  }

  ghost function Reloaded(s: Sys, sight: Sight): Sys
    requires s.proc.Up? && Picks(sight.order, s.disk.sealed)
  {
    s.(proc := s.proc.(run := Seen(s.disk, sight)))
  }

  lemma ReloadOn(s: Sys, sight: Sight)
    requires Ready(s) && !s.disk.main.Partial? && Picks(sight.order, s.disk.sealed)
    ensures Leads(s, [Reload(sight)], Reloaded(s, sight))
    ensures SeesAll(s.disk, sight) ==> Orderly(s, [Reload(sight)])
  {
    LeadsOn(s, [], s, Reload(sight));
    assert [] + [Reload(sight)] == [Reload(sight)] && [Reload(sight)][..0] == [];
    assert Orderly(s, []);
  }

  lemma ReloadedInv(s: Sys, sight: Sight)
    requires Inv(s) && Ready(s) && !s.disk.main.Partial? && Picks(sight.order, s.disk.sealed) && SeesAll(s.disk, sight)
    ensures Inv(Reloaded(s, sight))
  {
    ReloadKeeps(s, sight);
  }

  /** A name's number fits the source's counter. */
  predicate Countable(d: Disk) {
    forall n :: n in d.sealed ==> n < UINT64_LIMIT
  }

  // ---- The cleanup ----

  /**
   * What the cleanup leaves: nothing its pattern matches, which for some checkpoint paths includes the
   * checkpoint; `blind` when the listing fails, which passes for "nothing there".
   */
  function Cleared(d: Disk, base: string, blind: bool): Disk {
    if blind then d else
    var takes := Names.TakesCheckpoint(base);
    Disk(if takes then Missing else d.main, d.tmp, if takes then Missing else d.backup, map[], None)
  }

  /** The files after a checkpoint that returned no error; without a blind listing only `d.backup` matters. */
  function Checkpointed(run: Store, d: Disk, base: string, blind: bool): Disk {
    var cleared := Cleared(Disk(Whole(run), Missing, d.backup, d.sealed, d.active), base, blind);
    cleared.(active := Some(ActiveLines(cleared.active)))
  }

  /** Nothing but segments is removed, and all of them. */
  predicate Spares(base: string, blind: bool) {
    !Names.TakesCheckpoint(base) && !blind
  }

  predicate AnyMatch(d: Disk, takes: bool) {
    d.active.Some? || d.sealed != map[] || (takes && (d.main != Missing || d.backup != Missing))
  }

  predicate Matches(file: Artifact, takes: bool) {
    file.Active? || file.Sealed? || takes
  }

  function FileCount(d: Disk): nat {
    |d.sealed| + (if d.active.Some? then 1 else 0) + (if d.main != Missing then 1 else 0)
    + (if d.backup != Missing then 1 else 0)
  }

  /** Some file that is still there; which one is up to the listing. */
  method NextListed(d: Disk, takes: bool) returns (file: Artifact)
    requires AnyMatch(d, takes)
    ensures OnDisk(d, file) && Matches(file, takes)
  {
    if
    case d.active.Some? =>
      file := Active;
    case d.sealed != map[] =>
      assert d.sealed.Keys != {};
      var n :| n in d.sealed.Keys;
      file := Sealed(n);
    case takes && d.main != Missing =>
      file := Checkpoint;
    case takes && d.backup != Missing =>
      file := Spare;
  }

  lemma RemovingShrinks(d: Disk, file: Artifact)
    requires OnDisk(d, file)
    ensures FileCount(Without(d, file)) < FileCount(d)
  {
    if file.Sealed? {
      assert (d.sealed - {file.n}).Keys == d.sealed.Keys - {file.n};
    }
  }

  /** A cleanup on its way from `d`: only what matches has gone. */
  predicate Clearing(e: Disk, d: Disk, takes: bool) {
    && e.tmp == d.tmp
    && (e.main == d.main || (takes && e.main == Missing)) && (e.backup == d.backup || (takes && e.backup == Missing))
    && (e.active == d.active || e.active == None)
    && forall n :: n in e.sealed ==> n in d.sealed && e.sealed[n] == d.sealed[n]
  }

  /** What is gone could be removed. */
  ghost predicate Yielded(e: Disk, d: Disk, remove: set<Artifact>) {
    forall file :: OnDisk(d, file) && !OnDisk(e, file) ==> file !in remove
  }

  lemma YieldedOne(e: Disk, d: Disk, takes: bool, remove: set<Artifact>, file: Artifact)
    requires Clearing(e, d, takes) && Yielded(e, d, remove)
    requires OnDisk(e, file) && Matches(file, takes) && file !in remove
    ensures Clearing(Without(e, file), d, takes) && Yielded(Without(e, file), d, remove)
    ensures FileCount(Without(e, file)) < FileCount(e)
  {
    RemovingShrinks(e, file);
    forall other | OnDisk(d, other) && !OnDisk(Without(e, file), other) ensures other !in remove {
      if other != file {
        assert !OnDisk(e, other);
      }
    }
  }

  /** No file that the cleanup finds refuses to be removed. */
  predicate Yields(d: Disk, takes: bool, remove: set<Artifact>) {
    forall file :: file in remove ==> !(OnDisk(d, file) && Matches(file, takes))
  }

  lemma AllYielded(e: Disk, d: Disk, takes: bool, remove: set<Artifact>)
    requires Yielded(e, d, remove) && !AnyMatch(e, takes)
    ensures Yields(d, takes, remove)
  {
    forall file | OnDisk(d, file) && Matches(file, takes) ensures file !in remove {
      assert !OnDisk(e, file);
    }
  }

  lemma OneRefuses(e: Disk, d: Disk, takes: bool, remove: set<Artifact>, file: Artifact)
    requires Clearing(e, d, takes) && OnDisk(e, file) && Matches(file, takes) && file in remove
    ensures !Yields(d, takes, remove)
  {
    assert OnDisk(d, file);
  }

  // ---- When a checkpoint succeeds ----

  /** The files after the start of a checkpoint has sealed the active log, if it could. */
  function Rotated(d: Disk, sealSeq: nat, f: WriteFaults): Disk {
    if d.active.None? || f.stat || f.rotate then d
    else d.(sealed := d.sealed[sealSeq + 1 := d.active.value], active := None)
  }

  predicate Rotates(d: Disk, f: WriteFaults) {
    d.active.None? || f.stat || !f.rotate
  }

  predicate Publishes(f: WriteFaults) {
    !f.open && !f.encode && !f.sync && !f.rename
  }

  predicate Clears(d: Disk, base: string, f: WriteFaults) {
    f.listing || Yields(d, Names.TakesCheckpoint(base), f.remove)
  }

  /** The checkpoint of `run` is published, the segments are removed and the append file is opened. */
  predicate Cleans(d: Disk, run: Store, base: string, f: WriteFaults) {
    Publishes(f) && Clears(d.(main := Whole(run), tmp := Missing), base, f) && !f.reopen
  }

  datatype Closing = Returns(r: Result) | Panics

  class JsonSerializer {
    const dir: Directory
    // the base name of the checkpoint file
    const base: string
    var run: Store
    var appendFile: bool
    var sealSeq: nat
    var stopped: bool

    /** An object under construction: the run is read, the append file not yet open. */
    constructor (dir: Directory, base: string, run: Store)
      ensures this.dir == dir && this.base == base && this.run == run
      ensures !appendFile && sealSeq == 0 && !stopped
    {
      this.dir, this.base, this.run := dir, base, run;
      appendFile, sealSeq, stopped := false, 0, false;
    }

    /** This object as the step system sees it, inside a call. */
    ghost function In(booting: bool, phase: Phase): Sys reads this, dir {
      Sys(dir.disk, Up(booting, run, appendFile, sealSeq, phase), dir.history)
    }

    /** Between calls. */
    ghost function Now(): Sys reads this, dir {
      In(false, Idle)
    }

    /** After an error return. */
    ghost function Gone(booting: bool): Sys reads this, dir {
      if booting then dir.Down() else Now()
    }

    /** Further on inside a call, or after its error return. */
    ghost function Then(r: Result, booting: bool, phase: Phase): Sys reads this, dir {
      if r.Done? then In(booting, phase) else Gone(booting)
    }

    ghost predicate Valid() reads this, dir {
      appendFile ==> dir.disk.active.Some?
    }

    /** Run.UpdateJob on the run that this object snapshots. */
    method UpdateJob(job: Job)
      requires Valid()
      modifies this`run, dir`history
      ensures Valid()
      ensures run == old(run)[job.id := job] && dir.history == old(dir.history) + [Updated(job)]
      ensures Leads(old(Now()), [Update(job)], Now())
    {
      LeadsOn(Now(), [], Now(), Update(job));
      assert [] + [Update(job)] == [Update(job)];
      run := run[job.id := job];
      dir.history := dir.history + [Updated(job)];
    }

    /** Appends one line and syncs it: acknowledged exactly when the file is open and neither call fails. */
    method JobUpdate(job: Job, faults: AppendFaults) returns (r: Result, ghost acts: seq<Action>)
      requires Valid()
      modifies dir
      ensures Valid()
      ensures r.Done? <==> appendFile && !faults.encode && !faults.sync
      ensures dir.disk == if !appendFile || faults.encode then old(dir.disk)
                          else old(dir.disk).(active := Some(old(dir.disk.active.value) + [job]))
      ensures dir.history == if r.Done? then old(dir.history) + [Acknowledged(job)] else old(dir.history)
      ensures Leads(old(Now()), acts, Now())
      ensures acts == if !appendFile then [] else if faults.encode then [Append(job, LostError)]
                      else if faults.sync then [Append(job, KeptError)] else [Append(job, Acked)]
      ensures old(Inv(Now())) && job.id in run && run[job.id] == job ==> Inv(Now())
    {
      ghost var s := Now();
      acts := [];
      if !appendFile {
        return Fails, [];
      }
      ghost var ar := if faults.encode then LostError else if faults.sync then KeptError else Acked;
      r := Fails;
      if !faults.encode {
        dir.disk := dir.disk.(active := Some(dir.disk.active.value + [job]));
        if !faults.sync {
          r := Done;
          dir.history := dir.history + [Acknowledged(job)];
        }
      }
      LeadsOn(s, [], s, Append(job, ar));
      acts := [Append(job, ar)];
      assert [] + acts == acts;
      if Inv(s) && job.id in run && run[job.id] == job {
        AppendKeeps(s, job, ar);
      }
    }

    /** Seals the active log under the next number. */
    method RotateAppend(f: WriteFaults) returns (r: Result, ghost acts: seq<Action>)
      requires !appendFile
      modifies dir`disk, this`sealSeq
      ensures Trail(old(In(false, Rotating)), acts, Then(r, false, Snapshotting), true)
      ensures r.Done? <==> Rotates(old(dir.disk), f)
      ensures dir.disk == Rotated(old(dir.disk), old(sealSeq), f)
      ensures old(dir.disk.active).Some? && !f.stat && !f.rotate ==>
                && sealSeq == old(sealSeq) + 1 && dir.disk.active == None
                && dir.disk.sealed == old(dir.disk.sealed)[old(sealSeq) + 1 := old(dir.disk.active.value)]
      ensures old(dir.disk.active).None? || f.stat || f.rotate ==> dir.disk == old(dir.disk) && sealSeq == old(sealSeq)
    {
      ghost var s := In(false, Rotating);
      TrailStart(s);
      var found := dir.disk.active.Some? && !f.stat;
      r := Done;
      if found {
        r := Attempt(f.rotate);
        if r.Done? {
          var next := sealSeq + 1;
          dir.disk := dir.disk.(sealed := dir.disk.sealed[next := dir.disk.active.value], active := None);
          sealSeq := next;
        }
      }
      TrailOn(s, [], s, true, Rotate(!f.stat, r), Then(r, false, Snapshotting));
      acts := [] + [Rotate(!f.stat, r)];
    }

    /** Rotate, snapshot, publish, delete, reopen; on any error the append file stays closed. */
    method CheckpointSync(f: WriteFaults) returns (r: Result, ghost acts: seq<Action>)
      requires Valid()
      modifies dir, this`appendFile, this`sealSeq
      ensures Valid()
      ensures Trail(old(Now()), acts, Now(), Spares(base, f.listing))
      ensures r.Done? <==> Rotates(old(dir.disk), f) && Cleans(Rotated(old(dir.disk), old(sealSeq), f), run, base, f)
      ensures NoWriteFault(f) ==> r.Done?
      ensures f.open || f.encode || f.sync || f.rename || f.reopen ==> r.Fails?
      ensures old(dir.disk.active).Some? && !f.stat && f.rotate ==> r.Fails?
      ensures r.Done? <==> appendFile
      ensures dir.history == if r.Done? then old(dir.history) + [Flushed(run, run)] else old(dir.history)
      ensures r.Done? ==> sealSeq == 0
      ensures r.Done? ==>
                dir.disk == Checkpointed(run, Rotated(old(dir.disk), old(sealSeq), f), base, f.listing)
      ensures r.Done? && !f.listing && !Names.TakesCheckpoint(base) ==>
                dir.disk == Disk(Whole(run), Missing, old(dir.disk.backup), map[], Some([]))
      ensures r.Done? && !f.listing && Names.TakesCheckpoint(base) ==>
                dir.disk == Disk(Missing, Missing, Missing, map[], Some([]))
      ensures !Rotates(old(dir.disk), f) || !Publishes(f) ==> dir.disk.main == old(dir.disk.main)
      ensures Rotates(old(dir.disk), f) && Publishes(f) && !Names.TakesCheckpoint(base) ==>
                dir.disk.main == Whole(run) && dir.disk.tmp == Missing
    {
      ghost var s := Now();
      ghost var more;
      appendFile := false;
      ghost var m := In(false, Rotating);
      TrailStart(s);
      TrailOn(s, [], s, true, StartCheckpoint, m);
      acts := [] + [StartCheckpoint];
      r, more := RotateAppend(f);
      TrailFurther(s, acts, m, more, Then(r, false, Snapshotting), true);
      acts := acts + more;
      if r.Fails? {
        return;
      }
      ghost var snapping := In(false, Snapshotting);
      r, more := WriteClean(false, f);
      TrailFurther(s, acts, snapping, more, Now(), Spares(base, f.listing));
      acts := acts + more;
    }

    /** The last part of a checkpoint and of a construction: a clean checkpoint, and the append file opened anew. */
    method WriteClean(ghost booting: bool, f: WriteFaults) returns (r: Result, ghost acts: seq<Action>)
      requires !appendFile
      modifies dir, this`appendFile, this`sealSeq
      ensures Trail(old(In(booting, Snapshotting)), acts, if r.Done? then Now() else Gone(booting),
                    Spares(base, f.listing))
      ensures r.Done? <==> Cleans(old(dir.disk), run, base, f)
      ensures r.Done? <==> appendFile
      ensures r.Done? ==> sealSeq == 0 && dir.disk == Checkpointed(run, old(dir.disk), base, f.listing)
      ensures !Publishes(f) ==> dir.disk.main == old(dir.disk.main)
      ensures Publishes(f) && !Names.TakesCheckpoint(base) ==> dir.disk.main == Whole(run) && dir.disk.tmp == Missing
      ensures dir.history == old(dir.history) +
                (if r.Fails? then [] else if booting then [Recovered(run)] else [Flushed(run, run)])
    {
      ghost var s := In(booting, Snapshotting);
      ghost var more;
      r, acts := MaterializeCleanIncremental(booting, f);
      if r.Fails? {
        return;
      }
      ghost var reopening := In(booting, Reopening(run));
      r, more := OpenAppend(booting, run, f);
      TrailFurther(s, acts, reopening, more, if r.Done? then Now() else Gone(booting), Spares(base, f.listing));
      acts := acts + more;
    }

    /**
     * A final checkpoint, then the append file is closed whatever came of it. A second call panics: it
     * closes a channel that is closed already.
     */
    method Close(f: WriteFaults) returns (c: Closing, ghost acts: seq<Action>)
      requires Valid()
      modifies dir, this`appendFile, this`sealSeq, this`stopped
      ensures c.Panics? <==> old(stopped)
      ensures c.Panics? ==>
                && dir.disk == old(dir.disk) && dir.history == old(dir.history)
                && appendFile == old(appendFile) && sealSeq == old(sealSeq)
      ensures stopped
      ensures Trail(old(Now()), acts, Now(), Spares(base, f.listing))
      ensures c.Returns? ==> !appendFile
      ensures c == Returns(Done) <==>
                && !old(stopped) && !f.close
                && Rotates(old(dir.disk), f) && Cleans(Rotated(old(dir.disk), old(sealSeq), f), run, base, f)
      ensures !old(stopped) && NoWriteFault(f) ==> c == Returns(Done)
      ensures c == Returns(Done) ==>
                && dir.history == old(dir.history) + [Flushed(run, run)]
                && dir.disk == Checkpointed(run, Rotated(old(dir.disk), old(sealSeq), f), base, f.listing)
    {
      ghost var s := Now();
      if stopped {
        TrailStart(s);
        return Panics, [];
      }
      stopped := true;
      var r;
      r, acts := CheckpointSync(f);
      if r.Done? {
        r := Attempt(f.close);
        ghost var flushed := Now();
        appendFile := false;
        TrailOn(s, acts, flushed, Spares(base, f.listing), CloseFile, Now());
        acts := acts + [CloseFile];
      }
      c := Returns(r);
    }

    /** Reloads the run from disk; a reload that fails changes nothing. */
    method Deserialize(faults: ReadFaults) returns (r: Result, ghost sight: Sight)
      requires Valid() && Countable(dir.disk)
      modifies this`run
      ensures Valid() && SightOf(sight, dir.disk, Names.Stem(base), faults)
      ensures r.Done? <==> NoReadError(dir.disk, Names.Stem(base), faults) && !dir.disk.main.Partial?
      ensures run == if r.Done? then Seen(dir.disk, sight) else old(run)
      ensures r.Done? ==> Leads(old(Now()), [Reload(sight)], Now())
      ensures SeesAll(dir.disk, sight) ==> Orderly(old(Now()), if r.Done? then [Reload(sight)] else [])
      ensures old(Inv(Now())) && SeesAll(dir.disk, sight) ==> Inv(Now())
    {
      ghost var s := Now();
      assert Orderly(s, []);
      var loaded;
      r, loaded, sight := LoadCheckpointAndReplay(dir.disk, Names.Stem(base), faults);
      if r.Done? {
        ReloadOn(s, sight);
        if Inv(s) && SeesAll(dir.disk, sight) {
          ReloadedInv(s, sight);
        }
        run := loaded;
      }
    }

    /** Writes a checkpoint of the run in memory and removes all segments. */
    method MaterializeCleanIncremental(ghost booting: bool, f: WriteFaults) returns (r: Result, ghost acts: seq<Action>)
      requires !appendFile
      modifies dir`disk, this`sealSeq
      ensures Trail(old(In(booting, Snapshotting)), acts, Then(r, booting, Reopening(run)), Spares(base, f.listing))
      ensures r.Done? <==> Publishes(f) && Clears(old(dir.disk).(main := Whole(run), tmp := Missing), base, f)
      ensures r.Done? ==>
                && sealSeq == 0
                && dir.disk == Cleared(old(dir.disk).(main := Whole(run), tmp := Missing), base, f.listing)
      ensures !Publishes(f) ==> dir.disk.main == old(dir.disk.main)
      ensures Publishes(f) && !Names.TakesCheckpoint(base) ==> dir.disk.main == Whole(run) && dir.disk.tmp == Missing
    {
      ghost var s := In(booting, Snapshotting);
      ghost var more;
      r, acts := WriteSnapshot(booting, f);
      if r.Fails? {
        return;
      }
      ghost var published := In(booting, Deleting(run));
      r, more := RemoveAllAppendArtifacts(booting, run, f);
      TrailFurther(s, acts, published, more, Then(r, booting, Reopening(run)), Spares(base, f.listing));
      acts := acts + more;
    }

    method WriteSnapshot(ghost booting: bool, f: WriteFaults) returns (r: Result, ghost acts: seq<Action>)
      requires !appendFile
      modifies dir`disk
      ensures Trail(old(In(booting, Snapshotting)), acts, Then(r, booting, Deleting(run)), true)
      ensures r.Done? <==> Publishes(f)
      ensures SameButCheckpoint(dir.disk, old(dir.disk))
      ensures r.Done? ==> dir.disk.main == Whole(run) && dir.disk.tmp == Missing
      ensures r.Fails? ==> dir.disk.main == old(dir.disk.main)
    {
      ghost var s := In(booting, Snapshotting);
      ghost var more;
      var snap := SnapshotRun();
      ghost var snapped := In(booting, Opening(snap));
      TrailStart(s);
      TrailOn(s, [], s, true, Snapshot, snapped);
      r, more := WriteCheckpointAtomic(snap, booting, f);
      TrailFurther(s, [] + [Snapshot], snapped, more, Then(r, booting, Deleting(snap)), true);
      acts := [] + [Snapshot] + more;
    }

    /** The copy holds what the live run holds. */
    method SnapshotRun() returns (snap: Store)
      ensures snap == run
    {
      snap := map[];
      var todo := run.Keys;
      while todo != {}
        invariant todo <= run.Keys
        invariant snap.Keys == run.Keys - todo
        invariant forall id :: id in snap ==> snap[id] == run[id]
        decreases |todo|
      {
        var id :| id in todo;
        snap := snap[id := run[id]];
        todo := todo - {id};
      }
    }

    /** Main is replaced as a whole or left alone; what a failure leaves as tmp depends on how far it came. */
    method WriteCheckpointAtomic(content: Store, ghost booting: bool, f: WriteFaults)
      returns (r: Result, ghost acts: seq<Action>)
      requires !appendFile
      modifies dir`disk
      ensures Trail(old(In(booting, Opening(content))), acts, Then(r, booting, Deleting(content)), true)
      ensures r.Done? <==> !f.open && !f.encode && !f.sync && !f.rename
      ensures r.Done? ==> dir.disk == old(dir.disk).(main := Whole(content), tmp := Missing)
      ensures r.Fails? ==>
                dir.disk == old(dir.disk).(tmp := if f.open then old(dir.disk.tmp) else if !f.encode then
                      Whole(content) else if f.drop then Partial else Missing)
    {
      ghost var s := In(booting, Opening(content));
      ghost var more;
      r, acts := WriteTmp(content, booting, f);
      if r.Fails? {
        return;
      }
      ghost var m := In(booting, Syncing(content));
      r, more := PublishTmp(content, booting, f);
      TrailFurther(s, acts, m, more, Then(r, booting, Deleting(content)), true);
      acts := acts + more;
    }

    /** OpenFile and Encode, up to the sync. */
    method WriteTmp(content: Store, ghost booting: bool, f: WriteFaults) returns (r: Result, ghost acts: seq<Action>)
      requires !appendFile
      modifies dir`disk
      ensures Trail(old(In(booting, Opening(content))), acts, Then(r, booting, Syncing(content)), true)
      ensures r.Done? <==> !f.open && !f.encode
      ensures f.open ==> dir.disk == old(dir.disk)
      ensures !f.open ==>
                dir.disk == old(dir.disk).(tmp := if !f.encode then Whole(content) else if f.drop then
                      Partial else Missing)
    {
      ghost var s := In(booting, Opening(content));
      TrailStart(s);
      r := Attempt(f.open);
      if r.Fails? {
        TrailOn(s, [], s, true, OpenTmp(r), Gone(booting));
        acts := [] + [OpenTmp(r)];
        return;
      }
      dir.disk := dir.disk.(tmp := Partial);
      ghost var encoding := In(booting, Encoding(content));
      TrailOn(s, [], s, true, OpenTmp(r), encoding);
      ghost var more;
      r, more := EncodeTmp(content, booting, f);
      TrailFurther(s, [] + [OpenTmp(Done)], encoding, more, Then(r, booting, Syncing(content)), true);
      acts := [] + [OpenTmp(Done)] + more;
    }

    /** What could not be encoded is removed again, an error of that being ignored. */
    method EncodeTmp(content: Store, ghost booting: bool, f: WriteFaults) returns (r: Result, ghost acts: seq<Action>)
      requires !appendFile
      modifies dir`disk
      ensures Trail(old(In(booting, Encoding(content))), acts, Then(r, booting, Syncing(content)), true)
      ensures r.Done? <==> !f.encode
      ensures dir.disk == old(dir.disk).(tmp := if !f.encode then Whole(content) else if f.drop then
                    old(dir.disk.tmp) else Missing)
    {
      ghost var s := In(booting, Encoding(content));
      TrailStart(s);
      r := Attempt(f.encode);
      if r.Fails? {
        ghost var broken := In(booting, EncodeFailed);
        TrailOn(s, [], s, true, Encode(r), broken);
        if !f.drop {
          dir.disk := dir.disk.(tmp := Missing);
        }
        TrailOn(s, [] + [Encode(r)], broken, true, DropTmp(Attempt(f.drop)), Gone(booting));
        acts := [] + [Encode(r)] + [DropTmp(Attempt(f.drop))];
        return;
      }
      dir.disk := dir.disk.(tmp := Whole(content));
      TrailOn(s, [], s, true, Encode(r), In(booting, Syncing(content)));
      acts := [] + [Encode(r)];
    }

    /** Sync, Close and Rename. */
    method PublishTmp(content: Store, ghost booting: bool, f: WriteFaults) returns (r: Result, ghost acts: seq<Action>)
      requires !appendFile && dir.disk.tmp == Whole(content)
      modifies dir`disk
      ensures Trail(old(In(booting, Syncing(content))), acts, Then(r, booting, Deleting(content)), true)
      ensures r.Done? <==> !f.sync && !f.rename
      ensures dir.disk == if r.Done? then old(dir.disk).(main := Whole(content), tmp := Missing) else old(dir.disk)
    {
      ghost var s := In(booting, Syncing(content));
      TrailStart(s);
      r := Attempt(f.sync);
      ghost var written := In(booting, Renaming(content));
      TrailOn(s, [], s, true, SyncClose(r), if r.Done? then written else Gone(booting));
      acts := [] + [SyncClose(r)];
      if r.Fails? {
        return;
      }
      r := Attempt(f.rename);
      if r.Done? {
        dir.disk := dir.disk.(main := Whole(content), tmp := Missing);
      }
      TrailOn(s, acts, written, true, Publish(r), Then(r, booting, Deleting(content)));
      acts := acts + [Publish(r)];
    }

    /** Removes what the pattern matches, in whatever order it is listed. */
    method RemoveAllAppendArtifacts(ghost booting: bool, ghost snap: Store, f: WriteFaults)
      returns (r: Result, ghost acts: seq<Action>)
      requires !appendFile
      modifies dir`disk, this`sealSeq
      ensures Trail(old(In(booting, Deleting(snap))), acts, Then(r, booting, Reopening(snap)), Spares(base, f.listing))
      ensures r.Done? <==> f.listing || Yields(old(dir.disk), Names.TakesCheckpoint(base), f.remove)
      ensures f.listing ==> dir.disk == old(dir.disk)
      ensures r.Done? ==> sealSeq == 0 && dir.disk == Cleared(old(dir.disk), base, f.listing)
      ensures Clearing(dir.disk, old(dir.disk), Names.TakesCheckpoint(base))
    {
      ghost var s := In(booting, Deleting(snap));
      if f.listing {
        TrailStart(s);
        acts, r := [], Done;
      } else {
        r, acts := RemoveListed(booting, snap, Names.TakesCheckpoint(base), f.remove);
        if r.Fails? {
          return;
        }
      }
      ghost var emptied := In(booting, Deleting(snap));
      sealSeq := 0;
      TrailOn(s, acts, emptied, Spares(base, f.listing), Removed(!f.listing), In(booting, Reopening(snap)));
      acts := acts + [Removed(!f.listing)];
    }

    method RemoveListed(ghost booting: bool, ghost snap: Store, takes: bool, remove: set<Artifact>)
      returns (r: Result, ghost acts: seq<Action>)
      requires !appendFile
      modifies dir`disk
      ensures Trail(old(In(booting, Deleting(snap))), acts, Then(r, booting, Deleting(snap)), !takes)
      ensures Clearing(dir.disk, old(dir.disk), takes)
      ensures r.Done? <==> Yields(old(dir.disk), takes, remove)
      ensures r.Done? <==> forall file :: file in remove ==> !(OnDisk(old(dir.disk), file) && Matches(file, takes))
      ensures r.Done? ==> !AnyMatch(dir.disk, takes)
    {
      ghost var s, d := In(booting, Deleting(snap)), dir.disk;
      TrailStart(s);
      acts, r := [], Done;
      while AnyMatch(dir.disk, takes)
        invariant Trail(s, acts, In(booting, Deleting(snap)), !takes) && r.Done?
        invariant Clearing(dir.disk, d, takes) && Yielded(dir.disk, d, remove)
        decreases FileCount(dir.disk)
      {
        ghost var before := In(booting, Deleting(snap));
        var file := NextListed(dir.disk, takes);
        if file in remove {
          OneRefuses(dir.disk, d, takes, remove, file);
        } else {
          YieldedOne(dir.disk, d, takes, remove, file);
        }
        r := RemoveFile(booting, snap, file, file in remove);
        TrailOn(s, acts, before, !takes, Remove(file, r), Then(r, booting, Deleting(snap)));
        acts := acts + [Remove(file, r)];
        if r.Fails? {
          return;
        }
      }
      AllYielded(dir.disk, d, takes, remove);
    }

    method RemoveFile(ghost booting: bool, ghost snap: Store, file: Artifact, fails: bool) returns (r: Result)
      requires !appendFile && OnDisk(dir.disk, file)
      modifies dir`disk
      ensures r.Fails? <==> fails
      ensures dir.disk == if fails then old(dir.disk) else Without(old(dir.disk), file)
      ensures Step(old(In(booting, Deleting(snap))), Remove(file, r)) == Some(Then(r, booting, Deleting(snap)))
    {
      r := Attempt(fails);
      if r.Done? {
        dir.disk := Without(dir.disk, file);
      }
    }

    method OpenAppend(ghost booting: bool, ghost snap: Store, f: WriteFaults)
      returns (r: Result, ghost acts: seq<Action>)
      requires !appendFile
      modifies dir, this`appendFile
      ensures Trail(old(In(booting, Reopening(snap))), acts, if r.Done? then Now() else Gone(booting), true)
      ensures r.Done? <==> !f.reopen
      ensures r.Done? <==> appendFile
      ensures dir.disk ==
              if r.Done? then old(dir.disk).(active := Some(ActiveLines(old(dir.disk.active)))) else old(dir.disk)
      ensures dir.history == old(dir.history) +
                (if r.Fails? then [] else if booting then [Recovered(run)] else [Flushed(snap, run)])
    {
      ghost var s := In(booting, Reopening(snap));
      TrailStart(s);
      r := Attempt(f.reopen);
      if r.Done? {
        dir.disk := dir.disk.(active := Some(ActiveLines(dir.disk.active)));
        appendFile := true;
        dir.history := dir.history + [if booting then Recovered(run) else Flushed(snap, run)];
      }
      TrailOn(s, [], s, true, Reopen(r), if r.Done? then Now() else Gone(booting));
      acts := [] + [Reopen(r)];
    }
  }

  // ---- NewJsonSerializer ----

  /** The checkpoint that recoverCheckpointAtomic settles on. */
  function Chosen(d: Disk): File {
    if d.main != Missing then d.main else if d.tmp != Missing then d.tmp else d.backup
  }

  ghost function Booting(dir: Directory, phase: Phase): Sys reads dir {
    Sys(dir.disk, Up(true, map[], false, 0, phase), dir.history)
  }

  ghost function Booted(r: Result, dir: Directory): Sys reads dir {
    if r.Done? then Booting(dir, Loading) else dir.Down()
  }

  /** What recoverCheckpointAtomic leaves: main if it is there, else tmp or the backup in its place. */
  function Settled(d: Disk, f: BootFaults): Disk {
    if f.statMain then d
    else if d.main != Missing then
      d.(tmp := if f.dropTmp then d.tmp else Missing, backup := if f.dropBackup then d.backup else Missing)
    else if d.tmp != Missing && !f.statTmp then
      if f.promote then d
      else d.(main := d.tmp, tmp := Missing, backup := if f.dropBackup then d.backup else Missing)
    else if d.backup != Missing && !f.statBackup then
      if f.promote then d
      else d.(main := d.backup, backup := Missing, tmp := if f.dropTmp then d.tmp else Missing)
    else d
  }

  /** It returns no error. */
  predicate Settles(d: Disk, f: BootFaults) {
    && !f.statMain
    && (d.main == Missing && ((d.tmp != Missing && !f.statTmp) || (d.backup != Missing && !f.statBackup)) ==>
          !f.promote)
  }

  /**
   * Recovery only ever moves checkpoint files. Without a fault main stays if it is there, else tmp becomes
   * main if it is there, else the backup does; and neither tmp nor the backup is there afterwards.
   */
  lemma SettledOn(d: Disk, f: BootFaults)
    ensures var e := Settled(d, f);
            && e.sealed == d.sealed && e.active == d.active
            && (d.main != Missing ==> e.main == d.main)
            && (d.main == Missing && d.tmp == Missing && d.backup == Missing ==> e.main == Missing)
            && (NoBootFault(f) ==> && Settles(d, f) && e.tmp == Missing && e.backup == Missing
                                   && (d.main == Missing && d.tmp != Missing ==> e.main == d.tmp)
                                   && (d.main == Missing && d.tmp == Missing ==> e.main == d.backup))
  {
  }

  /** os.Remove of a spare checkpoint file, its error ignored. */
  method Discard(dir: Directory, isTmp: bool, fails: bool, ghost phase: Phase, ghost next: Phase)
    returns (ghost acts: seq<Action>)
    requires isTmp ==> (phase == CleanTmp && next == CleanBackup) || (phase == Restored && next == Loading)
    requires !isTmp ==> (phase == CleanBackup || phase == Promoted) && next == Loading
    modifies dir`disk
    ensures Trail(old(Booting(dir, phase)), acts, Booting(dir, next), true)
    ensures dir.disk == if fails then old(dir.disk)
                        else if isTmp then old(dir.disk).(tmp := Missing)
                        else old(dir.disk).(backup := Missing)
  {
    ghost var s := Booting(dir, phase);
    TrailStart(s);
    if !fails {
      dir.disk := if isTmp then dir.disk.(tmp := Missing) else dir.disk.(backup := Missing);
    }
    TrailOn(s, [], s, true, Clean(Attempt(fails)), Booting(dir, next));
    acts := [] + [Clean(Attempt(fails))];
  }

  /** With no main checkpoint: tmp takes its place, or else the backup, or nothing does. */
  method PromoteSpare(dir: Directory, f: BootFaults) returns (r: Result, ghost acts: seq<Action>)
    requires dir.disk.main == Missing && !f.statMain
    modifies dir`disk
    ensures Trail(old(Booting(dir, Promoting)), acts, Booted(r, dir), true)
    ensures r.Done? <==> Settles(old(dir.disk), f)
    ensures dir.disk == Settled(old(dir.disk), f)
  {
    ghost var s := Booting(dir, Promoting);
    TrailStart(s);
    var isTmp := dir.disk.tmp != Missing && !f.statTmp;
    var isBackup := !isTmp && dir.disk.backup != Missing && !f.statBackup;
    r := Attempt((isTmp || isBackup) && f.promote);
    if r.Done? && (isTmp || isBackup) {
      dir.disk := if isTmp then dir.disk.(main := dir.disk.tmp, tmp := Missing)
                  else dir.disk.(main := dir.disk.backup, backup := Missing);
    }
    ghost var promote := Promote(!f.statTmp, !f.statBackup, r);
    ghost var next := if isTmp then Promoted else if isBackup then Restored else Loading;
    ghost var m := if r.Done? then Booting(dir, next) else dir.Down();
    TrailOn(s, [], s, true, promote, m);
    acts := [] + [promote];
    if r.Done? && (isTmp || isBackup) {
      ghost var more := Discard(dir, !isTmp, if isTmp then f.dropBackup else f.dropTmp, next, Loading);
      TrailFurther(s, acts, m, more, Booting(dir, Loading), true);
      acts := acts + more;
    }
  }

  /** A checkpoint that is there is never touched; without one, tmp is promoted, or else the backup. */
  method RecoverCheckpointAtomic(dir: Directory, f: BootFaults) returns (r: Result, ghost acts: seq<Action>)
    modifies dir`disk
    ensures Trail(old(Booting(dir, Statting)), acts, Booted(r, dir), true)
    ensures r.Done? <==> Settles(old(dir.disk), f)
    ensures dir.disk == Settled(old(dir.disk), f)
    ensures var isTmp := old(dir.disk.tmp) != Missing && !f.statTmp;
            var isBackup := old(dir.disk.backup) != Missing && !f.statBackup;
            r.Done? <==> !f.statMain && (old(dir.disk.main) == Missing && (isTmp || isBackup) ==> !f.promote)
    ensures r.Fails? ==> dir.disk == old(dir.disk)
    ensures r.Done? && old(dir.disk.main) != Missing ==> dir.disk.main == old(dir.disk.main)
    ensures r.Done? && old(dir.disk.main) == Missing && old(dir.disk.tmp) != Missing && !f.statTmp ==>
              dir.disk.main == old(dir.disk.tmp) && dir.disk.tmp == Missing
    ensures r.Done? && old(dir.disk.main) == Missing && (old(dir.disk.tmp) == Missing || f.statTmp) &&
              old(dir.disk.backup) != Missing && !f.statBackup ==>
              dir.disk.main == old(dir.disk.backup) && dir.disk.backup == Missing
    ensures NoBootFault(f) ==>
              && r.Done? && dir.disk.tmp == Missing && dir.disk.backup == Missing
              && dir.disk.main == if old(dir.disk.main) != Missing then old(dir.disk.main)
                                  else if old(dir.disk.tmp) != Missing then old(dir.disk.tmp)
                                  else old(dir.disk.backup)
  {
    ghost var s := Booting(dir, Statting);
    ghost var more;
    TrailStart(s);
    r := Attempt(f.statMain);
    ghost var next := if dir.disk.main != Missing then CleanTmp else Promoting;
    ghost var m := if r.Done? then Booting(dir, next) else dir.Down();
    TrailOn(s, [], s, true, StatMain(r), m);
    acts := [] + [StatMain(r)];
    if r.Fails? {
      return;
    }
    if dir.disk.main != Missing {
      more := Discard(dir, true, f.dropTmp, CleanTmp, CleanBackup);
      ghost var half := Booting(dir, CleanBackup);
      TrailFurther(s, acts, m, more, half, true);
      acts := acts + more;
      more := Discard(dir, false, f.dropBackup, CleanBackup, Loading);
      TrailFurther(s, acts, half, more, Booting(dir, Loading), true);
      acts := acts + more;
    } else {
      r, more := PromoteSpare(dir, f);
      TrailFurther(s, acts, m, more, Booted(r, dir), true);
      acts := acts + more;
    }
  }

  method BootAndRecover(dir: Directory, f: BootFaults) returns (r: Result, ghost acts: seq<Action>)
    modifies dir`disk
    ensures Trail(old(dir.Down()), acts, Booted(r, dir), true)
    ensures r.Done? <==> Settles(old(dir.disk), f)
    ensures dir.disk == Settled(old(dir.disk), f)
  {
    ghost var s := dir.Down();
    ghost var more;
    ghost var booted := Booting(dir, Statting);
    TrailStart(s);
    TrailOn(s, [], s, true, Boot, booted);
    r, more := RecoverCheckpointAtomic(dir, f);
    TrailFurther(s, [] + [Boot], booted, more, Booted(r, dir), true);
    acts := [] + [Boot] + more;
  }

  /** The new object with its run, before it writes anything. */
  ghost function Read(dir: Directory, run: Store): Sys reads dir {
    Sys(dir.disk, Up(true, run, false, 0, Snapshotting), dir.history)
  }

  /** Recovery and reading return no error. */
  predicate Loads(d: Disk, stem: string, boot: BootFaults, faults: ReadFaults) {
    Settles(d, boot) && NoReadError(d, stem, faults) && !Settled(d, boot).main.Partial?
  }

  /** The part of a construction that reads: recoverCheckpointAtomic and loadCheckpointAndReplay. */
  method RecoverAndLoad(dir: Directory, stem: string, boot: BootFaults, faults: ReadFaults)
    returns (r: Result, run: Store, ghost acts: seq<Action>, ghost sight: Sight)
    requires Countable(dir.disk)
    modifies dir`disk
    ensures SightOf(sight, old(dir.disk), stem, faults)
    ensures Leads(old(dir.Down()), acts, if r.Done? then Read(dir, run) else dir.Down())
    ensures r.Done? <==> Loads(old(dir.disk), stem, boot, faults)
    ensures dir.disk == Settled(old(dir.disk), boot)
    ensures r.Done? ==> run == Seen(dir.disk, sight)
    ensures SeesAll(old(dir.disk), sight) ==> Orderly(old(dir.Down()), acts)
  {
    ghost var s, d := dir.Down(), dir.disk;
    run := map[];
    r, acts := BootAndRecover(dir, boot);
    SettledOn(d, boot);
    ghost var m := Booted(r, dir);
    HarmlessIsOrderly(s, acts, m);
    if r.Fails? {
      ghost var order := SomeListing(dir.disk.sealed, stem, faults);
      sight := Sight(!faults.stat, order);
      return;
    }
    r, run, sight := LoadCheckpointAndReplay(dir.disk, stem, faults);
    ghost var load := Load(sight, if NoReadError(dir.disk, stem, faults) then Done else Fails);
    LoadOn(s, acts, m, load.sight, load.r);
    acts := acts + [load];
  }

  ghost function Loaded(m: Sys, sight: Sight, r: Result): Sys
    requires m.proc.Up? && Picks(sight.order, m.disk.sealed)
  {
    if r.Fails? || m.disk.main.Partial? then Sys(m.disk, Down, m.history)
    else m.(proc := m.proc.(run := Seen(m.disk, sight), phase := Snapshotting))
  }

  lemma LoadStep(m: Sys, sight: Sight, r: Result)
    requires InPhase(m, Loading) && m.proc.booting && Picks(sight.order, m.disk.sealed)
    ensures Step(m, Load(sight, r)) == Some(Loaded(m, sight, r))
    ensures SeesAll(m.disk, sight) ==> Disciplined(m, Load(sight, r))
  {
  }

  lemma LoadOn(s: Sys, acts: seq<Action>, m: Sys, sight: Sight, r: Result)
    requires Orderly(s, acts) && Leads(s, acts, m) && InPhase(m, Loading) && m.proc.booting
    requires Picks(sight.order, m.disk.sealed)
    ensures Leads(s, acts + [Load(sight, r)], Loaded(m, sight, r))
    ensures SeesAll(m.disk, sight) ==> Orderly(s, acts + [Load(sight, r)])
  {
    LoadStep(m, sight, r);
    LeadsOn(s, acts, m, Load(sight, r));
    if SeesAll(m.disk, sight) {
      OrderlyOn(s, acts, m, Load(sight, r), Loaded(m, sight, r));
    }
  }

  /** Lookups and listings find every segment, and the cleanup matches nothing else. */
  ghost predicate Reliable(base: string, blind: bool, d: Disk, sight: Sight) {
    Spares(base, blind) && SeesAll(d, sight)
  }

  /** A construction from this disk returns no error. */
  predicate Constructs(d: Disk, base: string, boot: BootFaults, faults: ReadFaults, write: WriteFaults) {
    Loads(d, Names.Stem(base), boot, faults) && Cleans(Settled(d, boot), map[], base, write)
  }

  method Construct(dir: Directory, base: string, boot: BootFaults, faults: ReadFaults, write: WriteFaults)
    returns (w: JsonSerializer?, ghost acts: seq<Action>, ghost sight: Sight)
    requires Countable(dir.disk)
    modifies dir
    ensures w != null ==> fresh(w) && w.dir == dir && w.base == base && w.Valid() && !w.stopped
    ensures w != null <==> Constructs(old(dir.disk), base, boot, faults, write)
    ensures w != null ==> w.appendFile && w.sealSeq == 0
    ensures w != null ==> dir.disk == Checkpointed(w.run, Settled(old(dir.disk), boot), base, write.listing)
    ensures dir.history == if w == null then old(dir.history) else old(dir.history) + [Recovered(w.run)]
    ensures Leads(old(dir.Down()), acts, if w == null then dir.Down() else w.Now())
    ensures SightOf(sight, old(dir.disk), Names.Stem(base), faults)
    ensures w != null ==> Picks(sight.order, Settled(old(dir.disk), boot).sealed)
    ensures w != null ==> w.run == Seen(Settled(old(dir.disk), boot), sight)
    ensures Reliable(base, write.listing, old(dir.disk), sight) ==> Orderly(old(dir.Down()), acts)
  {
    ghost var s, d := dir.Down(), dir.disk;
    w := null;
    var r, run;
    r, run, acts, sight := RecoverAndLoad(dir, Names.Stem(base), boot, faults);
    SettledOn(d, boot);
    if r.Done? {
      ghost var m, more := Read(dir, run), [];
      CleansAnyRun(dir.disk, run, base, write);
      w, more := WriteBack(dir, base, run, write);
      JoinedOrderly(s, acts, m, more, if w == null then dir.Down() else w.Now(), Spares(base, write.listing));
      acts := acts + more;
    }
  }

  /** Whether the writing succeeds does not depend on the jobs. */
  lemma CleansAnyRun(d: Disk, run: Store, base: string, f: WriteFaults)
    ensures Cleans(d, run, base, f) <==> Cleans(d, map[], base, f)
  {
    var e, g := d.(main := Whole(run), tmp := Missing), d.(main := Whole(map[]), tmp := Missing);
    forall file ensures OnDisk(e, file) <==> OnDisk(g, file) {
    }
  }

  /** The part of a construction that writes. */
  method WriteBack(dir: Directory, base: string, run: Store, write: WriteFaults)
    returns (w: JsonSerializer?, ghost acts: seq<Action>)
    modifies dir
    ensures w != null ==> fresh(w) && w.dir == dir && w.base == base && w.run == run && w.Valid() && !w.stopped
    ensures w != null <==> Cleans(old(dir.disk), run, base, write)
    ensures w != null ==>
              w.appendFile && w.sealSeq == 0 && dir.disk == Checkpointed(run, old(dir.disk), base, write.listing)
    ensures dir.history == if w == null then old(dir.history) else old(dir.history) + [Recovered(run)]
    ensures Trail(old(Read(dir, run)), acts, if w == null then dir.Down() else w.Now(), Spares(base, write.listing))
  {
    var store := new JsonSerializer(dir, base, run);
    assert Read(dir, run) == store.In(true, Snapshotting);
    var r;
    r, acts := store.WriteClean(true, write);
    w := if r.Done? then store else null;
  }

  lemma JoinedOrderly(s: Sys, acts: seq<Action>, m: Sys, more: seq<Action>, u: Sys, sure: bool)
    requires Leads(s, acts, m) && Trail(m, more, u, sure)
    ensures Leads(s, acts + more, u)
    ensures Orderly(s, acts) && sure ==> Orderly(s, acts + more)
  {
    LeadsFurther(s, acts, m, more, u);
    if Orderly(s, acts) && sure {
      OrderlyFurther(s, acts, m, more, u);
    }
  }

  /**
   * Recovery: the run is what the directory says, written back as one clean checkpoint with an empty
   * log. When no call fails the object exists exactly when the checkpoint chosen is not cut short.
   */
  method NewJsonSerializer(dir: Directory, base: string, boot: BootFaults, faults: ReadFaults, write: WriteFaults)
    returns (w: JsonSerializer?, ghost acts: seq<Action>, ghost sight: Sight)
    requires Countable(dir.disk)
    modifies dir
    ensures w != null ==> fresh(w) && w.dir == dir && w.base == base && w.Valid() && !w.stopped
    ensures w != null <==> Constructs(old(dir.disk), base, boot, faults, write)
    ensures NoBootFault(boot) && NoReadFault(faults) && NoWriteFault(write) ==>
              (w != null <==> !Chosen(old(dir.disk)).Partial?)
    ensures w != null ==>
              && !boot.statMain && !faults.main
              && !write.open && !write.encode && !write.sync && !write.rename && !write.reopen
    ensures w != null ==> w.appendFile && w.sealSeq == 0
    ensures w != null ==> dir.disk == Checkpointed(w.run, Settled(old(dir.disk), boot), base, write.listing)
    ensures w != null && !write.listing && !Names.TakesCheckpoint(base) ==>
              && dir.disk.main == Whole(w.run) && dir.disk.tmp == Missing
              && dir.disk.sealed == map[] && dir.disk.active == Some([])
    ensures dir.history == if w == null then old(dir.history) else old(dir.history) + [Recovered(w.run)]
    ensures Leads(old(dir.Down()), acts, if w == null then dir.Down() else w.Now())
    ensures SightOf(sight, old(dir.disk), Names.Stem(base), faults)
    ensures w != null && NoBootFault(boot) ==>
              w.run == Seen(old(dir.disk).(main := Chosen(old(dir.disk))), sight)
    ensures w != null && (old(dir.disk.main) != Missing || Chosen(old(dir.disk)) == Missing) ==>
              w.run == Seen(old(dir.disk), sight)
    ensures Reliable(base, write.listing, old(dir.disk), sight) ==> Orderly(old(dir.Down()), acts)
    ensures old(Inv(dir.Down())) && Reliable(base, write.listing, old(dir.disk), sight) ==>
              Inv(if w == null then dir.Down() else w.Now())
    ensures old(Inv(dir.Down())) && Reliable(base, write.listing, old(dir.disk), sight) && w != null ==>
              Honours(old(dir.history), w.run)
  {
    ghost var s, d := dir.Down(), dir.disk;
    w, acts, sight := Construct(dir, base, boot, faults, write);
    SettledOn(d, boot);
    NoFaultConstructs(d, base, boot, faults, write);
    if w != null {
      SeenSettled(d, boot, sight);
    }
    if Inv(s) && Reliable(base, write.listing, d, sight) {
      OrderlyKeeps(s, acts, if w == null then dir.Down() else w.Now());
      if w != null {
        OrderlyHonours(s, acts, w.Now(), w.run);
      }
    }
  }

  predicate NoReadFault(f: ReadFaults) {
    !f.main && !f.listing && f.segments == {} && !f.stat && !f.active
  }

  lemma NoFaultConstructs(d: Disk, base: string, boot: BootFaults, faults: ReadFaults, write: WriteFaults)
    ensures NoBootFault(boot) && NoReadFault(faults) && NoWriteFault(write) ==>
              (Constructs(d, base, boot, faults, write) <==> !Chosen(d).Partial?)
  {
    SettledOn(d, boot);
  }

  /** Reading what a recovery has settled on is reading what was there. */
  lemma SeenSettled(d: Disk, boot: BootFaults, sight: Sight)
    requires Picks(sight.order, d.sealed)
    ensures Settled(d, boot).sealed == d.sealed
    ensures d.main != Missing || Chosen(d) == Missing ==> Seen(Settled(d, boot), sight) == Seen(d, sight)
    ensures NoBootFault(boot) ==> Seen(Settled(d, boot), sight) == Seen(d.(main := Chosen(d)), sight)
  {
    SettledOn(d, boot);
  }

  /** A construction may be tried in every reachable state. */
  lemma ReachableIsCountable(s: Sys)
    requires Reachable(s)
    ensures Countable(s.disk)
  {
    var acts :| Orderly(START, acts) && Run(START, acts) == Some(s);
    SegmentsAreNumberedOne(acts);
  }

  /** Nothing in the log, whatever the lookups see of it. */
  lemma SeenOfEmpty(d: Disk, sight: Sight)
    requires d.sealed == map[] && ActiveLines(d.active) == [] && Picks(sight.order, d.sealed)
    ensures Seen(d, sight) == Base(d.main)
  {
    PicksFit(sight.order, d.sealed);
    assert sight.order == [] && LinesOf([], d.sealed) + [] == [];
  }

  /**
   * A stop by Close that reports no error and a restart return exactly the jobs that were in memory, unless
   * the cleanup takes the checkpoint: then they return none. Both succeed when no call fails.
   */
  method CloseThenReopen(w: JsonSerializer, closing: WriteFaults, boot: BootFaults, faults: ReadFaults,
                         write: WriteFaults)
    returns (closed: Closing, again: JsonSerializer?)
    requires w.Valid() && Countable(w.dir.disk) && w.sealSeq + 1 < UINT64_LIMIT
    modifies w, w.dir
    ensures closed == Returns(Done) && again != null && !closing.listing ==>
              again.run == if Names.TakesCheckpoint(w.base) then map[] else old(w.run)
    ensures !old(w.stopped) && NoWriteFault(closing) ==> closed == Returns(Done)
    ensures closed == Returns(Done) && NoBootFault(boot) && NoReadFault(faults) && NoWriteFault(write) ==> again != null
  {
    ghost var acts, sight;
    closed, acts := w.Close(closing);
    again := null;
    if closed == Returns(Done) {
      ghost var d := w.dir.disk;
      again, acts, sight := NewJsonSerializer(w.dir, w.base, boot, faults, write);
      if again != null && !closing.listing {
        SeenOfEmpty(d, sight);
      }
    }
  }
}
