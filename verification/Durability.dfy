/** No crash, error or interleaving loses what the serializer has acknowledged. */
module Durability {
  import opened Jobs
  import opened Persisted
  import opened Serializing

  // ---- The debt to callers ----

  lemma HonoursUpdate(h: seq<Event>, m: Store, j: Job)
    requires Honours(h, m)
    ensures Honours(h + [Updated(j)], m) && Honours(h + [Updated(j)], Apply(j, m))
  {
    assert (h + [Updated(j)])[..|h|] == h;
  }

  lemma HonoursAcknowledge(h: seq<Event>, m: Store, j: Job)
    requires Honours(h, m) && j.id in m && m[j.id] == j
    ensures Honours(h + [Acknowledged(j)], m)
  {
    assert (h + [Acknowledged(j)])[..|h|] == h;
  }

  lemma HonoursApplied(h: seq<Event>, m: Store, j: Job)
    requires Honours(h, m) && j in Allowed(h, j.id)
    ensures Honours(h, Apply(j, m))
  {
  }

  lemma HonoursRecovered(h: seq<Event>, run: Store)
    ensures Honours(h + [Recovered(run)], run)
  {
  }

  /** A flush settles each job on what was published or what memory holds by then. */
  lemma HonoursFlushed(h: seq<Event>, snap: Store, live: Store)
    requires Honours(h, snap) && Honours(h, live) && snap.Keys <= live.Keys
    ensures Honours(h + [Flushed(snap, live)], snap) && Honours(h + [Flushed(snap, live)], live)
  {
    assert (h + [Flushed(snap, live)])[..|h|] == h;
  }

  /** A log that is honoured on one run is honoured on every honoured run. */
  lemma HonoursReplay(h: seq<Event>, lines: seq<Job>, m: Store, n: Store)
    requires Honours(h, Replay(lines, m)) && Honours(h, n)
    ensures Honours(h, Replay(lines, n))
  {
    forall id | id in Replay(lines, n) ensures Replay(lines, n)[id] in Allowed(h, id) {
      LastWriterWins(lines, m, id);
      LastWriterWins(lines, n, id);
    }
    forall id | Owed(h, id) ensures id in Replay(lines, n) {
      LastWriterWins(lines, n, id);
    }
  }

  lemma NothingOwed(m: Store)
    requires m == map[]
    ensures Honours([], m)
  {
  }

  // ---- The invariant ----

  /** At most one segment file, sealed or active, never both. */
  predicate OneSegment(d: Disk) {
    d.sealed == map[] || (d.active == None && |d.sealed| == 1)
  }

  predicate NoSegment(d: Disk) {
    d.sealed == map[] && d.active == None
  }

  ghost predicate DiskOk(d: Disk, h: seq<Event>) {
    && OneSegment(d) && d.backup == Missing
    && (d.main.Whole? ==> Honours(h, Recoverable(d)))
    && (!d.main.Whole? ==> h == [] && NoSegment(d) && (d.tmp.Whole? ==> d.tmp.content == map[]))
  }

  predicate Before(phase: Phase) {
    phase.Statting? || phase.CleanTmp? || phase.CleanBackup? || phase.Promoting? || phase.Promoted? ||
          phase.Restored? || phase.Loading?
  }

  predicate Writing(phase: Phase) {
    phase.Opening? || phase.Encoding? || phase.Syncing? || phase.Renaming?
  }

  predicate Cleaning(phase: Phase) {
    phase.Deleting? || phase.Reopening?
  }

  ghost predicate PhaseOk(d: Disk, h: seq<Event>, booting: bool, run: Store, phase: Phase) {
    && (phase.Idle? || phase.Rotating? ==> !booting)
    && (Before(phase) ==> booting)
    && (phase.Promoting? ==> d.main.Missing?)
    && (phase.Encoding? ==> d.tmp == Partial)
    && (phase.Syncing? || phase.Renaming? ==> d.tmp == Whole(phase.snap))
    && (Writing(phase) || Cleaning(phase) ==>
          Honours(h, phase.snap) && phase.snap.Keys <= run.Keys && (booting ==> phase.snap == run))
    && (Cleaning(phase) ==> d.main == Whole(phase.snap))
    && (phase.Reopening? ==> NoSegment(d))
  }

  ghost predicate ProcOk(d: Disk, h: seq<Event>, p: Proc) {
    p.Up? ==>
      && (!p.booting ==> d.main.Whole?)
      && (p.open ==> p.phase.Idle? && d.active.Some?)
      && (!Before(p.phase) ==> Honours(h, p.run) && (!d.main.Whole? ==> p.run == map[]))
      && PhaseOk(d, h, p.booting, p.run, p.phase)
  }

  ghost predicate Inv(s: Sys) {
    DiskOk(s.disk, s.history) && ProcOk(s.disk, s.history, s.proc)
  }

  // ---- Log and disk ----

  lemma LogOfActive(d: Disk)
    requires d.sealed == map[]
    ensures Log(d) == ActiveLines(d.active)
  {
    assert SealedLines(map[]) == [];
  }

  lemma AppendedRecoverable(d: Disk, j: Job)
    requires d.active.Some? && d.sealed == map[]
    ensures Recoverable(d.(active := Some(d.active.value + [j]))) == Apply(j, Recoverable(d))
  {
    var e := d.(active := Some(d.active.value + [j]));
    LogOfActive(d);
    LogOfActive(e);
    assert Log(e)[..|Log(e)| - 1] == Log(d);
  }

  lemma RotatedLog(d: Disk, n: nat)
    requires d.sealed == map[] && d.active.Some?
    ensures var e := d.(sealed := d.sealed[n := d.active.value], active := None);
            Log(e) == Log(d) && OneSegment(e)
  {
    OneSealed(n, d.active.value);
    LogOfActive(d);
  }

  lemma SeenIsRecoverable(d: Disk, sight: Sight)
    requires SeesAll(d, sight)
    ensures Picks(sight.order, d.sealed) && Seen(d, sight) == Recoverable(d)
  {
    ListedLines(sight.order, d.sealed);
  }

  lemma EmptyLog(d: Disk)
    requires NoSegment(d)
    ensures Log(d) == [] && Recoverable(d) == Base(d.main)
  {
    LogOfActive(d);
  }

  /** With one segment, removing it leaves none. */
  lemma RemovedLast(d: Disk, file: Artifact)
    requires OneSegment(d) && OnDisk(d, file) && (file.Active? || file.Sealed?)
    ensures NoSegment(Without(d, file))
  {
    if file.Sealed? {
      assert |d.sealed - {file.n}| == |d.sealed| - 1;
      assert d.sealed - {file.n} == map[];
    }
  }

  // ---- Every action keeps it ----

  lemma StatMainKeeps(s: Sys, r: Result)
    requires Inv(s) && StepStatMain(s, r).Some?
    ensures Inv(StepStatMain(s, r).value)
  {
  }

  lemma PromoteKeeps(s: Sys, seesTmp: bool, seesBackup: bool, r: Result)
    requires Inv(s) && StepPromote(s, seesTmp, seesBackup, r).Some?
    ensures Inv(StepPromote(s, seesTmp, seesBackup, r).value)
  {
    var t := StepPromote(s, seesTmp, seesBackup, r).value;
    EmptyLog(t.disk);
    NothingOwed(map[]);
  }

  lemma RecoverableIgnoresTmp(d: Disk, tmp: File, backup: File)
    ensures Recoverable(d.(tmp := tmp)) == Recoverable(d) && Recoverable(d.(backup := backup)) == Recoverable(d)
  {
  }

  lemma CleanKeeps(s: Sys, r: Result)
    requires Inv(s) && StepClean(s, r).Some?
    ensures Inv(StepClean(s, r).value)
  {
    RecoverableIgnoresTmp(s.disk, Missing, Missing);
  }

  lemma LoadKeeps(s: Sys, sight: Sight, r: Result)
    requires Inv(s) && StepLoad(s, sight, r).Some? && SeesAll(s.disk, sight)
    ensures Inv(StepLoad(s, sight, r).value)
  {
    SeenIsRecoverable(s.disk, sight);
    if !s.disk.main.Whole? {
      EmptyLog(s.disk);
      NothingOwed(map[]);
    }
  }

  lemma ReloadKeeps(s: Sys, sight: Sight)
    requires Inv(s) && StepReload(s, sight).Some? && SeesAll(s.disk, sight)
    ensures Inv(StepReload(s, sight).value)
  {
    SeenIsRecoverable(s.disk, sight);
  }

  lemma UpdateKeeps(s: Sys, j: Job)
    requires Inv(s) && StepUpdate(s, j).Some?
    ensures Inv(StepUpdate(s, j).value)
  {
    HonoursUpdate(s.history, s.proc.run, j);
    HonoursUpdate(s.history, Recoverable(s.disk), j);
    if Writing(s.proc.phase) || Cleaning(s.proc.phase) {
      HonoursUpdate(s.history, s.proc.phase.snap, j);
    }
  }

  lemma AppendKeeps(s: Sys, j: Job, ar: AppendResult)
    requires Inv(s) && StepAppend(s, j, ar).Some? && j.id in s.proc.run && s.proc.run[j.id] == j
    ensures Inv(StepAppend(s, j, ar).value)
  {
    var m := Recoverable(s.disk);
    AppendedRecoverable(s.disk, j);
    HonoursApplied(s.history, m, j);
    HonoursAcknowledge(s.history, Apply(j, m), j);
    HonoursAcknowledge(s.history, s.proc.run, j);
  }

  lemma RotateKeeps(s: Sys, seesActive: bool, r: Result)
    requires Inv(s) && StepRotate(s, seesActive, r).Some?
    ensures Inv(StepRotate(s, seesActive, r).value)
  {
    if s.disk.active.Some? {
      RotatedLog(s.disk, s.proc.sealSeq + 1);
    }
  }

  lemma SnapshotKeeps(s: Sys)
    requires Inv(s) && StepSnapshot(s).Some?
    ensures Inv(StepSnapshot(s).value)
  {
  }

  lemma OpenTmpKeeps(s: Sys, r: Result)
    requires Inv(s) && StepOpenTmp(s, r).Some?
    ensures Inv(StepOpenTmp(s, r).value)
  {
    RecoverableIgnoresTmp(s.disk, Partial, Missing);
  }

  lemma EncodeKeeps(s: Sys, r: Result)
    requires Inv(s) && StepEncode(s, r).Some?
    ensures Inv(StepEncode(s, r).value)
  {
    RecoverableIgnoresTmp(s.disk, Whole(s.proc.phase.snap), Missing);
  }

  lemma DropTmpKeeps(s: Sys, r: Result)
    requires Inv(s) && StepDropTmp(s, r).Some?
    ensures Inv(StepDropTmp(s, r).value)
  {
    RecoverableIgnoresTmp(s.disk, Missing, Missing);
  }

  lemma SyncCloseKeeps(s: Sys, r: Result)
    requires Inv(s) && StepSyncClose(s, r).Some?
    ensures Inv(StepSyncClose(s, r).value)
  {
  }

  lemma PublishKeeps(s: Sys, r: Result)
    requires Inv(s) && StepPublish(s, r).Some?
    ensures Inv(StepPublish(s, r).value)
  {
    var snap := s.proc.phase.snap;
    var d := s.disk.(main := s.disk.tmp, tmp := Missing);
    if s.disk.main.Whole? {
      HonoursReplay(s.history, Log(s.disk), s.disk.main.content, snap);
    } else {
      EmptyLog(s.disk);
    }
    assert Log(d) == Log(s.disk);
  }

  lemma RemoveKeeps(s: Sys, file: Artifact, r: Result)
    requires Inv(s) && StepRemove(s, file, r).Some? && (file.Active? || file.Sealed?)
    ensures Inv(StepRemove(s, file, r).value)
  {
    RemovedLast(s.disk, file);
    EmptyLog(Without(s.disk, file));
  }

  lemma ReopenKeeps(s: Sys, r: Result)
    requires Inv(s) && StepReopen(s, r).Some?
    ensures Inv(StepReopen(s, r).value)
  {
    var d := s.disk.(active := Some(ActiveLines(s.disk.active)));
    EmptyLog(s.disk);
    LogOfActive(d);
    HonoursRecovered(s.history, s.proc.run);
    HonoursFlushed(s.history, s.proc.phase.snap, s.proc.run);
  }

  lemma StepKeeps(s: Sys, a: Action)
    requires Inv(s) && Step(s, a).Some? && Disciplined(s, a)
    ensures Inv(Step(s, a).value)
  {
    match a
    case Boot =>
    case StatMain(r) => StatMainKeeps(s, r);
    case Promote(seesTmp, seesBackup, r) => PromoteKeeps(s, seesTmp, seesBackup, r);
    case Clean(r) => CleanKeeps(s, r);
    case Load(sight, r) => LoadKeeps(s, sight, r);
    case Update(j) => UpdateKeeps(s, j);
    case Append(j, ar) => AppendKeeps(s, j, ar);
    case StartCheckpoint =>
    case Rotate(seesActive, r) => RotateKeeps(s, seesActive, r);
    case Snapshot => SnapshotKeeps(s);
    case OpenTmp(r) => OpenTmpKeeps(s, r);
    case Encode(r) => EncodeKeeps(s, r);
    case DropTmp(r) => DropTmpKeeps(s, r);
    case SyncClose(r) => SyncCloseKeeps(s, r);
    case Publish(r) => PublishKeeps(s, r);
    case Remove(file, r) => RemoveKeeps(s, file, r);
    case Removed(_) =>
    case Reopen(r) => ReopenKeeps(s, r);
    case CloseFile =>
    case Reload(sight) => ReloadKeeps(s, sight);
    case Crash =>
  }
}
