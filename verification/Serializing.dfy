/**
 * JsonSerializer as a step system (json_serializer.go). One action is one file-system call with its
 * outcome, one update of the run in memory, or a crash; a stretch that only reads is one action.
 */
module Serializing {
  import opened Jobs
  import opened Persisted

  datatype Result = Done | Fails

  /**
   * What the lookups of a recovery see: os.Stat of the active log, and the listing of the segments, which
   * is `order` and may be empty or in disorder.
   */
  datatype Sight = Sight(active: bool, order: seq<nat>)

  /** Where a serializer stands inside a call. */
  datatype Phase =
    | Idle
    // recoverCheckpointAtomic
    | Statting
    | CleanTmp
    | CleanBackup
    | Promoting
    | Promoted
    | Restored
    // loadCheckpointAndReplay
    | Loading
    // doCheckpointRotateWriteDelete; from Snapshotting on also the constructor
    | Rotating
    | Snapshotting
    | Opening(snap: Store)
    | Encoding(snap: Store)
    | EncodeFailed
    | Syncing(snap: Store)
    | Renaming(snap: Store)
    | Deleting(snap: Store)
    | Reopening(snap: Store)

  /** The process; `booting` until NewJsonSerializer has returned, `open` while appendFile is not nil. */
  datatype Proc = Down | Up(booting: bool, run: Store, open: bool, sealSeq: nat, phase: Phase)

  /** What the callers of the serializer have seen happen. */
  datatype Event =
    | Updated(job: Job)
    | Acknowledged(job: Job)
    | Recovered(run: Store)
    // a checkpoint that returned no error: what it published, and the run in memory at that moment
    | Flushed(snap: Store, live: Store)

  datatype Sys = Sys(disk: Disk, proc: Proc, history: seq<Event>)

  /** What the cleanup pattern can match; the last two only for some checkpoint paths (SegmentNames). */
  datatype Artifact = Active | Sealed(n: nat) | Checkpoint | Spare

  datatype AppendResult = Acked | LostError | KeptError

  datatype Action =
    | Boot
    | StatMain(r: Result)
    | Promote(seesTmp: bool, seesBackup: bool, r: Result)
    | Clean(r: Result)
    | Load(sight: Sight, r: Result)
    | Update(job: Job)
    | Append(job: Job, ar: AppendResult)
    | StartCheckpoint
    | Rotate(seesActive: bool, r: Result)
    | Snapshot
    | OpenTmp(r: Result)
    | Encode(r: Result)
    | DropTmp(r: Result)
    | SyncClose(r: Result)
    | Publish(r: Result)
    | Remove(file: Artifact, r: Result)
    | Removed(sees: bool)
    | Reopen(r: Result)
    | CloseFile
    | Reload(sight: Sight)
    | Crash

  /** What a recovery makes of the disk when lookups miss some of what is there. */
  ghost function Seen(d: Disk, sight: Sight): Store
    requires Picks(sight.order, d.sealed)
  {
    Replay(LinesOf(sight.order, d.sealed) + (if sight.active then ActiveLines(d.active) else []), Base(d.main))
  }

  /** An error return: the constructor gives up, a checkpoint leaves the append file closed. */
  function Failed(s: Sys): Sys
    requires s.proc.Up?
  {
    if s.proc.booting then s.(proc := Down) else s.(proc := s.proc.(phase := Idle, open := false))
  }

  function At(s: Sys, phase: Phase): Sys
    requires s.proc.Up?
  {
    s.(proc := s.proc.(phase := phase))
  }

  function SetFile(s: Sys, disk: Disk, phase: Phase): Sys
    requires s.proc.Up?
  {
    Sys(disk, s.proc.(phase := phase), s.history)
  }

  predicate InPhase(s: Sys, phase: Phase) {
    s.proc.Up? && s.proc.phase == phase
  }

  /** Ready for a call: JobUpdate, a checkpoint, Deserialize. */
  predicate Ready(s: Sys) {
    s.proc.Up? && !s.proc.booting && s.proc.phase.Idle?
  }

  // ---- recoverCheckpointAtomic ----

  function StepStatMain(s: Sys, r: Result): Option<Sys> {
    if !InPhase(s, Statting) then None
    else if r.Fails? then Some(Failed(s))
    else if s.disk.main != Missing then Some(At(s, CleanTmp))
    else Some(At(s, Promoting))
  }

  function StepPromote(s: Sys, seesTmp: bool, seesBackup: bool, r: Result): Option<Sys> {
    if !InPhase(s, Promoting) then None
    else if s.disk.tmp != Missing && seesTmp then
      if r.Fails? then Some(Failed(s))
      else Some(SetFile(s, s.disk.(main := s.disk.tmp, tmp := Missing), Promoted))
    else if s.disk.backup != Missing && seesBackup then
      if r.Fails? then Some(Failed(s))
      else Some(SetFile(s, s.disk.(main := s.disk.backup, backup := Missing), Restored))
    else Some(At(s, Loading))
  }

  /** os.Remove whose error is ignored. */
  function StepClean(s: Sys, r: Result): Option<Sys> {
    if !s.proc.Up? then None else
    match s.proc.phase
    case CleanTmp => Some(SetFile(s, if r.Done? then s.disk.(tmp := Missing) else s.disk, CleanBackup))
    case CleanBackup => Some(SetFile(s, if r.Done? then s.disk.(backup := Missing) else s.disk, Loading))
    case Promoted => Some(SetFile(s, if r.Done? then s.disk.(backup := Missing) else s.disk, Loading))
    case Restored => Some(SetFile(s, if r.Done? then s.disk.(tmp := Missing) else s.disk, Loading))
    case _ => None
  }

  // ---- loadCheckpointAndReplay ----

  ghost function StepLoad(s: Sys, sight: Sight, r: Result): Option<Sys> {
    if !InPhase(s, Loading) || !Picks(sight.order, s.disk.sealed) then None
    else if r.Fails? || s.disk.main.Partial? then Some(Failed(s))
    else Some(s.(proc := s.proc.(run := Seen(s.disk, sight), phase := Snapshotting)))
  }

  /** A failed reload leaves everything as it was. */
  ghost function StepReload(s: Sys, sight: Sight): Option<Sys> {
    if !Ready(s) || !Picks(sight.order, s.disk.sealed) then None
    else if s.disk.main.Partial? then Some(s)
    else Some(s.(proc := s.proc.(run := Seen(s.disk, sight))))
  }

  // ---- Updates ----

  function StepUpdate(s: Sys, j: Job): Option<Sys> {
    if s.proc.Up? && !s.proc.booting then
      Some(Sys(s.disk, s.proc.(run := Apply(j, s.proc.run)), s.history + [Updated(j)]))
    else None
  }

  /** JobUpdate while the append file is open; otherwise it only returns an error. */
  function StepAppend(s: Sys, j: Job, ar: AppendResult): Option<Sys> {
    if !Ready(s) || !s.proc.open || s.disk.active == None then None else
    var longer := s.disk.(active := Some(s.disk.active.value + [j]));
    match ar
    case Acked => Some(Sys(longer, s.proc, s.history + [Acknowledged(j)]))
    case LostError => Some(s)
    case KeptError => Some(s.(disk := longer))
  }

  // ---- doCheckpointRotateWriteDelete ----

  function StepStart(s: Sys): Option<Sys> {
    if Ready(s) then Some(s.(proc := s.proc.(open := false, phase := Rotating))) else None
  }

  function StepRotate(s: Sys, seesActive: bool, r: Result): Option<Sys> {
    if !InPhase(s, Rotating) then None
    else if s.disk.active == None || !seesActive then Some(At(s, Snapshotting))
    else if r.Fails? then Some(Failed(s))
    else
      var n := s.proc.sealSeq + 1;
      Some(Sys(s.disk.(sealed := s.disk.sealed[n := s.disk.active.value], active := None),
               s.proc.(sealSeq := n, phase := Snapshotting), s.history))
  }

  function StepSnapshot(s: Sys): Option<Sys> {
    if InPhase(s, Snapshotting) then Some(At(s, Opening(s.proc.run))) else None
  }

  function StepOpenTmp(s: Sys, r: Result): Option<Sys> {
    if !s.proc.Up? || !s.proc.phase.Opening? then None
    else if r.Fails? then Some(Failed(s))
    else Some(SetFile(s, s.disk.(tmp := Partial), Encoding(s.proc.phase.snap)))
  }

  function StepEncode(s: Sys, r: Result): Option<Sys> {
    if !s.proc.Up? || !s.proc.phase.Encoding? then None
    else if r.Fails? then Some(At(s, EncodeFailed))
    else Some(SetFile(s, s.disk.(tmp := Whole(s.proc.phase.snap)), Syncing(s.proc.phase.snap)))
  }

  function StepDropTmp(s: Sys, r: Result): Option<Sys> {
    if !InPhase(s, EncodeFailed) then None
    else Some(Failed(if r.Done? then s.(disk := s.disk.(tmp := Missing)) else s))
  }

  function StepSyncClose(s: Sys, r: Result): Option<Sys> {
    if !s.proc.Up? || !s.proc.phase.Syncing? then None
    else if r.Fails? then Some(Failed(s))
    else Some(At(s, Renaming(s.proc.phase.snap)))
  }

  function StepPublish(s: Sys, r: Result): Option<Sys> {
    if !s.proc.Up? || !s.proc.phase.Renaming? then None
    else if r.Fails? then Some(Failed(s))
    else Some(SetFile(s, s.disk.(main := s.disk.tmp, tmp := Missing), Deleting(s.proc.phase.snap)))
  }

  predicate OnDisk(d: Disk, file: Artifact) {
    match file
    case Active => d.active.Some?
    case Sealed(n) => n in d.sealed
    case Checkpoint => d.main != Missing
    case Spare => d.backup != Missing
  }

  function Without(d: Disk, file: Artifact): Disk {
    match file
    case Active => d.(active := None)
    case Sealed(n) => d.(sealed := d.sealed - {n})
    case Checkpoint => d.(main := Missing)
    case Spare => d.(backup := Missing)
  }

  /** The files are removed in whatever order the listing gives them. */
  function StepRemove(s: Sys, file: Artifact, r: Result): Option<Sys> {
    if !s.proc.Up? || !s.proc.phase.Deleting? || !OnDisk(s.disk, file) then None
    else if r.Fails? then Some(Failed(s))
    else Some(s.(disk := Without(s.disk, file)))
  }

  /** The end of the removal: no segment is left, unless the listing has missed some. */
  function StepRemoved(s: Sys, sees: bool): Option<Sys> {
    if s.proc.Up? && s.proc.phase.Deleting? && (sees ==> s.disk.active == None && s.disk.sealed == map[]) then
      Some(s.(proc := s.proc.(sealSeq := 0, phase := Reopening(s.proc.phase.snap))))
    else None
  }

  /** Opening the append file creates it; this is the last thing that can fail. */
  function StepReopen(s: Sys, r: Result): Option<Sys> {
    if !s.proc.Up? || !s.proc.phase.Reopening? then None
    else if r.Fails? then Some(Failed(s))
    else
      var event := if s.proc.booting then Recovered(s.proc.run) else Flushed(s.proc.phase.snap, s.proc.run);
      Some(Sys(s.disk.(active := Some(ActiveLines(s.disk.active))),
               s.proc.(booting := false, open := true, phase := Idle), s.history + [event]))
  }

  ghost function Step(s: Sys, a: Action): Option<Sys> {
    match a
    case Boot => if s.proc.Down? then Some(s.(proc := Up(true, map[], false, 0, Statting))) else None
    case StatMain(r) => StepStatMain(s, r)
    case Promote(seesTmp, seesBackup, r) => StepPromote(s, seesTmp, seesBackup, r)
    case Clean(r) => StepClean(s, r)
    case Load(sight, r) => StepLoad(s, sight, r)
    case Update(j) => StepUpdate(s, j)
    case Append(j, ar) => StepAppend(s, j, ar)
    case StartCheckpoint => StepStart(s)
    case Rotate(seesActive, r) => StepRotate(s, seesActive, r)
    case Snapshot => StepSnapshot(s)
    case OpenTmp(r) => StepOpenTmp(s, r)
    case Encode(r) => StepEncode(s, r)
    case DropTmp(r) => StepDropTmp(s, r)
    case SyncClose(r) => StepSyncClose(s, r)
    case Publish(r) => StepPublish(s, r)
    case Remove(file, r) => StepRemove(s, file, r)
    case Removed(sees) => StepRemoved(s, sees)
    case Reopen(r) => StepReopen(s, r)
    case CloseFile => if Ready(s) then Some(s.(proc := s.proc.(open := false))) else None
    case Reload(sight) => StepReload(s, sight)
    case Crash => if s.proc.Up? then Some(s.(proc := Down)) else None
  }

  const START := Sys(FRESH, Down, [])

  ghost function Run(s: Sys, acts: seq<Action>): Option<Sys> {
    if acts == [] then Some(s) else
    match Run(s, acts[..|acts| - 1])
    case None => None
    case Some(m) => Step(m, acts[|acts| - 1])
  }

  /**
   * Memory is updated before the log, listings and lookups find every segment that is there, and the
   * cleanup pattern matches nothing but segments.
   */
  ghost predicate Disciplined(s: Sys, a: Action) {
    && (a.Append? && s.proc.Up? ==> a.job.id in s.proc.run && s.proc.run[a.job.id] == a.job)
    && (a.Load? || a.Reload? ==> SeesAll(s.disk, a.sight))
    && (a.Remove? ==> a.file.Active? || a.file.Sealed?)
    && (a.Removed? ==> a.sees)
  }

  ghost predicate SeesAll(d: Disk, sight: Sight) {
    (d.active.Some? ==> sight.active) && Lists(sight.order, d.sealed)
  }

  ghost predicate Orderly(s: Sys, acts: seq<Action>) {
    acts == [] || (
      && Orderly(s, acts[..|acts| - 1])
      && var m := Run(s, acts[..|acts| - 1]);
         m.Some? && Disciplined(m.value, acts[|acts| - 1]) && Step(m.value, acts[|acts| - 1]).Some?)
  }

  // ---- What a recovery owes its callers ----

  function ValueIn(m: Store, id: string): set<Job> {
    if id in m then {m[id]} else {}
  }

  /**
   * The values a job may have after a crash: the one last acknowledged, recovered or flushed, and those
   * given to it in memory since.
   */
  ghost function Allowed(h: seq<Event>, id: string): set<Job> {
    if h == [] then {} else
    var before := Allowed(h[..|h| - 1], id);
    match h[|h| - 1]
    case Updated(j) => if j.id == id then before + {j} else before
    case Acknowledged(j) => if j.id == id then {j} else before
    case Recovered(run) => ValueIn(run, id)
    case Flushed(snap, live) => ValueIn(snap, id) + ValueIn(live, id)
  }

  /** The job has been acknowledged, recovered or flushed, and so must be there after every crash. */
  ghost predicate Owed(h: seq<Event>, id: string) {
    h != [] &&
    match h[|h| - 1]
    case Updated(_) => Owed(h[..|h| - 1], id)
    case Acknowledged(j) => j.id == id || Owed(h[..|h| - 1], id)
    case Recovered(run) => id in run
    case Flushed(snap, _) => id in snap || Owed(h[..|h| - 1], id)
  }

  /** The run holds every job owed, each at an allowed value, and no job or value made up. */
  ghost predicate Honours(h: seq<Event>, m: Store) {
    && (forall id :: id in m ==> m[id] in Allowed(h, id))
    && (forall id :: Owed(h, id) ==> id in m)
  }
}
