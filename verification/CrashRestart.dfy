/**
 * The processor and its serializer together: handleReturn updates the run and then logs, checkpoints run
 * beside it, and a crash between two handleReturn calls loses nothing (processor.go: 335-420).
 */
module CrashRestart {
  import opened Jobs
  import opened KickIds
  import opened Persisted
  import opened StateStorage
  import Serializing
  import Durability
  import opened Stretches
  import Scheduler
  import SchedulerInvariant
  import SchedulerSteps
  import SchedulerResults

  /** `logged` counts the records of the return being handled that have been appended. */
  datatype World = World(sched: Scheduler.Sys, store: Serializing.Sys, logged: nat)

  datatype Move =
    | Schedule(a: Scheduler.Action)
    | Log
    | Background(b: Serializing.Action)

  /** The records of one return in the order they are logged: the job itself, then its kicks. */
  function Record(ret: Return, i: nat): Job
    requires i <= |ret.kicks|
  {
    if i == 0 then ret.job else KickedJob(Child(ret.job.id, i - 1), ret.kicks[i - 1])
  }

  /** Actions of the checkpoint goroutine, errors included. */
  predicate OfCheckpoint(a: Serializing.Action) {
    Harmless(a) && (
    a.StartCheckpoint? || a.Rotate? || a.Snapshot? || a.OpenTmp? || a.Encode? || a.DropTmp?
    || a.SyncClose? || a.Publish? || a.Remove? || a.Removed? || a.Reopen?)
  }

  function Placed(s: Scheduler.Sys, a: Scheduler.Action): Option<Job> {
    if a.Place? && s.pc.Freed? then Some(s.pc.flight.ret.job)
    else if a.KickOne? && s.pc.Kicking? && s.pc.next < |s.pc.ret.kicks| then Some(Scheduler.NextKick(s.pc))
    else None
  }

  predicate AllKicked(w: World) {
    w.sched.pc.Kicking? && w.sched.pc.next == |w.sched.pc.ret.kicks|
  }

  ghost function Move1(w: World, mv: Move): Option<World> {
    match mv
    case Schedule(a) =>
      (match Scheduler.Step(w.sched, a)
       case None => None
       case Some(t) =>
         var job := Placed(w.sched, a);
         if job.Some? then
           (match Serializing.StepUpdate(w.store, job.value)
            case None => None
            case Some(d) => Some(World(t, d, 0)))
         else if a.Persist? then
           if AllKicked(w) && w.logged == |w.sched.pc.ret.kicks| + 1 then Some(World(t, w.store, 0)) else None
         else Some(w.(sched := t)))
    case Log =>
      if AllKicked(w) && w.logged <= |w.sched.pc.ret.kicks| then
        (match Serializing.StepAppend(w.store, Record(w.sched.pc.ret, w.logged), Serializing.Acked)
         case None => None
         case Some(d) => Some(World(w.sched, d, w.logged + 1)))
      else None
    case Background(a) =>
      if OfCheckpoint(a) then
        (match Serializing.Step(w.store, a)
         case None => None
         case Some(d) => Some(w.(store := d)))
      else None
  }

  // ---- What ties the log to the run ----

  ghost predicate Tracks(w: World) {
    w.store.proc.Up? && !w.store.proc.booting && w.store.proc.run == w.sched.jobs
  }

  ghost predicate Stored(jobs: Store, j: Job) {
    j.id in jobs && jobs[j.id] == j
  }

  ghost predicate Unlogged(w: World, id: string) {
    w.sched.pc.Kicking? && w.sched.pc.next <= |w.sched.pc.ret.kicks|
    && exists i :: w.logged <= i <= w.sched.pc.next && Record(w.sched.pc.ret, i).id == id
  }

  ghost predicate BatchOk(w: World) {
    if w.sched.pc.Kicking? then
      var ret, next := w.sched.pc.ret, w.sched.pc.next;
      && next <= |ret.kicks| && w.logged <= next + 1 && (w.logged > 0 ==> next == |ret.kicks|)
      && (forall i :: 0 <= i <= next ==> Stored(w.sched.jobs, Record(ret, i)))
      && (forall i :: 0 <= i < w.logged ==> Serializing.Owed(w.store.history, Record(ret, i).id))
    else w.logged == 0
  }

  /**
   * The disk can only hold this id's value of the run, and does hold it unless the job was added by the
   * caller and never handled: such a job has no arrow in its id.
   */
  ghost predicate Synced(h: seq<Serializing.Event>, jobs: Store, id: string) {
    if id in jobs then
      && (forall j :: j in Serializing.Allowed(h, id) ==> j == jobs[id])
      && (NoArrow(id) || Serializing.Owed(h, id))
    else Serializing.Allowed(h, id) == {} && !Serializing.Owed(h, id)
  }

  ghost predicate AllSynced(w: World) {
    forall id :: !Unlogged(w, id) ==> Synced(w.store.history, w.sched.jobs, id)
  }

  ghost predicate Inv(w: World) {
    Tracks(w) && BatchOk(w) && AllSynced(w) && Durability.Inv(w.store) && SchedulerInvariant.Inv(w.sched)
  }

  ghost predicate Lawful(w: World, mv: Move) {
    mv.Schedule? ==> Scheduler.Contract(w.sched, mv.a)
  }

  // ---- Every move keeps it ----

  lemma QuietStep(s: Scheduler.Sys, a: Scheduler.Action)
    requires Scheduler.Step(s, a).Some? && Placed(s, a) == None && !a.Persist?
    ensures var t := Scheduler.Step(s, a).value;
            t.jobs == s.jobs && (t.pc == s.pc || (!t.pc.Kicking? && !s.pc.Kicking?))
  {
  }

  lemma PlacingStep(s: Scheduler.Sys, a: Scheduler.Action)
    requires Scheduler.Step(s, a).Some? && Placed(s, a).Some?
    ensures var t, j := Scheduler.Step(s, a).value, Placed(s, a).value;
            && t.jobs == s.jobs[j.id := j]
            && (if a.Place? then t.pc == Scheduler.Kicking(s.pc.flight.ret, 0)
                else t.pc == Scheduler.Kicking(s.pc.ret, s.pc.next + 1) && s.pc.Kicking? &&
                      s.pc.next < |s.pc.ret.kicks|)
  {
  }

  lemma QuietKeeps(w: World, t: Scheduler.Sys)
    requires Tracks(w) && BatchOk(w) && AllSynced(w)
    requires t.jobs == w.sched.jobs && (t.pc == w.sched.pc || (!t.pc.Kicking? && !w.sched.pc.Kicking?))
    ensures var v := w.(sched := t); Tracks(v) && BatchOk(v) && AllSynced(v)
  {
    var v := w.(sched := t);
    forall id | !Unlogged(v, id) ensures Synced(v.store.history, v.sched.jobs, id) {
      assert !Unlogged(w, id);
    }
  }

  lemma PersistKeeps(w: World, t: Scheduler.Sys)
    requires Tracks(w) && BatchOk(w) && AllSynced(w)
    requires AllKicked(w) && w.logged == |w.sched.pc.ret.kicks| + 1
    requires t.jobs == w.sched.jobs && t.pc.Draining?
    ensures var v := World(t, w.store, 0); Tracks(v) && BatchOk(v) && AllSynced(v)
  {
    var v := World(t, w.store, 0);
    forall id | !Unlogged(v, id) ensures Synced(v.store.history, v.sched.jobs, id) {
      assert !Unlogged(w, id);
    }
  }

  /** Updating one id leaves what the log says of the others. */
  lemma SyncedElsewhere(h: seq<Serializing.Event>, jobs: Store, j: Job, id: string)
    requires Synced(h, jobs, id) && id != j.id
    ensures Synced(h + [Serializing.Updated(j)], jobs[j.id := j], id)
    ensures Synced(h + [Serializing.Acknowledged(j)], jobs, id)
  {
    var u, a := h + [Serializing.Updated(j)], h + [Serializing.Acknowledged(j)];
    assert u[..|u| - 1] == h && a[..|a| - 1] == h;
    assert Serializing.Allowed(u, id) == Serializing.Allowed(h, id) == Serializing.Allowed(a, id);
    assert Serializing.Owed(u, id) == Serializing.Owed(h, id) == Serializing.Owed(a, id);
  }

  lemma SyncedByLog(h: seq<Serializing.Event>, jobs: Store, j: Job)
    requires Stored(jobs, j)
    ensures Synced(h + [Serializing.Acknowledged(j)], jobs, j.id) &&
            Serializing.Owed(h + [Serializing.Acknowledged(j)], j.id)
  {
  }

  lemma OwedStays(h: seq<Serializing.Event>, e: Serializing.Event, id: string)
    requires Serializing.Owed(h, id) && !e.Recovered?
    ensures Serializing.Owed(h + [e], id)
  {
    assert (h + [e])[..|h|] == h;
  }

  lemma PlaceKeeps(w: World, t: Scheduler.Sys, ret: Return)
    requires Tracks(w) && BatchOk(w) && AllSynced(w) && w.sched.pc.Freed?
    requires t.jobs == w.sched.jobs[ret.job.id := ret.job] && t.pc == Scheduler.Kicking(ret, 0)
    ensures Serializing.StepUpdate(w.store, ret.job).Some?
    ensures var v := World(t, Serializing.StepUpdate(w.store, ret.job).value, 0);
            Tracks(v) && BatchOk(v) && AllSynced(v)
  {
    var v := World(t, Serializing.StepUpdate(w.store, ret.job).value, 0);
    forall id | !Unlogged(v, id) ensures Synced(v.store.history, v.sched.jobs, id) {
      assert Record(ret, 0).id == ret.job.id;
      assert id != ret.job.id && !Unlogged(w, id);
      SyncedElsewhere(w.store.history, w.sched.jobs, ret.job, id);
    }
  }

  lemma RecordsApart(ret: Return, i: nat, j: nat)
    requires i < j <= |ret.kicks|
    ensures Record(ret, i).id != Record(ret, j).id
  {
    if i == 0 {
      ChildHasArrow(ret.job.id, j - 1);
    } else {
      ChildInjective(ret.job.id, i - 1, ret.job.id, j - 1);
    }
  }

  lemma KickKeeps(w: World, t: Scheduler.Sys, ret: Return, next: nat)
    requires Tracks(w) && BatchOk(w) && AllSynced(w) && w.sched.pc == Scheduler.Kicking(ret, next) && next < |ret.kicks|
    requires var j := Record(ret, next + 1);
             t.jobs == w.sched.jobs[j.id := j] && t.pc == Scheduler.Kicking(ret, next + 1)
    ensures Serializing.StepUpdate(w.store, Record(ret, next + 1)).Some?
    ensures var v := World(t, Serializing.StepUpdate(w.store, Record(ret, next + 1)).value, 0);
            Tracks(v) && BatchOk(v) && AllSynced(v)
  {
    var j := Record(ret, next + 1);
    var v := World(t, Serializing.StepUpdate(w.store, j).value, 0);
    forall i | 0 <= i <= next + 1 ensures Stored(v.sched.jobs, Record(ret, i)) {
      if i <= next {
        assert Stored(w.sched.jobs, Record(ret, i));
        RecordsApart(ret, i, next + 1);
      }
    }
    forall id | !Unlogged(v, id) ensures Synced(v.store.history, v.sched.jobs, id) {
      assert id != j.id;
      assert !Unlogged(w, id);
      SyncedElsewhere(w.store.history, w.sched.jobs, j, id);
    }
  }

  lemma LogKeeps(w: World, d: Serializing.Sys)
    requires Tracks(w) && BatchOk(w) && AllSynced(w)
    requires AllKicked(w) && w.logged <= |w.sched.pc.ret.kicks|
    requires d.proc == w.store.proc
    requires d.history == w.store.history + [Serializing.Acknowledged(Record(w.sched.pc.ret, w.logged))]
    ensures var v := World(w.sched, d, w.logged + 1); Tracks(v) && BatchOk(v) && AllSynced(v)
  {
    var v := World(w.sched, d, w.logged + 1);
    var ret, h := w.sched.pc.ret, w.store.history;
    var j := Record(ret, w.logged);
    assert Stored(w.sched.jobs, j);
    SyncedByLog(h, w.sched.jobs, j);
    forall i | 0 <= i < v.logged ensures Serializing.Owed(d.history, Record(ret, i).id) {
      if i < w.logged {
        OwedStays(h, Serializing.Acknowledged(j), Record(ret, i).id);
      }
    }
    forall id | !Unlogged(v, id) ensures Synced(d.history, v.sched.jobs, id) {
      if id != j.id {
        assert !Unlogged(w, id);
        SyncedElsewhere(h, w.sched.jobs, j, id);
      }
    }
  }

  /** A checkpoint step tells the callers nothing, or that what the snapshot holds is published. */
  lemma CheckpointStep(s: Serializing.Sys, a: Serializing.Action)
    requires Durability.Inv(s) && s.proc.Up? && !s.proc.booting && OfCheckpoint(a) && Serializing.Step(s, a).Some?
    ensures var t := Serializing.Step(s, a).value;
            && t.proc.Up? && !t.proc.booting && t.proc.run == s.proc.run
            && (t.history == s.history || exists snap :: HasFlushed(s, t, snap))
  {
    var t := Serializing.Step(s, a).value;
    if t.history != s.history {
      assert a == Serializing.Reopen(Serializing.Done);
      assert HasFlushed(s, t, s.proc.phase.snap);
    }
  }

  ghost predicate HasFlushed(s: Serializing.Sys, t: Serializing.Sys, snap: Store)
    requires s.proc.Up?
  {
    t.history == s.history + [Serializing.Flushed(snap, s.proc.run)] && Serializing.Honours(s.history, snap)
  }

  /** What is published of an id that is in step is what memory holds. */
  lemma SyncedByFlush(h: seq<Serializing.Event>, jobs: Store, snap: Store, id: string)
    requires Synced(h, jobs, id) && Serializing.Honours(h, snap)
    ensures Synced(h + [Serializing.Flushed(snap, jobs)], jobs, id)
  {
    var f := h + [Serializing.Flushed(snap, jobs)];
    assert f[..|f| - 1] == h;
    if id in snap {
      assert snap[id] in Serializing.Allowed(h, id);
    }
  }

  lemma BackgroundKeeps(w: World, d: Serializing.Sys)
    requires Tracks(w) && BatchOk(w) && AllSynced(w)
    requires d.proc.Up? && !d.proc.booting && d.proc.run == w.store.proc.run
    requires d.history == w.store.history || exists snap :: HasFlushed(w.store, d, snap)
    ensures var v := w.(store := d); Tracks(v) && BatchOk(v) && AllSynced(v)
  {
    var v, h := w.(store := d), w.store.history;
    forall id | Serializing.Owed(h, id) ensures Serializing.Owed(d.history, id) {
      if d.history != h {
        OwedStays(h, d.history[|h|], id);
      }
    }
    forall id | !Unlogged(v, id) ensures Synced(v.store.history, v.sched.jobs, id) {
      assert !Unlogged(w, id);
      if d.history != h {
        var snap :| HasFlushed(w.store, d, snap);
        SyncedByFlush(h, w.sched.jobs, snap, id);
      }
    }
  }

  lemma ScheduleKeeps(w: World, a: Scheduler.Action)
    requires Tracks(w) && BatchOk(w) && AllSynced(w) && Move1(w, Schedule(a)).Some?
    ensures var v := Move1(w, Schedule(a)).value;
            Tracks(v) && BatchOk(v) && AllSynced(v) && Some(v.sched) == Scheduler.Step(w.sched, a)
    ensures var v := Move1(w, Schedule(a)).value;
            v.store == w.store || (Placed(w.sched, a).Some? &&
                  Serializing.StepUpdate(w.store, Placed(w.sched, a).value) == Some(v.store))
  {
    var t := Scheduler.Step(w.sched, a).value;
    if Placed(w.sched, a).Some? {
      PlacingStep(w.sched, a);
      if a.Place? {
        PlaceKeeps(w, t, w.sched.pc.flight.ret);
      } else {
        KickKeeps(w, t, w.sched.pc.ret, w.sched.pc.next);
      }
    } else if a.Persist? {
      PersistKeeps(w, t);
    } else {
      QuietStep(w.sched, a);
      QuietKeeps(w, t);
    }
  }

  lemma MoveKeeps(w: World, mv: Move)
    requires Inv(w) && Move1(w, mv).Some? && Lawful(w, mv)
    ensures Inv(Move1(w, mv).value)
  {
    var v := Move1(w, mv).value;
    match mv
    case Schedule(a) =>
      ScheduleKeeps(w, a);
      SchedulerSteps.StepKeeps(w.sched, a);
      if v.store != w.store {
        Durability.UpdateKeeps(w.store, Placed(w.sched, a).value);
      }
    case Log =>
      var j := Record(w.sched.pc.ret, w.logged);
      assert Stored(w.sched.jobs, j);
      LogKeeps(w, v.store);
      Durability.AppendKeeps(w.store, j, Serializing.Acked);
    case Background(a) =>
      CheckpointStep(w.store, a);
      BackgroundKeeps(w, v.store);
      Durability.StepKeeps(w.store, a);
  }

  // ---- Whole sessions ----

  ghost function Moves(w: World, mvs: seq<Move>): Option<World> {
    if mvs == [] then Some(w) else
    match Moves(w, mvs[..|mvs| - 1])
    case None => None
    case Some(m) => Move1(m, mvs[|mvs| - 1])
  }

  ghost predicate LawfulMoves(w: World, mvs: seq<Move>) {
    mvs == [] || (
      && LawfulMoves(w, mvs[..|mvs| - 1])
      && var m := Moves(w, mvs[..|mvs| - 1]);
         m.Some? && Lawful(m.value, mvs[|mvs| - 1]) && Move1(m.value, mvs[|mvs| - 1]).Some?)
  }

  ghost predicate Reaches(w: World, mvs: seq<Move>, v: World) {
    LawfulMoves(w, mvs) && Moves(w, mvs) == Some(v)
  }

  lemma ReachOn(w: World, mvs: seq<Move>, m: World, mv: Move, v: World)
    requires Reaches(w, mvs, m) && Lawful(m, mv) && Move1(m, mv) == Some(v)
    ensures Reaches(w, mvs + [mv], v)
  {
    assert (mvs + [mv])[..|mvs|] == mvs;
  }

  lemma ReachLast(w: World, mvs: seq<Move>, v: World) returns (u: World)
    requires Reaches(w, mvs, v) && mvs != []
    ensures Reaches(w, mvs[..|mvs| - 1], u) && Lawful(u, mvs[|mvs| - 1]) && Move1(u, mvs[|mvs| - 1]) == Some(v)
  {
    u := Moves(w, mvs[..|mvs| - 1]).value;
  }

  lemma {:induction false} ReachFurther(w: World, mvs: seq<Move>, m: World, more: seq<Move>, v: World)
    requires Reaches(w, mvs, m) && Reaches(m, more, v)
    ensures Reaches(w, mvs + more, v)
  {
    if more == [] {
      assert mvs + more == mvs;
    } else {
      var init := more[..|more| - 1];
      var u := ReachLast(m, more, v);
      ReachFurther(w, mvs, m, init, u);
      ReachOn(w, mvs + init, u, more[|more| - 1], v);
      ConcatLast(mvs, more);
    }
  }

  lemma MoveHistory(w: World, mv: Move)
    requires Tracks(w) && Durability.Inv(w.store) && Move1(w, mv).Some?
    ensures var h := Move1(w, mv).value.store.history;
            h == w.store.history || exists e: Serializing.Event :: !e.Recovered? && h == w.store.history + [e]
  {
    if mv.Background? {
      CheckpointStep(w.store, mv.b);
    } else if mv.Log? {
      assert Move1(w, mv).value.store.history ==
            w.store.history + [Serializing.Acknowledged(Record(w.sched.pc.ret, w.logged))];
    } else if Placed(w.sched, mv.a).Some? {
      assert Move1(w, mv).value.store.history == w.store.history + [Serializing.Updated(Placed(w.sched, mv.a).value)];
    }
  }

  lemma {:induction false} MovesKeep(w: World, mvs: seq<Move>, id: string)
    requires Inv(w) && LawfulMoves(w, mvs)
    ensures Moves(w, mvs).Some? && Inv(Moves(w, mvs).value)
    ensures Serializing.Owed(w.store.history, id) ==> Serializing.Owed(Moves(w, mvs).value.store.history, id)
  {
    if mvs != [] {
      var init := mvs[..|mvs| - 1];
      MovesKeep(w, init, id);
      var m := Moves(w, init).value;
      MoveKeeps(m, mvs[|mvs| - 1]);
      MoveHistory(m, mvs[|mvs| - 1]);
      var h := Moves(w, mvs).value.store.history;
      if Serializing.Owed(w.store.history, id) && h != m.store.history {
        var e: Serializing.Event :| !e.Recovered? && h == m.store.history + [e];
        OwedStays(m.store.history, e, id);
      }
    }
  }

  // ---- A crash, and the restart after it ----

  /**
   * A crash at any moment, inside a handleReturn call too: but for the records of this call that are not
   * logged yet, the recovered run is a part of the run in memory, and only jobs added by the caller and
   * never handled can be missing.
   */
  lemma CrashAnytime(w: World, m: Store)
    requires Inv(w) && Serializing.Honours(w.store.history, m)
    ensures forall id :: id in m && !Unlogged(w, id) ==> id in w.sched.jobs && m[id] == w.sched.jobs[id]
    ensures forall id :: id in w.sched.jobs && id !in m && !Unlogged(w, id) ==>
            NoArrow(id) && !Serializing.Owed(w.store.history, id)
  {
    forall id | id in m && !Unlogged(w, id) ensures id in w.sched.jobs && m[id] == w.sched.jobs[id] {
      assert Synced(w.store.history, w.sched.jobs, id);
      assert m[id] in Serializing.Allowed(w.store.history, id);
    }
    forall id | id in w.sched.jobs && id !in m && !Unlogged(w, id)
      ensures NoArrow(id) && !Serializing.Owed(w.store.history, id)
    {
      assert Synced(w.store.history, w.sched.jobs, id);
    }
  }

  /** Between two handleReturn calls nothing is unlogged. */
  lemma CrashBetweenReturns(w: World, m: Store)
    requires Inv(w) && !w.sched.pc.Kicking? && Serializing.Honours(w.store.history, m)
    ensures forall id :: id in m ==> id in w.sched.jobs && m[id] == w.sched.jobs[id]
    ensures forall id :: id in w.sched.jobs && id !in m ==> NoArrow(id) && !Serializing.Owed(w.store.history, id)
  {
    CrashAnytime(w, m);
    assert forall id :: !Unlogged(w, id);
  }

  /**
   * The job and all kicks of a handleReturn call that has finished are in every later recovery, whenever
   * the crash strikes, and exactly as memory had them: but for an id that the call cut short was about to
   * log again.
   */
  lemma FinishedReturnSurvives(w: World, mvs: seq<Move>, i: nat, m: Store)
    requires Inv(w) && AllKicked(w) && w.logged == |w.sched.pc.ret.kicks| + 1 && i < w.logged
    requires LawfulMoves(w, mvs)
    ensures Moves(w, mvs).Some?
    ensures var v, id := Moves(w, mvs).value, Record(w.sched.pc.ret, i).id;
            Serializing.Honours(v.store.history, m) ==>
              id in m && (!Unlogged(v, id) ==> id in v.sched.jobs && m[id] == v.sched.jobs[id])
  {
    var id := Record(w.sched.pc.ret, i).id;
    MovesKeep(w, mvs, id);
    var v := Moves(w, mvs).value;
    if Serializing.Honours(v.store.history, m) {
      CrashAnytime(v, m);
    }
  }

  /** A run just recovered, perhaps with jobs added since, ready for Exec. */
  ghost predicate Prepared(d: Serializing.Sys) {
    && d.proc.Up? && !d.proc.booting && Durability.Inv(d)
    && forall id :: Synced(d.history, d.proc.run, id)
  }

  lemma RecoveredIsPrepared(d: Serializing.Sys, before: seq<Serializing.Event>)
    requires d.proc.Up? && !d.proc.booting && Durability.Inv(d)
    requires d.history == before + [Serializing.Recovered(d.proc.run)]
    ensures Prepared(d)
  {
  }

  /** AddJob with a fresh id of the shape that generateJobID makes. */
  lemma AddJobKeepsPrepared(d: Serializing.Sys, j: Job)
    requires Prepared(d) && j.id !in d.proc.run && NoArrow(j.id)
    ensures Serializing.StepUpdate(d, j).Some? && Prepared(Serializing.StepUpdate(d, j).value)
  {
    var e := Serializing.StepUpdate(d, j).value;
    Durability.UpdateKeeps(d, j);
    forall id ensures Synced(e.history, e.proc.run, id) {
      assert Synced(d.history, d.proc.run, id);
      if id != j.id {
        SyncedElsewhere(d.history, d.proc.run, j, id);
      } else {
        assert e.history[..|e.history| - 1] == d.history;
      }
    }
  }

  lemma ExecStarts(d: Serializing.Sys, states: Slots, timeouts: map<string, Option<Timeout>>)
    requires Prepared(d) && Scheduler.Startable(states, timeouts, d.proc.run)
    ensures Inv(World(Scheduler.Start(states, timeouts, d.proc.run), d, 0))
  {
    var w := World(Scheduler.Start(states, timeouts, d.proc.run), d, 0);
    SchedulerResults.StartOk(states, timeouts, d.proc.run);
    assert w.sched.jobs == d.proc.run && !w.sched.pc.Kicking?;
    assert AllSynced(w);
  }

  lemma PartIsClosed(w: World, m: Store)
    requires Scheduler.KidsClosed(w.sched.jobs)
    requires forall id :: id in m ==> id in w.sched.jobs
    requires forall id :: id in w.sched.jobs && id !in m ==> NoArrow(id)
    ensures Scheduler.KidsClosed(m)
  {
    forall p, i: nat, j: nat | j <= i && Child(p, i) in m ensures Child(p, j) in m {
      assert Child(p, i) in w.sched.jobs;
      assert Child(p, j) in w.sched.jobs;
      ChildHasArrow(p, j);
    }
  }

  /** The recovered run meets what Exec asks of its jobs. */
  lemma RecoveredIsStartable(w: World, m: Store, states: Slots, timeouts: map<string, Option<Timeout>>)
    requires SchedulerInvariant.Registered(w.sched) && Scheduler.KidsClosed(w.sched.jobs)
    requires forall id :: id in m ==> id in w.sched.jobs && m[id] == w.sched.jobs[id]
    requires forall id :: id in w.sched.jobs && id !in m ==> NoArrow(id)
    requires Scheduler.Startable(states, timeouts, map[]) && forall n :: n in w.sched.slots <==> n in states
    ensures Scheduler.Startable(states, timeouts, m)
  {
    PartIsClosed(w, m);
    forall id | id in m ensures m[id].id == id && m[id].state in states {
      assert w.sched.jobs[id].id == id;
    }
  }

  /**
   * The composition: crash between two handleReturn calls, recover, call Exec again with the same states.
   * The scheduler's invariant and the tie to the log hold again, so that every theorem about a session
   * holds of the next one; all recovered jobs are enqueued anew, and no job that is not terminal is skipped.
   */
  lemma RestartResumes(w: World, d: Serializing.Sys, states: Slots, timeouts: map<string, Option<Timeout>>)
    requires Inv(w) && !w.sched.pc.Kicking?
    requires d.proc.Up? && !d.proc.booting && Durability.Inv(d) && Serializing.Honours(w.store.history, d.proc.run)
    requires d.history == w.store.history + [Serializing.Recovered(d.proc.run)]
    requires Scheduler.Startable(states, timeouts, map[]) && forall n :: n in w.sched.slots <==> n in states
    ensures Scheduler.Startable(states, timeouts, d.proc.run)
    ensures Inv(World(Scheduler.Start(states, timeouts, d.proc.run), d, 0))
    ensures forall id :: id in d.proc.run && !states[d.proc.run[id].state].terminal ==>
              Scheduler.Start(states, timeouts, d.proc.run).pc == Scheduler.Enqueueing(d.proc.run.Keys)
  {
    var m := d.proc.run;
    CrashBetweenReturns(w, m);
    RecoveredIsStartable(w, m, states, timeouts);
    RecoveredIsPrepared(d, w.store.history);
    ExecStarts(d, states, timeouts);
  }

  /**
   * The same from the crash on: whatever constructions are tried, cut short or failing, and whatever calls
   * are made before Exec, as long as the one that succeeds is the last thing its callers have seen.
   */
  lemma RestartAfterCrash(w: World, acts: seq<Serializing.Action>, d: Serializing.Sys, states: Slots,
                          timeouts: map<string, Option<Timeout>>)
    requires Inv(w) && !w.sched.pc.Kicking?
    requires var down := w.store.(proc := Serializing.Down); Serializing.Orderly(down, acts) && Leads(down, acts, d)
    requires d.proc.Up? && !d.proc.booting
    requires d.history == w.store.history + [Serializing.Recovered(d.proc.run)]
    requires Scheduler.Startable(states, timeouts, map[]) && forall n :: n in w.sched.slots <==> n in states
    ensures Scheduler.Startable(states, timeouts, d.proc.run)
    ensures Inv(World(Scheduler.Start(states, timeouts, d.proc.run), d, 0))
    ensures forall id :: id in d.proc.run && !states[d.proc.run[id].state].terminal ==>
              Scheduler.Start(states, timeouts, d.proc.run).pc == Scheduler.Enqueueing(d.proc.run.Keys)
  {
    var down := w.store.(proc := Serializing.Down);
    Durability.StepKeeps(w.store, Serializing.Crash);
    OrderlyKeeps(down, acts, d);
    OrderlyHonours(down, acts, d, d.proc.run);
    RestartResumes(w, d, states, timeouts);
  }
}
