/**
 * Between a result received and the next one, handleReturn makes exactly the moves of CrashRestart: its
 * preconditions hold in every reachable world, and where it ends is where those moves lead.
 */
module ReturnMoves {
  import opened Jobs
  import opened StateStorage
  import opened Persisted
  import opened CrashRestart
  import opened Processing
  import opened Serializer
  import Serializing
  import Scheduler
  import SchedulerInvariant
  import SchedulerResults

  lemma FreeMove(w: World)
    requires Scheduler.CanFree(w.sched)
    ensures var f := w.sched.pc.flight;
            Move1(w, Schedule(Scheduler.Free)) ==
            Some(w.(sched := w.sched.(slots := NextRun(w.sched.slots, f.ret.prior), pc := Scheduler.Freed(f))))
  {
  }

  /** Where placing one more record leads. */
  ghost function Placing(w: World, j: Job, pc: Scheduler.Pc): World
    requires w.store.proc.Up? && j.state in w.sched.slots
  {
    World(Scheduler.Put(w.sched, j, pc),
          Serializing.Sys(w.store.disk, w.store.proc.(run := Apply(j, w.store.proc.run)),
                w.store.history + [Serializing.Updated(j)]), 0)
  }

  predicate Working(w: World) {
    w.store.proc.Up? && !w.store.proc.booting && w.store.proc.run == w.sched.jobs
  }

  lemma PlaceMove(w: World)
    requires Working(w) && Scheduler.CanPlace(w.sched)
    ensures Move1(w, Schedule(Scheduler.Place)) ==
            Some(Placing(w, w.sched.pc.flight.ret.job, Scheduler.Kicking(w.sched.pc.flight.ret, 0)))
  {
  }

  lemma KickMove(w: World)
    requires Working(w) && Scheduler.CanKick(w.sched)
    ensures var ret, next := w.sched.pc.ret, w.sched.pc.next;
            Move1(w, Schedule(Scheduler.KickOne)) ==
                  Some(Placing(w, Record(ret, next + 1), Scheduler.Kicking(ret, next + 1)))
  {
  }

  /** The world after the first `n` records of a return have been placed and told to the serializer. */
  ghost function AfterPlacing(w: World, ret: Return, n: nat): World
    requires ret.prior in w.sched.slots && CanRelease(ret.prior, w.sched.slots[ret.prior])
    requires w.store.proc.Up? && 0 < n <= |ret.kicks| + 1 && CanPutAll(NextRun(w.sched.slots, ret.prior), ret, n)
  {
    var jobs := UpdateAll(w.sched.jobs, ret, n);
    World(w.sched.(slots := PutAll(NextRun(w.sched.slots, ret.prior), ret, n), jobs := jobs,
          pc := Scheduler.Kicking(ret, n - 1)),
          Serializing.Sys(w.store.disk, w.store.proc.(run := jobs), Told(w.store.history, ret, n)), 0)
  }

  lemma PlacedFirst(w: World)
    requires Working(w) && w.logged == 0 && Scheduler.CanFree(w.sched)
    requires CanPutAll(NextRun(w.sched.slots, w.sched.pc.flight.ret.prior), w.sched.pc.flight.ret, 1)
    ensures Reaches(w, [Schedule(Scheduler.Free), Schedule(Scheduler.Place)], AfterPlacing(w, w.sched.pc.flight.ret, 1))
  {
    var f := w.sched.pc.flight;
    var m := w.(sched := w.sched.(slots := NextRun(w.sched.slots, f.ret.prior), pc := Scheduler.Freed(f)));
    FreeMove(w);
    ReachOn(w, [], w, Schedule(Scheduler.Free), m);
    PlaceMove(m);
    ReachOn(w, [] + [Schedule(Scheduler.Free)], m, Schedule(Scheduler.Place),
          Placing(m, f.ret.job, Scheduler.Kicking(f.ret, 0)));
    assert [] + [Schedule(Scheduler.Free)] + [Schedule(Scheduler.Place)] ==
          [Schedule(Scheduler.Free), Schedule(Scheduler.Place)];
    assert UpdateAll(w.sched.jobs, f.ret, 1) == Apply(f.ret.job, w.sched.jobs);
    assert Told(w.store.history, f.ret, 1) == w.store.history + [Serializing.Updated(f.ret.job)];
  }

  lemma {:induction false} PlacesAll(w: World, n: nat) returns (mvs: seq<Move>)
    requires Working(w) && w.logged == 0 && Scheduler.CanFree(w.sched)
    requires 0 < n <= |w.sched.pc.flight.ret.kicks| + 1
    requires CanPutAll(NextRun(w.sched.slots, w.sched.pc.flight.ret.prior), w.sched.pc.flight.ret, n)
    ensures Reaches(w, mvs, AfterPlacing(w, w.sched.pc.flight.ret, n))
    decreases n
  {
    var ret := w.sched.pc.flight.ret;
    if n == 1 {
      PlacedFirst(w);
      mvs := [Schedule(Scheduler.Free), Schedule(Scheduler.Place)];
    } else {
      mvs := PlacesAll(w, n - 1);
      var m := AfterPlacing(w, ret, n - 1);
      KickMove(m);
      ReachOn(w, mvs, m, Schedule(Scheduler.KickOne), AfterPlacing(w, ret, n));
      mvs := mvs + [Schedule(Scheduler.KickOne)];
    }
  }

  // ---- In every reachable world ----

  lemma RoomIn(w: World)
    requires Inv(w)
    ensures w.sched.pc.Freed? ==> Scheduler.CanPlace(w.sched)
    ensures w.sched.pc.Kicking? && w.sched.pc.next < |w.sched.pc.ret.kicks| ==> Scheduler.CanKick(w.sched)
    ensures w.sched.pc.Received? ==> Scheduler.CanFree(w.sched) && Working(w) && w.logged == 0
  {
    SchedulerResults.CentralNeverBlocks(w.sched);
  }

  lemma RoomLater(w: World, mvs: seq<Move>, v: World)
    requires Inv(w) && Reaches(w, mvs, v)
    ensures v.sched.pc.Freed? ==> Scheduler.CanPlace(v.sched)
    ensures v.sched.pc.Kicking? && v.sched.pc.next < |v.sched.pc.ret.kicks| ==> Scheduler.CanKick(v.sched)
  {
    MovesKeep(w, mvs, "");
    RoomIn(v);
  }

  lemma RoomForJob(w: World)
    requires Inv(w) && w.sched.pc.Received? && Scheduler.CanFree(w.sched)
    ensures CanPutAll(NextRun(w.sched.slots, w.sched.pc.flight.ret.prior), w.sched.pc.flight.ret, 1)
  {
    var f := w.sched.pc.flight;
    var m := w.(sched := w.sched.(slots := NextRun(w.sched.slots, f.ret.prior), pc := Scheduler.Freed(f)));
    FreeMove(w);
    ReachOn(w, [], w, Schedule(Scheduler.Free), m);
    RoomLater(w, [] + [Schedule(Scheduler.Free)], m);
    assert CanPutAll(m.sched.slots, f.ret, 0);
  }

  lemma RoomForKick(w: World, n: nat)
    requires Inv(w) && Working(w) && w.logged == 0 && Scheduler.CanFree(w.sched)
    requires 0 < n <= |w.sched.pc.flight.ret.kicks|
    requires CanPutAll(NextRun(w.sched.slots, w.sched.pc.flight.ret.prior), w.sched.pc.flight.ret, n)
    ensures CanPutAll(NextRun(w.sched.slots, w.sched.pc.flight.ret.prior), w.sched.pc.flight.ret, n + 1)
  {
    var v := AfterPlacing(w, w.sched.pc.flight.ret, n);
    var mvs := PlacesAll(w, n);
    RoomLater(w, mvs, v);
    RoomShown(w, n);
  }

  lemma RoomShown(w: World, n: nat)
    requires Working(w) && Scheduler.CanFree(w.sched) && 0 < n <= |w.sched.pc.flight.ret.kicks|
    requires CanPutAll(NextRun(w.sched.slots, w.sched.pc.flight.ret.prior), w.sched.pc.flight.ret, n)
    requires Scheduler.CanKick(AfterPlacing(w, w.sched.pc.flight.ret, n).sched)
    ensures CanPutAll(NextRun(w.sched.slots, w.sched.pc.flight.ret.prior), w.sched.pc.flight.ret, n + 1)
  {
  }

  lemma RoomForAll(w: World)
    requires Inv(w) && Working(w) && w.logged == 0 && Scheduler.CanFree(w.sched)
    requires CanPutAll(NextRun(w.sched.slots, w.sched.pc.flight.ret.prior), w.sched.pc.flight.ret, 1)
    ensures CanPutAll(NextRun(w.sched.slots, w.sched.pc.flight.ret.prior), w.sched.pc.flight.ret,
            |w.sched.pc.flight.ret.kicks| + 1)
  {
    var ret := w.sched.pc.flight.ret;
    for n := 1 to |ret.kicks| + 1
      invariant CanPutAll(NextRun(w.sched.slots, ret.prior), ret, n)
    {
      RoomForKick(w, n);
    }
  }

  /** The preconditions of HandleReturn hold whenever a result has been received. */
  lemma HandleReturnIsReady(w: World)
    requires Inv(w) && w.sched.pc.Received?
    ensures Scheduler.CanFree(w.sched) && Working(w) && w.logged == 0
    ensures CanPutAll(NextRun(w.sched.slots, w.sched.pc.flight.ret.prior), w.sched.pc.flight.ret,
            |w.sched.pc.flight.ret.kicks| + 1)
  {
    RoomIn(w);
    RoomForJob(w);
    RoomForAll(w);
  }

  // ---- The log ----

  predicate Appendable(d: Serializing.Sys) {
    d.proc.Up? && !d.proc.booting && d.proc.phase.Idle? && d.proc.open && d.disk.active.Some?
  }

  ghost function AfterLogging(d: Serializing.Sys, ret: Return, n: nat): Serializing.Sys
    requires n <= |ret.kicks| + 1 && d.disk.active.Some?
  {
    Serializing.Sys(d.disk.(active := Some(d.disk.active.value + Records(ret, n))), d.proc, Promised(d.history, ret, n))
  }

  lemma LogMove(w: World)
    requires AllKicked(w) && w.logged <= |w.sched.pc.ret.kicks| && Appendable(w.store)
    ensures var j := Record(w.sched.pc.ret, w.logged);
            Move1(w, Log) ==
            Some(World(w.sched, Serializing.Sys(w.store.disk.(active := Some(w.store.disk.active.value + [j])),
                  w.store.proc,
                                                w.store.history + [Serializing.Acknowledged(j)]), w.logged + 1))
  {
  }

  lemma {:induction false} LogsAll(w: World, n: nat) returns (mvs: seq<Move>)
    requires AllKicked(w) && w.logged == 0 && Appendable(w.store) && n <= |w.sched.pc.ret.kicks| + 1
    ensures Reaches(w, mvs, World(w.sched, AfterLogging(w.store, w.sched.pc.ret, n), n))
    decreases n
  {
    var ret := w.sched.pc.ret;
    if n == 0 {
      mvs := [];
      assert w.store.disk.active.value + [] == w.store.disk.active.value;
    } else {
      mvs := LogsAll(w, n - 1);
      var m := World(w.sched, AfterLogging(w.store, ret, n - 1), n - 1);
      LogMove(m);
      OneMoreRecord(ret, n - 1, w.store.disk.active.value);
      ReachOn(w, mvs, m, Log, World(w.sched, AfterLogging(w.store, ret, n), n));
      mvs := mvs + [Log];
    }
  }

  /** The world once the whole return has been placed, logged, and left. */
  ghost function AfterReturn(w: World): World
    requires w.sched.pc.Received? && Scheduler.CanFree(w.sched) && Appendable(w.store)
    requires CanPutAll(NextRun(w.sched.slots, w.sched.pc.flight.ret.prior), w.sched.pc.flight.ret,
            |w.sched.pc.flight.ret.kicks| + 1)
  {
    var ret := w.sched.pc.flight.ret;
    var m := AfterPlacing(w, ret, |ret.kicks| + 1);
    World(m.sched.(pc := Scheduler.Draining), AfterLogging(m.store, ret, |ret.kicks| + 1), 0)
  }

  lemma PersistMove(w: World)
    requires AllKicked(w) && w.logged == |w.sched.pc.ret.kicks| + 1
    ensures Move1(w, Schedule(Scheduler.Persist)) == Some(World(w.sched.(pc := Scheduler.Draining), w.store, 0))
  {
  }

  /** handleReturn as one stretch of moves. */
  lemma HandleReturnMoves(w: World) returns (mvs: seq<Move>)
    requires Working(w) && w.logged == 0 && Appendable(w.store) && Scheduler.CanFree(w.sched)
    requires CanPutAll(NextRun(w.sched.slots, w.sched.pc.flight.ret.prior), w.sched.pc.flight.ret,
            |w.sched.pc.flight.ret.kicks| + 1)
    ensures Reaches(w, mvs, AfterReturn(w))
  {
    var ret := w.sched.pc.flight.ret;
    var n := |ret.kicks| + 1;
    mvs := PlacesAll(w, n);
    var m := AfterPlacing(w, ret, n);
    var more := LogsAll(m, n);
    var u := World(m.sched, AfterLogging(m.store, ret, n), n);
    ReachFurther(w, mvs, m, more, u);
    mvs := mvs + more;
    PersistMove(u);
    ReachOn(w, mvs, u, Schedule(Scheduler.Persist), AfterReturn(w));
    mvs := mvs + [Schedule(Scheduler.Persist)];
  }

  /** The storage and the serializer of the processor are as in `w`. */
  ghost predicate InWorld(p: Processor, w: World)
    reads p.storage, p.store, p.store.dir
  {
    p.Valid() && w.sched.slots == p.storage.slots && w.store == p.store.Now()
  }

  /**
   * Handling a received result in any reachable world: the call is allowed, it succeeds exactly when no
   * append fails, and then the processor shows the world that the moves of the step system lead to.
   */
  method HandleReceived(p: Processor, c: Return, faults: seq<AppendFaults>, ghost w: World)
    returns (r: Serializing.Result, changed: bool, ghost mvs: seq<Move>, ghost v: World)
    requires InWorld(p, w) && w.sched.pc.Received? && w.sched.pc.flight.ret == c && p.store.appendFile
    requires Scheduler.CanFree(w.sched) && Working(w) && w.logged == 0
    requires CanPutAll(NextRun(w.sched.slots, c.prior), c, |c.kicks| + 1) && |faults| == |c.kicks| + 1
    modifies p.storage, p.store`run, p.store.dir
    ensures r.Done? <==> forall i :: 0 <= i < |faults| ==> !faults[i].encode && !faults[i].sync
    ensures r.Done? ==> InWorld(p, v) && Reaches(w, mvs, v) && v.sched.pc.Draining?
  {
    mvs := HandleReturnMoves(w);
    v := AfterReturn(w);
    r, changed := p.HandleReturn(c, faults);
  }

  /** The check at the end of a drained batch (lines 366-370) exits exactly when the step system does. */
  method ExitCheck(p: Processor, ghost w: World) returns (exit: bool)
    requires InWorld(p, w) && Working(w)
    requires forall id :: id in w.sched.jobs ==> w.sched.jobs[id].state in w.sched.slots
    ensures exit <==> Scheduler.AfterDrained(w.sched).pc.Exited?
  {
    ShowsStates(p.storage.stateMap, p.storage.statusMap, p.storage.waitingJobs, p.storage.channels, p.storage.slots);
    exit := p.storage.AllJobsAreTerminal(p.store.run);
    if exit {
      var any := p.storage.HasExecutingJobs();
      exit := !any;
    }
  }

  // ---- The first lines of process ----

  /** However far the enqueueing has come, there is room for the next job. */
  ghost predicate Roomy(s: Scheduler.Sys) {
    forall acts :: Scheduler.Follows(s, acts) ==>
          Scheduler.Run(s, acts).Some? && RoomForTodo(Scheduler.Run(s, acts).value)
  }

  ghost predicate RoomForTodo(t: Scheduler.Sys) {
    t.pc.Enqueueing? ==> forall id :: id in t.pc.todo ==> Scheduler.CanEnqueue(t, id)
  }

  lemma ReachableIsRoomy(s: Scheduler.Sys)
    requires SchedulerInvariant.Inv(s)
    ensures Roomy(s)
  {
    forall acts | Scheduler.Follows(s, acts)
      ensures Scheduler.Run(s, acts).Some? && RoomForTodo(Scheduler.Run(s, acts).value)
    {
      SchedulerResults.RunKeeps(s, acts);
      SchedulerResults.CentralNeverBlocks(Scheduler.Run(s, acts).value);
    }
  }

  lemma EnqueueOn(s: Scheduler.Sys, acts: seq<Scheduler.Action>, t: Scheduler.Sys, id: string)
    requires Scheduler.Follows(s, acts) && Scheduler.Run(s, acts) == Some(t) && Scheduler.CanEnqueue(t, id)
    ensures Scheduler.Follows(s, acts + [Scheduler.Enqueue(id)])
    ensures Scheduler.Run(s, acts + [Scheduler.Enqueue(id)]) == Some(Scheduler.AfterEnqueue(t, id))
  {
    assert (acts + [Scheduler.Enqueue(id)])[..|acts|] == acts;
  }

  /** The jobs of the run in whatever order the map is ranged over; afterwards the loop waits for results. */
  method EnqueueAll(storage: Storage, jobs: Store, ghost s: Scheduler.Sys)
    returns (ghost acts: seq<Scheduler.Action>, ghost t: Scheduler.Sys)
    requires storage.Consistent() && storage.slots == s.slots && s.jobs == jobs
    requires Roomy(s) && s.pc == Scheduler.Enqueueing(jobs.Keys) && jobs != map[]
    modifies storage
    ensures Scheduler.Follows(s, acts) && Scheduler.Run(s, acts) == Some(t)
    ensures storage.Consistent() && storage.slots == t.slots && t.jobs == jobs && t.pc.Selecting?
  {
    var todo := jobs.Keys;
    acts, t := [], s;
    while todo != {}
      invariant todo <= jobs.Keys && storage.Consistent() && storage.slots == t.slots && t.jobs == jobs
      invariant Scheduler.Follows(s, acts) && Scheduler.Run(s, acts) == Some(t)
      invariant t.pc == if todo == {} then Scheduler.Selecting else Scheduler.Enqueueing(todo)
      decreases |todo|
    {
      var id :| id in todo;
      assert RoomForTodo(t);
      EnqueueOn(s, acts, t, id);
      storage.ProcessJob(jobs[id]);
      acts, t := acts + [Scheduler.Enqueue(id)], Scheduler.AfterEnqueue(t, id);
      todo := todo - {id};
    }
  }
}
