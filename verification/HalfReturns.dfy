/**
 * A crash inside a handleReturn call (processor.go: 374-420), between the publication of a checkpoint that
 * runs beside it and the removal of the sealed log: the recovered run can hold the job's old value beside
 * a job it has already kicked.
 */
module HalfReturns {
  import opened Jobs
  import opened KickIds
  import opened Persisted
  import opened OneWorker
  import opened CrashRestart
  import opened Serializing
  import Durability
  import opened DurabilityResults
  import Stretches
  import Limits = DurabilityLimits
  import Scheduler

  // ---- Which disks do this ----

  /**
   * With nothing logged of a kicked job, as long as its handleReturn call has not come to that, a recovery
   * finds the kicked job without the value its parent kicked it with exactly when the checkpoint holds the
   * kicked job and the parent's value is older in the log, or missing in both.
   */
  lemma HalfReturnExactly(d: Disk, parent: Job, kid: string)
    requires LastLine(Persisted.Log(d), kid) == None
    ensures var m, last := Recoverable(d), LastLine(Persisted.Log(d), parent.id);
            kid in m && !Holds(m, parent) <==>
            kid in Base(d.main) && (if last.Some? then last.value != parent else !Holds(Base(d.main), parent))
  {
    LastWriterWins(Persisted.Log(d), Base(d.main), kid);
    LastWriterWins(Persisted.Log(d), Base(d.main), parent.id);
  }

  // ---- A run that ends so ----

  lemma Quietly(w0: World, mvs: seq<Move>, w: World, a: Scheduler.Action, t: Scheduler.Sys) returns (more: seq<Move>)
    requires Reaches(w0, mvs, w) && Scheduler.Step(w.sched, a) == Some(t)
    requires Placed(w.sched, a) == None && !a.Persist? && Scheduler.Contract(w.sched, a)
    ensures Reaches(w0, more, w.(sched := t))
  {
    ReachOn(w0, mvs, w, Schedule(a), w.(sched := t));
    more := mvs + [Schedule(a)];
  }

  lemma Beside(w0: World, mvs: seq<Move>, w: World, a: Action, d: Sys) returns (more: seq<Move>)
    requires Reaches(w0, mvs, w) && OfCheckpoint(a) && Step(w.store, a) == Some(d)
    ensures Reaches(w0, more, w.(store := d))
  {
    ReachOn(w0, mvs, w, Background(a), w.(store := d));
    more := mvs + [Background(a)];
  }

  /** Where the one worker's session begins: a run just recovered from an empty directory, and one job added. */
  const STORE := Sys(Limits.Flat(map[], false), Up(false, ONE, true, 0, Idle), [Recovered(map[]), Updated(Root("c"))])

  ghost const BEGIN := World(Scheduler.Start(STATES, TIMEOUTS, ONE), STORE, 0)

  lemma ReadyPrepared()
    ensures Prepared(Limits.READY)
  {
    var acts := Limits.FirstBoot(false);
    Durability.EmptyLog(FRESH);
    StartInv();
    Stretches.OrderlyKeeps(START, acts, Limits.READY);
    assert [] + [Recovered(map[])] == Limits.READY.history;
    RecoveredIsPrepared(Limits.READY, []);
  }

  lemma BeginInv()
    ensures Inv(BEGIN)
  {
    ReadyPrepared();
    AddJobKeepsPrepared(Limits.READY, Root("c"));
    assert Apply(Root("c"), map[]) == ONE;
    assert [Recovered(map[])] + [Updated(Root("c"))] == STORE.history;
    OneIsStartable();
    ExecStarts(STORE, STATES, TIMEOUTS);
  }

  /** From the channel to the central goroutine, its slot given back. */
  lemma Turns(w0: World, mvs: seq<Move>, store: Sys, n: int, jobs: Store, pc: Scheduler.Pc,
              before: Payload, c: Payload, kicks: seq<Kick>) returns (more: seq<Move>)
    requires Reaches(w0, mvs, World(Waiting(before, n, jobs, pc), store, 0)) && (pc.Selecting? || pc.Draining?)
    requires (forall k :: k in kicks ==> k.state == DONE) && (kicks != [] ==> KID !in jobs)
    ensures Reaches(w0, more, World(Slack(n, jobs, Scheduler.Freed(Back(before, c, kicks))), store, 0))
  {
    var f := Back(before, c, kicks);
    NamesDiffer();
    TakeStep(before, n, jobs, pc);
    more := Quietly(w0, mvs, World(Waiting(before, n, jobs, pc), store, 0), Scheduler.Take(WORK),
          InWork(before, n, jobs, pc));
    ExecuteStep(before, c, kicks, n, jobs, pc);
    more := Quietly(w0, more, World(InWork(before, n, jobs, pc), store, 0), Scheduler.Execute(WORK, 0, Turn(c, kicks)),
                    HasResult(f, n, jobs, pc));
    SendStep(f, n, jobs, pc);
    more := Quietly(w0, more, World(HasResult(f, n, jobs, pc), store, 0), Scheduler.Send(WORK, 0),
          Returning(n, jobs, [f], pc));
    ReceiveStep(f, n, jobs, pc);
    more := Quietly(w0, more, World(Returning(n, jobs, [f], pc), store, 0), Scheduler.Receive,
                    Returning(n, jobs, [], Scheduler.Received(f)));
    FreeStep(f, n, jobs);
    more := Quietly(w0, more, World(Returning(n, jobs, [], Scheduler.Received(f)), store, 0), Scheduler.Free,
                    Slack(n, jobs, Scheduler.Freed(f)));
  }

  function WithEvent(store: Sys, run: Store, e: Event): Sys
    requires store.proc.Up?
  {
    Sys(store.disk, store.proc.(run := run), store.history + [e])
  }

  lemma Places(w0: World, mvs: seq<Move>, store: Sys, jobs: Store, before: Payload, c: Payload, kicks: seq<Kick>)
    returns (more: seq<Move>)
    requires Reaches(w0, mvs, World(Slack(0, jobs, Scheduler.Freed(Back(before, c, kicks))), store, 0))
    requires store.proc.Up? && !store.proc.booting && store.proc.run == jobs
    ensures Reaches(w0, more,
                    World(Waiting(c, 0, jobs[ID := Root(c)], Scheduler.Kicking(Back(before, c, kicks).ret, 0)),
                          WithEvent(store, jobs[ID := Root(c)], Updated(Root(c))), 0))
  {
    var f := Back(before, c, kicks);
    PlaceStep(f, c, 0, jobs);
    var w := World(Slack(0, jobs, Scheduler.Freed(f)), store, 0);
    var v := World(Waiting(c, 0, jobs[ID := Root(c)], Scheduler.Kicking(f.ret, 0)),
          WithEvent(store, jobs[ID := Root(c)], Updated(Root(c))), 0);
    ReachOn(w0, mvs, w, Schedule(Scheduler.Place), v);
    more := mvs + [Schedule(Scheduler.Place)];
  }

  lemma KicksOne(w0: World, mvs: seq<Move>, store: Sys, jobs: Store, before: Payload, c: Payload, k: Payload)
    returns (more: seq<Move>)
    requires var ret := Back(before, c, [Kick(k, DONE)]).ret;
             Reaches(w0, mvs, World(Waiting(c, 0, jobs, Scheduler.Kicking(ret, 0)), store, 0))
    requires store.proc.Up? && !store.proc.booting && store.proc.run == jobs
    ensures var ret := Back(before, c, [Kick(k, DONE)]).ret;
            Reaches(w0, more,
                    World(Waiting(c, 1, jobs[KID := Kicked(k)], Scheduler.Kicking(ret, 1)),
                          WithEvent(store, jobs[KID := Kicked(k)], Updated(Kicked(k))), 0))
  {
    var ret := Back(before, c, [Kick(k, DONE)]).ret;
    KickStep(c, ret, k, 0, jobs);
    var w := World(Waiting(c, 0, jobs, Scheduler.Kicking(ret, 0)), store, 0);
    var v := World(Waiting(c, 1, jobs[KID := Kicked(k)], Scheduler.Kicking(ret, 1)),
                   WithEvent(store, jobs[KID := Kicked(k)], Updated(Kicked(k))), 0);
    ReachOn(w0, mvs, w, Schedule(Scheduler.KickOne), v);
    more := mvs + [Schedule(Scheduler.KickOne)];
  }

  lemma LogsAndLeaves(w0: World, mvs: seq<Move>, store: Sys, jobs: Store, before: Payload, c: Payload)
    returns (more: seq<Move>)
    requires Reaches(w0, mvs, World(Waiting(c, 0, jobs, Scheduler.Kicking(Back(before, c, []).ret, 0)), store, 0))
    requires Ready(store) && store.proc.open && store.disk.active == Some([])
    ensures Reaches(w0, more, World(Waiting(c, 0, jobs, Scheduler.Draining), Logged(store, Root(c)), 0))
  {
    var w := World(Waiting(c, 0, jobs, Scheduler.Kicking(Back(before, c, []).ret, 0)), store, 0);
    assert [] + [Root(c)] == [Root(c)];
    var v := World(w.sched, Logged(store, Root(c)), 1);
    ReachOn(w0, mvs, w, Move.Log, v);
    more := Leaves(w0, mvs + [Move.Log], v.store, jobs, before, c);
  }

  lemma Leaves(w0: World, mvs: seq<Move>, store: Sys, jobs: Store, before: Payload, c: Payload)
    returns (more: seq<Move>)
    requires Reaches(w0, mvs, World(Waiting(c, 0, jobs, Scheduler.Kicking(Back(before, c, []).ret, 0)), store, 1))
    ensures Reaches(w0, more, World(Waiting(c, 0, jobs, Scheduler.Draining), store, 0))
  {
    var v := World(Waiting(c, 0, jobs, Scheduler.Kicking(Back(before, c, []).ret, 0)), store, 1);
    ReachOn(w0, mvs, v, Schedule(Scheduler.Persist), World(Waiting(c, 0, jobs, Scheduler.Draining), store, 0));
    more := mvs + [Schedule(Scheduler.Persist)];
  }

  function Logged(store: Sys, j: Job): Sys {
    Sys(store.disk.(active := Some([j])), store.proc, store.history + [Acknowledged(j)])
  }

  /** The first return, without kicks, is placed, logged and left. */
  const RUN1 := ONE[ID := Root("c1")]
  const STORE1 := Logged(WithEvent(STORE, RUN1, Updated(Root("c1"))), Root("c1"))

  lemma FirstReturn() returns (mvs: seq<Move>)
    ensures Reaches(BEGIN, mvs, World(Waiting("c1", 0, RUN1, Scheduler.Draining), STORE1, 0))
  {
    Begins();
    mvs := Quietly(BEGIN, [], BEGIN, Scheduler.Enqueue(ID), Waiting("c", 0, ONE, Scheduler.Selecting));
    mvs := Turns(BEGIN, mvs, STORE, 0, ONE, Scheduler.Selecting, "c", "c1", []);
    mvs := Places(BEGIN, mvs, STORE, ONE, "c", "c1", []);
    mvs := LogsAndLeaves(BEGIN, mvs, WithEvent(STORE, RUN1, Updated(Root("c1"))), RUN1, "c", "c1");
  }

  /** The second return, which kicks, is placed; nothing of it is logged yet. */
  const SECOND := Back("c1", "c2", [Kick("k", DONE)]).ret
  const RUN2 := RUN1[ID := Root("c2")]
  const RUN3 := RUN2[KID := Kicked("k")]
  const STORE2 := WithEvent(STORE1, RUN2, Updated(Root("c2")))
  const STORE3 := WithEvent(STORE2, RUN3, Updated(Kicked("k")))

  lemma SecondReturn() returns (mvs: seq<Move>)
    ensures Reaches(BEGIN, mvs, World(Waiting("c2", 1, RUN3, Scheduler.Kicking(SECOND, 1)), STORE3, 0))
  {
    var kicks := [Kick("k", DONE)];
    ChildHasArrow(ID, 0);
    mvs := FirstReturn();
    mvs := Turns(BEGIN, mvs, STORE1, 0, RUN1, Scheduler.Draining, "c1", "c2", kicks);
    mvs := Places(BEGIN, mvs, STORE1, RUN1, "c1", "c2", kicks);
    mvs := KicksOne(BEGIN, mvs, STORE2, RUN2, "c1", "c2", "k");
  }

  /** Beside it a checkpoint has sealed the log and published memory, and has not removed anything yet. */
  lemma PublishedBeside(w0: World, mvs: seq<Move>, w: World, lines: seq<Job>) returns (more: seq<Move>, v: World)
    requires Reaches(w0, mvs, w) && Ready(w.store) && w.store.proc.sealSeq == 0
    requires w.store.disk.sealed == map[] && w.store.disk.active == Some(lines)
    ensures Reaches(w0, more, v) && v.sched == w.sched && v.store.history == w.store.history
    ensures v.store.disk == Disk(Whole(w.store.proc.run), Missing, w.store.disk.backup, map[1 := lines], None)
  {
    var run, h, d := w.store.proc.run, w.store.history, w.store.disk;
    var s1 := Sys(d, Up(false, run, false, 0, Rotating), h);
    more := Beside(w0, mvs, w, StartCheckpoint, s1);
    var e := d.(sealed := map[1 := lines], active := None);
    assert map[][1 := lines] == map[1 := lines];
    var s2 := Sys(e, Up(false, run, false, 1, Snapshotting), h);
    more := Beside(w0, more, w.(store := s1), Rotate(true, Done), s2);
    var s3 := At(s2, Opening(run));
    more := Beside(w0, more, w.(store := s2), Snapshot, s3);
    more, v := PublishedOn(w0, more, w.(store := s3), run);
  }

  lemma PublishedOn(w0: World, mvs: seq<Move>, w: World, run: Store) returns (more: seq<Move>, v: World)
    requires Reaches(w0, mvs, w) && InPhase(w.store, Opening(run))
    ensures v == w.(store := SetFile(w.store, w.store.disk.(main := Whole(run), tmp := Missing), Deleting(run)))
    ensures Reaches(w0, more, v)
  {
    var s := w.store;
    var s1 := SetFile(s, s.disk.(tmp := Partial), Encoding(run));
    more := Beside(w0, mvs, w, OpenTmp(Done), s1);
    var s2 := SetFile(s1, s1.disk.(tmp := Whole(run)), Syncing(run));
    more := Beside(w0, more, w.(store := s1), Encode(Done), s2);
    more, v := PublishedLast(w0, more, w.(store := s2), run);
  }

  lemma PublishedLast(w0: World, mvs: seq<Move>, w: World, run: Store) returns (more: seq<Move>, v: World)
    requires Reaches(w0, mvs, w) && InPhase(w.store, Syncing(run)) && w.store.disk.tmp == Whole(run)
    ensures v == w.(store := SetFile(w.store, w.store.disk.(main := Whole(run), tmp := Missing), Deleting(run)))
    ensures Reaches(w0, more, v)
  {
    var s := At(w.store, Renaming(run));
    more := Beside(w0, mvs, w, SyncClose(Done), s);
    v := w.(store := SetFile(w.store, w.store.disk.(main := Whole(run), tmp := Missing), Deleting(run)));
    more := Beside(w0, more, w.(store := s), Publish(Done), v.store);
  }

  /** What is recovered: the parent as its first return left it, beside the job its second return kicked. */
  const REVIVED := RUN3[ID := Root("c1")]

  lemma RecoversRevived(d: Disk)
    requires d.main == Whole(RUN3) && d.sealed == map[1 := [Root("c1")]] && d.active == None
    ensures Recoverable(d) == REVIVED
  {
    OneSealed(1, [Root("c1")]);
    assert Persisted.Log(d) == [Root("c1")] && [Root("c1")][..0] == [];
    assert Replay([Root("c1")], RUN3) == Apply(Root("c1"), Replay([], RUN3));
  }

  lemma RevivedKids()
    ensures Scheduler.KidsClosed(REVIVED)
  {
    forall p, i: nat, j: nat | j <= i && Child(p, i) in REVIVED ensures Child(p, j) in REVIVED {
      ChildHasArrow(p, i);
      ChildInjective(p, i, ID, 0);
    }
  }

  lemma RevivedIsStartable()
    ensures Scheduler.Startable(STATES, TIMEOUTS, REVIVED)
  {
    NamesDiffer();
    OneIsStartable();
    RevivedKids();
  }

  lemma CrashWorld() returns (mvs: seq<Move>, v: World)
    ensures Reaches(BEGIN, mvs, v) && v.sched == Waiting("c2", 1, RUN3, Scheduler.Kicking(SECOND, 1))
    ensures v.store.disk == Disk(Whole(RUN3), Missing, Missing, map[1 := [Root("c1")]], None)
  {
    var w := World(Waiting("c2", 1, RUN3, Scheduler.Kicking(SECOND, 1)), STORE3, 0);
    mvs := SecondReturn();
    mvs, v := PublishedBeside(BEGIN, mvs, w, [Root("c1")]);
  }

  lemma HonoursThere(mvs: seq<Move>, v: World)
    requires Reaches(BEGIN, mvs, v) && v.store.disk.main.Whole?
    ensures Inv(BEGIN) && Honours(v.store.history, Recoverable(v.store.disk))
  {
    BeginInv();
    MovesKeep(BEGIN, mvs, "");
  }

  /** The recovered run beside the one in memory, and what Exec starts from. */
  lemma RevivedValues()
    ensures Holds(RUN3, Root("c2")) && Holds(REVIVED, Root("c1")) && KID in RUN3 && KID in REVIVED
    ensures Scheduler.HasKicked(Scheduler.Start(STATES, TIMEOUTS, REVIVED), ID)
  {
    ChildHasArrow(ID, 0);
  }

  /**
   * A lawful session in which the crash strikes between the publication and the removal: all the callers
   * have been promised is kept, and yet the next Exec starts from a run in which the parent is about to do
   * again what it kicked for (RevivedValues), so that the same Exec function, giving the same result, kicks
   * a second time.
   */
  lemma ParentKicksAgain() returns (mvs: seq<Move>, v: World)
    ensures Inv(BEGIN) && Reaches(BEGIN, mvs, v)
    ensures v.sched.jobs == RUN3 && v.sched.pc == Scheduler.Kicking(SECOND, 1)
    ensures Recoverable(v.store.disk) == REVIVED && Honours(v.store.history, REVIVED)
    ensures Scheduler.Startable(STATES, TIMEOUTS, REVIVED)
  {
    mvs, v := CrashWorld();
    HonoursThere(mvs, v);
    RecoversRevived(v.store.disk);
    RevivedIsStartable();
  }

  /** Indeed no contract-keeping run lets it. */
  lemma SecondKickBreaksContract(s: Scheduler.Sys, n: string, i: nat, o: Outcome)
    requires n in s.pools && i < |s.pools[n].running| && o.kicks != []
    requires Scheduler.HasKicked(s, s.pools[n].running[i].id)
    ensures !Scheduler.Contract(s, Scheduler.Execute(n, i, o))
  {
  }
}
