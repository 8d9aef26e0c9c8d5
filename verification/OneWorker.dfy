/** One job, one worker, and a state to be done in: the scheduler's steps written out, for runs given in full. */
module OneWorker {
  import opened Jobs
  import opened StateStorage
  import opened KickIds
  import opened Scheduler

  const WORK := "work"
  const DONE := "end"
  const ID := "a"
  const KID := Child(ID, 0)
  const STATES := map[WORK := Slot(false, 1, 0, 0, 0, [], []), DONE := Slot(true, 0, 0, 0, 0, [], [])]
  const TIMEOUTS: map<string, Option<Timeout>> := map[WORK := None, DONE := None]

  function Root(c: Payload): Job {
    Job(ID, c, WORK, map[])
  }

  /** The run a session begins with. */
  const ONE := map[ID := Root("c")]

  function Kicked(c: Payload): Job {
    KickedJob(KID, Kick(c, DONE))
  }

  function Working(executing: int, channel: seq<Job>): Slot {
    Slot(false, 1, 0, executing, 0, [], channel)
  }

  function Finished(n: int): Slot {
    Slot(true, 0, n, 0, 0, [], [])
  }

  /** `n` kicked jobs have been counted so far. */
  function Sys2(slot: Slot, n: int, work: Pool, jobs: map<string, Job>, returned: seq<Flight>, pc: Pc): Sys {
    Sys(TIMEOUTS, map[WORK := slot, DONE := Finished(n)], map[WORK := work, DONE := Pool([], [])], jobs, returned, pc)
  }

  /** The job is in its channel. */
  function Waiting(c: Payload, n: int, jobs: map<string, Job>, pc: Pc): Sys {
    Sys2(Working(1, [Root(c)]), n, Pool([], []), jobs, [], pc)
  }

  /** A worker has it. */
  function InWork(c: Payload, n: int, jobs: map<string, Job>, pc: Pc): Sys {
    Sys2(Working(1, []), n, Pool([Root(c)], []), jobs, [], pc)
  }

  /** A worker has its result. */
  function HasResult(f: Flight, n: int, jobs: map<string, Job>, pc: Pc): Sys {
    Sys2(Working(1, []), n, Pool([], [f]), jobs, [], pc)
  }

  /** The result is on its way, or with the central goroutine. */
  function Returning(n: int, jobs: map<string, Job>, returned: seq<Flight>, pc: Pc): Sys {
    Sys2(Working(1, []), n, Pool([], []), jobs, returned, pc)
  }

  /** The slot has been given back. */
  function Slack(n: int, jobs: map<string, Job>, pc: Pc): Sys {
    Sys2(Working(0, []), n, Pool([], []), jobs, [], pc)
  }

  /** Exec gives the job back with a new context and perhaps some kicks. */
  function Turn(c: Payload, kicks: seq<Kick>): Outcome {
    Outcome(c, WORK, kicks, NoError)
  }

  function Back(before: Payload, c: Payload, kicks: seq<Kick>): Flight {
    Flight(Root(before), Return(WORK, Root(c), kicks), false)
  }

  lemma NamesDiffer()
    ensures WORK != DONE
  {
    assert |WORK| != |DONE|;
  }

  lemma SlotUpdate(work: Slot, done: Slot, other: Slot)
    ensures var m := map[WORK := work, DONE := done];
            m[WORK := other] == map[WORK := other, DONE := done] && m[DONE := other] == map[WORK := work, DONE := other]
  {
    NamesDiffer();
  }

  lemma PoolUpdate(work: Pool, other: Pool)
    ensures map[WORK := work, DONE := Pool([], [])][WORK := other] == map[WORK := other, DONE := Pool([], [])]
  {
    NamesDiffer();
  }

  lemma TakeStep(c: Payload, n: int, jobs: map<string, Job>, pc: Pc)
    ensures Step(Waiting(c, n, jobs, pc), Take(WORK)) == Some(InWork(c, n, jobs, pc))
  {
    NamesDiffer();
    SlotUpdate(Working(1, [Root(c)]), Finished(n), Working(1, []));
    PoolUpdate(Pool([], []), Pool([Root(c)], []));
    assert [] + [Root(c)] == [Root(c)] && [Root(c)][1..] == [];
  }

  lemma ExecuteStep(before: Payload, c: Payload, kicks: seq<Kick>, n: int, jobs: map<string, Job>, pc: Pc)
    ensures Step(InWork(before, n, jobs, pc), Execute(WORK, 0, Turn(c, kicks)))
            == Some(HasResult(Back(before, c, kicks), n, jobs, pc))
  {
    var f := Back(before, c, kicks);
    NamesDiffer();
    PoolUpdate(Pool([Root(before)], []), Pool([], [f]));
    assert Drop([Root(before)], 0) == [] && [] + [f] == [f];
    assert Returned(InWork(before, n, jobs, pc), WORK, Root(before), Turn(c, kicks)) == f;
  }

  lemma SendStep(f: Flight, n: int, jobs: map<string, Job>, pc: Pc)
    ensures Step(HasResult(f, n, jobs, pc), Send(WORK, 0)) == Some(Returning(n, jobs, [f], pc))
  {
    NamesDiffer();
    PoolUpdate(Pool([], [f]), Pool([], []));
    assert Drop([f], 0) == [] && [] + [f] == [f];
  }

  lemma ReceiveStep(f: Flight, n: int, jobs: map<string, Job>, pc: Pc)
    requires pc.Selecting? || pc.Draining?
    ensures Step(Returning(n, jobs, [f], pc), Receive) == Some(Returning(n, jobs, [], Received(f)))
  {
    assert [f][1..] == [];
  }

  lemma FreeStep(f: Flight, n: int, jobs: map<string, Job>)
    requires f.ret.prior == WORK
    ensures Step(Returning(n, jobs, [], Received(f)), Free) == Some(Slack(n, jobs, Freed(f)))
  {
    NamesDiffer();
    SlotUpdate(Working(1, []), Finished(n), Working(0, []));
  }

  lemma PlaceStep(f: Flight, c: Payload, n: int, jobs: map<string, Job>)
    requires f.ret.job == Root(c)
    ensures Step(Slack(n, jobs, Freed(f)), Place)
            == Some(Waiting(c, n, jobs[ID := Root(c)], Kicking(f.ret, 0)))
  {
    NamesDiffer();
    SlotUpdate(Working(0, []), Finished(n), Working(1, [Root(c)]));
    assert [] + [Root(c)] == [Root(c)];
  }

  lemma KickStep(c: Payload, ret: Return, k: Payload, n: int, jobs: map<string, Job>)
    requires ret.job.id == ID && ret.kicks == [Kick(k, DONE)]
    ensures Step(Waiting(c, n, jobs, Kicking(ret, 0)), KickOne)
            == Some(Waiting(c, n + 1, jobs[KID := Kicked(k)], Kicking(ret, 1)))
  {
    NamesDiffer();
    SlotUpdate(Working(1, [Root(c)]), Finished(n), Finished(n + 1));
    assert NextKick(Kicking(ret, 0)) == Kicked(k);
  }

  lemma OneIsStartable()
    ensures Startable(STATES, TIMEOUTS, ONE) && !AllTerminal(STATES, ONE)
  {
    NamesDiffer();
    assert ID in ONE && ONE[ID].state == WORK;
    forall p, i: nat ensures Child(p, i) !in ONE {
      ChildHasArrow(p, i);
    }
  }

  lemma StartsSo()
    ensures Start(STATES, TIMEOUTS, ONE) == Slack(0, ONE, Enqueueing({ID}))
  {
    OneIsStartable();
    NamesDiffer();
    assert Start(STATES, TIMEOUTS, ONE).pools == map[WORK := Pool([], []), DONE := Pool([], [])];
    assert ONE.Keys == {ID};
  }

  lemma Begins()
    ensures Start(STATES, TIMEOUTS, ONE) == Slack(0, ONE, Enqueueing({ID}))
    ensures Step(Slack(0, ONE, Enqueueing({ID})), Enqueue(ID)) == Some(Waiting("c", 0, ONE, Selecting))
  {
    StartsSo();
    NamesDiffer();
    SlotUpdate(Working(0, []), Finished(0), Working(1, [Root("c")]));
    assert ID in ONE && ONE[ID] == Root("c");
    assert [] + [Root("c")] == [Root("c")] && {ID} - {ID} == {};
  }
}
