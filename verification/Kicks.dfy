/** Kicked ids over whole runs: when they are new, and what a second return with kicks does. */
module Kicks {
  import opened Jobs
  import opened StateStorage
  import opened KickIds
  import opened Scheduler
  import opened SchedulerInvariant
  import opened SchedulerSteps
  import opened SchedulerResults
  import opened OneWorker

  /**
   * In a run that keeps the contract the id of every kicked job is new, for trees of any depth and width
   * and whatever ids the run began with, as long as they leave no gaps among siblings.
   */
  lemma KickedIdsAreNew(states: Slots, timeouts: map<string, Option<Timeout>>, jobs: map<string, Job>,
        acts: seq<Action>)
    requires Startable(states, timeouts, jobs) && Follows(Start(states, timeouts, jobs), acts)
    ensures var s := Run(Start(states, timeouts, jobs), acts);
            s.Some? && (CanKick(s.value) ==> NextKick(s.value.pc).id !in s.value.jobs)
  {
    StartOk(states, timeouts, jobs);
    RunKeeps(Start(states, timeouts, jobs), acts);
    var s := Run(Start(states, timeouts, jobs), acts).value;
    if CanKick(s) {
      KickIsFresh(s);
    }
  }

  // ---- Without the promise to kick only once ----

  ghost predicate SlotKnown(jobs: map<string, Job>, sl: Slot) {
    forall j :: j in sl.queue || j in sl.channel ==> j.id in jobs
  }

  ghost predicate PoolKnown(jobs: map<string, Job>, p: Pool) {
    && (forall i :: 0 <= i < |p.running| ==> p.running[i].id in jobs)
    && (forall i :: 0 <= i < |p.done| ==> p.done[i].ret.job.id in jobs)
  }

  ghost predicate ReturnsKnown(jobs: map<string, Job>, s: Sys) {
    && (forall i :: 0 <= i < |s.returned| ==> s.returned[i].ret.job.id in jobs)
    && (s.pc.Received? || s.pc.Freed? ==> s.pc.flight.ret.job.id in jobs)
  }

  /** Whatever Exec functions return, every job anywhere has its id in the run. */
  ghost predicate IdsKnown(s: Sys) {
    && Keyed(s.jobs) && ReturnsKnown(s.jobs, s)
    && (forall n :: n in s.slots ==> SlotKnown(s.jobs, s.slots[n]))
    && (forall n :: n in s.pools ==> PoolKnown(s.jobs, s.pools[n]))
  }

  /** And kicks are handled from the first on. */
  ghost predicate KicksInOrder(s: Sys) {
    && KidsClosed(s.jobs)
    && (s.pc.Kicking? ==>
          && s.pc.next <= |s.pc.ret.kicks|
          && forall i: nat :: i < s.pc.next ==> Child(s.pc.ret.job.id, i) in s.jobs)
  }

  lemma ArriveKnown(jobs: map<string, Job>, sl: Slot, j: Job)
    requires SlotKnown(jobs, sl) && j.id in jobs
    ensures SlotKnown(jobs, Arrive(sl, j))
  {
  }

  lemma RunNextKnown(jobs: map<string, Job>, sl: Slot)
    requires SlotKnown(jobs, sl)
    ensures SlotKnown(jobs, RunNext(sl))
  {
    if sl.queue != [] {
      assert sl.queue[|sl.queue| - 1] in sl.queue;
    }
  }

  lemma TakeKnown(s: Sys, n: string)
    requires IdsKnown(s) && CanTake(s, n)
    ensures IdsKnown(AfterTake(s, n))
  {
    assert SlotKnown(s.jobs, s.slots[n]) && PoolKnown(s.jobs, s.pools[n]);
    assert s.slots[n].channel[0] in s.slots[n].channel;
  }

  lemma ExecuteKnown(s: Sys, n: string, i: nat, o: Outcome)
    requires IdsKnown(s) && CanExecute(s, n, i)
    ensures IdsKnown(AfterExecute(s, n, i, o))
  {
    assert PoolKnown(s.jobs, s.pools[n]);
  }

  lemma SendKnown(s: Sys, n: string, i: nat)
    requires IdsKnown(s) && CanSend(s, n, i)
    ensures IdsKnown(AfterSend(s, n, i))
  {
    assert PoolKnown(s.jobs, s.pools[n]);
  }

  /** More ids in the run do no harm. */
  lemma PutKnown(s: Sys, job: Job, pc: Pc)
    requires IdsKnown(s) && job.state in s.slots && !pc.Received? && !pc.Freed?
    ensures IdsKnown(Put(s, job, pc))
  {
    var t := Put(s, job, pc);
    forall n | n in t.slots ensures SlotKnown(t.jobs, t.slots[n]) {
      assert SlotKnown(s.jobs, s.slots[n]);
      assert SlotKnown(t.jobs, s.slots[n]);
      if n == job.state {
        ArriveKnown(t.jobs, s.slots[n], job);
      }
    }
    forall n | n in t.pools ensures PoolKnown(t.jobs, t.pools[n]) {
      assert PoolKnown(s.jobs, s.pools[n]);
    }
  }

  lemma EnqueueKnown(s: Sys, id: string)
    requires IdsKnown(s) && CanEnqueue(s, id)
    ensures IdsKnown(AfterEnqueue(s, id))
  {
    var t := AfterEnqueue(s, id);
    forall n | n in t.slots ensures SlotKnown(t.jobs, t.slots[n]) {
      assert SlotKnown(s.jobs, s.slots[n]);
      ArriveKnown(s.jobs, s.slots[n], s.jobs[id]);
    }
  }

  lemma FreeKnown(s: Sys)
    requires IdsKnown(s) && CanFree(s)
    ensures IdsKnown(AfterFree(s))
  {
    var t := AfterFree(s);
    forall n | n in t.slots ensures SlotKnown(t.jobs, t.slots[n]) {
      assert SlotKnown(s.jobs, s.slots[n]);
      RunNextKnown(s.jobs, s.slots[n]);
    }
  }

  lemma StepKnown(s: Sys, a: Action)
    requires IdsKnown(s) && Step(s, a).Some?
    ensures IdsKnown(Step(s, a).value)
  {
    match a
    case Enqueue(id) => EnqueueKnown(s, id);
    case Take(n) => TakeKnown(s, n);
    case Execute(n, i, o) => ExecuteKnown(s, n, i, o);
    case Send(n, i) => SendKnown(s, n, i);
    case Receive =>
    case Free => FreeKnown(s);
    case Place => PutKnown(s, s.pc.flight.ret.job, Kicking(s.pc.flight.ret, 0));
    case KickOne => PutKnown(s, NextKick(s.pc), Kicking(s.pc.ret, s.pc.next + 1));
    case Persist =>
    case Drained =>
  }

  /** Placing a returned job adds no id. */
  lemma PlaceAddsNoId(s: Sys, id: string)
    requires IdsKnown(s) && CanPlace(s)
    ensures id in AfterPlace(s).jobs <==> id in s.jobs
  {
  }

  lemma KickAdds(s: Sys, p: string, i: nat)
    requires CanKick(s)
    ensures Child(p, i) in AfterKick(s).jobs <==> Child(p, i) in s.jobs || (p == s.pc.ret.job.id && i == s.pc.next)
  {
    ChildInjective(p, i, s.pc.ret.job.id, s.pc.next);
  }

  lemma StepInOrder(s: Sys, a: Action)
    requires IdsKnown(s) && KicksInOrder(s) && Step(s, a).Some?
    ensures KicksInOrder(Step(s, a).value)
  {
    if a.Place? {
      forall p, i: nat ensures Child(p, i) in AfterPlace(s).jobs <==> Child(p, i) in s.jobs {
        PlaceAddsNoId(s, Child(p, i));
      }
    } else if a.KickOne? {
      forall p, i: nat
        ensures Child(p, i) in AfterKick(s).jobs <==> Child(p, i) in s.jobs || (p == s.pc.ret.job.id && i == s.pc.next)
      {
        KickAdds(s, p, i);
      }
    } else {
      OtherStepsKeepJobs(s, a);
    }
  }

  // ---- Which returns have kicked ----

  predicate PlacesKicks(s: Sys, a: Action, p: string) {
    a.Place? && s.pc.Freed? && s.pc.flight.ret.job.id == p && s.pc.flight.ret.kicks != []
  }

  /** How many returns of job `p` that ask for kicks have been handled, or are being handled. */
  ghost function KickReturns(s: Sys, acts: seq<Action>, p: string): nat {
    if acts == [] then 0 else
    var init := acts[..|acts| - 1];
    KickReturns(s, init, p) +
    match Run(s, init)
    case Some(m) => if PlacesKicks(m, acts[|acts| - 1], p) then 1 else 0
    case None => 0
  }

  lemma StepHasKicked(s: Sys, a: Action, p: string)
    requires IdsKnown(s) && KicksInOrder(s) && Step(s, a).Some?
    ensures HasKicked(Step(s, a).value, p) <==> HasKicked(s, p) || PlacesKicks(s, a, p)
  {
    if a.Place? {
      PlaceAddsNoId(s, Child(p, 0));
    } else if a.KickOne? {
      KickAdds(s, p, 0);
    } else {
      OtherStepsKeepJobs(s, a);
    }
  }

  lemma {:induction false} HasKickedIn(s: Sys, acts: seq<Action>, p: string)
    requires IdsKnown(s) && KicksInOrder(s) && Run(s, acts).Some?
    ensures IdsKnown(Run(s, acts).value) && KicksInOrder(Run(s, acts).value)
    ensures HasKicked(Run(s, acts).value, p) <==> HasKicked(s, p) || KickReturns(s, acts, p) > 0
  {
    if acts != [] {
      var init, a := acts[..|acts| - 1], acts[|acts| - 1];
      HasKickedIn(s, init, p);
      var m := Run(s, init).value;
      StepKnown(m, a);
      StepInOrder(m, a);
      StepHasKicked(m, a, p);
    }
  }

  lemma StartKnown(states: Slots, timeouts: map<string, Option<Timeout>>, jobs: map<string, Job>)
    requires Startable(states, timeouts, jobs)
    ensures IdsKnown(Start(states, timeouts, jobs)) && KicksInOrder(Start(states, timeouts, jobs))
  {
  }

  /** The kicks of the return, none of whose ids the run has yet. */
  ghost predicate AllNew(jobs: map<string, Job>, ret: Return) {
    forall i: nat :: i < |ret.kicks| ==> Child(ret.job.id, i) !in jobs
  }

  /**
   * In any run, whatever Exec functions return: the ids that the kicks of a result will get are all new if
   * and only if the job has not kicked before, in this run or in an earlier one it was recovered from.
   * This is the test that a caller can make, and the condition of the contract.
   */
  lemma KicksAreNewExactly(states: Slots, timeouts: map<string, Option<Timeout>>, jobs: map<string, Job>,
        acts: seq<Action>)
    requires Startable(states, timeouts, jobs)
    requires var s := Run(Start(states, timeouts, jobs), acts);
             s.Some? && s.value.pc.Freed? && s.value.pc.flight.ret.kicks != []
    ensures var s := Run(Start(states, timeouts, jobs), acts).value;
            var ret := s.pc.flight.ret;
            && (AllNew(s.jobs, ret) <==> !HasKicked(s, ret.job.id))
            && (HasKicked(s, ret.job.id) <==>
                  Child(ret.job.id, 0) in jobs || KickReturns(Start(states, timeouts, jobs), acts, ret.job.id) > 0)
  {
    var s0 := Start(states, timeouts, jobs);
    var s := Run(s0, acts).value;
    StartKnown(states, timeouts, jobs);
    HasKickedIn(s0, acts, s.pc.flight.ret.job.id);
    assert s0.jobs == jobs && !s0.pc.Kicking?;
    if AllNew(s.jobs, s.pc.flight.ret) {
      assert 0 < |s.pc.flight.ret.kicks|;
    }
  }

  // ---- A job that kicks twice ----

  /** The root job goes back to its own state and kicks a job that is done at once. */
  function Again(c: Payload): seq<Kick> {
    [Kick(c, DONE)]
  }

  lemma RunOn(s: Sys, acts: seq<Action>, m: Sys, a: Action, u: Sys)
    requires Run(s, acts) == Some(m) && Step(m, a) == Some(u)
    ensures Run(s, acts + [a]) == Some(u)
  {
    assert (acts + [a])[..|acts|] == acts;
  }

  lemma Worked(s: Sys, acts: seq<Action>, n: int, jobs: map<string, Job>, pc: Pc, c: Payload)
    returns (more: seq<Action>)
    requires Run(s, acts) == Some(Waiting("c", n, jobs, pc))
    ensures acts <= more && Run(s, more) == Some(Returning(n, jobs, [Back("c", "c", Again(c))], pc))
  {
    var f := Back("c", "c", Again(c));
    TakeStep("c", n, jobs, pc);
    RunOn(s, acts, Waiting("c", n, jobs, pc), Take(WORK), InWork("c", n, jobs, pc));
    more := acts + [Take(WORK)];
    ExecuteStep("c", "c", Again(c), n, jobs, pc);
    RunOn(s, more, InWork("c", n, jobs, pc), Execute(WORK, 0, Turn("c", Again(c))), HasResult(f, n, jobs, pc));
    more := more + [Execute(WORK, 0, Turn("c", Again(c)))];
    SendStep(f, n, jobs, pc);
    RunOn(s, more, HasResult(f, n, jobs, pc), Send(WORK, 0), Returning(n, jobs, [f], pc));
    more := more + [Send(WORK, 0)];
  }

  lemma PlacedAgain(s: Sys, acts: seq<Action>, n: int, jobs: map<string, Job>, pc: Pc, c: Payload)
    returns (more: seq<Action>)
    requires (pc.Selecting? || pc.Draining?) && ID in jobs && jobs[ID] == Root("c")
    requires Run(s, acts) == Some(Returning(n, jobs, [Back("c", "c", Again(c))], pc))
    ensures acts <= more && Run(s, more) == Some(Waiting("c", n, jobs, Kicking(Back("c", "c", Again(c)).ret, 0)))
  {
    var f := Back("c", "c", Again(c));
    ReceiveStep(f, n, jobs, pc);
    RunOn(s, acts, Returning(n, jobs, [f], pc), Receive, Returning(n, jobs, [], Received(f)));
    more := acts + [Receive];
    FreeStep(f, n, jobs);
    RunOn(s, more, Returning(n, jobs, [], Received(f)), Free, Slack(n, jobs, Freed(f)));
    more := more + [Free];
    PlaceStep(f, "c", n, jobs);
    assert jobs[ID := Root("c")] == jobs;
    RunOn(s, more, Slack(n, jobs, Freed(f)), Place, Waiting("c", n, jobs, Kicking(f.ret, 0)));
    more := more + [Place];
  }

  lemma Round(s: Sys, acts: seq<Action>, n: int, jobs: map<string, Job>, pc: Pc, c: Payload)
    returns (more: seq<Action>)
    requires (pc.Selecting? || pc.Draining?) && ID in jobs && jobs[ID] == Root("c")
    requires Run(s, acts) == Some(Waiting("c", n, jobs, pc))
    ensures acts <= more && Run(s, more) == Some(Waiting("c", n + 1, jobs[KID := Kicked(c)], Draining))
  {
    var ret := Back("c", "c", Again(c)).ret;
    var done := Worked(s, acts, n, jobs, pc, c);
    more := PlacedAgain(s, done, n, jobs, pc, c);
    var kicked := Waiting("c", n + 1, jobs[KID := Kicked(c)], Kicking(ret, 1));
    KickStep("c", ret, c, n, jobs);
    RunOn(s, more, Waiting("c", n, jobs, Kicking(ret, 0)), KickOne, kicked);
    more := more + [KickOne];
    RunOn(s, more, kicked, Persist, Waiting("c", n + 1, jobs[KID := Kicked(c)], Draining));
    more := more + [Persist];
  }

  lemma TwoRounds(s: Sys, acts: seq<Action>) returns (once: seq<Action>, twice: seq<Action>)
    requires Run(s, acts) == Some(Waiting("c", 0, ONE, Selecting))
    ensures once <= twice && Run(s, once) == Some(Waiting("c", 1, ONE[KID := Kicked("first")], Draining))
    ensures Run(s, twice) == Some(Waiting("c", 2, ONE[KID := Kicked("first")][KID := Kicked("second")], Draining))
  {
    ChildHasArrow(ID, 0);
    assert ID in ONE && ONE[ID] == Root("c");
    once := Round(s, acts, 0, ONE, Selecting, "first");
    twice := Round(s, once, 1, ONE[KID := Kicked("first")], Draining, "second");
  }

  /**
   * A run in which one job kicks in two returns: the first job it kicked was counted as done, and is then
   * replaced in the run by the second one under the same id.
   */
  lemma SecondKickReplaces() returns (once: seq<Action>, twice: seq<Action>)
    ensures Startable(STATES, TIMEOUTS, ONE)
    ensures var s := Start(STATES, TIMEOUTS, ONE);
            && once <= twice && Run(s, once).Some? && Run(s, twice).Some?
            && var jobs, later := Run(s, once).value.jobs, Run(s, twice).value.jobs;
               KID in jobs && jobs[KID] == Kicked("first") && KID in later && later[KID] == Kicked("second")
  {
    OneIsStartable();
    Begins();
    var s := Start(STATES, TIMEOUTS, ONE);
    RunOn(s, [], s, Enqueue(ID), Waiting("c", 0, ONE, Selecting));
    once, twice := TwoRounds(s, [] + [Enqueue(ID)]);
  }
}
