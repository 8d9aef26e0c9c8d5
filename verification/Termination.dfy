/**
 * If every execution hands back less weight than it took, a run handles at most as many results as
 * the initial jobs weigh, and each of its actions brings it closer to its end (see Endings).
 */
module Termination {
  import opened Jobs
  import opened StateStorage
  import opened KickIds
  import opened Scheduler
  import opened SchedulerInvariant
  import opened SchedulerSteps
  import opened SchedulerResults
  import opened Sums

  type Weight = Job -> nat

  ghost function Weights(jobs: map<string, Job>, w: Weight): map<string, nat> {
    map id | id in jobs :: w(jobs[id])
  }

  ghost function KickAt(ret: Return, i: nat): Job
    requires i < |ret.kicks|
  {
    KickedJob(Child(ret.job.id, i), ret.kicks[i])
  }

  /** The weight of the kicks of a result from the `i`-th on. */
  ghost function KickWeight(ret: Return, i: nat, w: Weight): nat
    decreases |ret.kicks| - i
  {
    if i >= |ret.kicks| then 0 else w(KickAt(ret, i)) + KickWeight(ret, i + 1, w)
  }

  /** The result and its kicks together weigh less than the job they came from. */
  ghost predicate Light(f: Flight, w: Weight) {
    w(f.ret.job) + KickWeight(f.ret, 0, w) < w(f.before)
  }

  ghost predicate LightFlights(s: Sys, w: Weight) {
    && (forall i :: 0 <= i < |s.returned| ==> Light(s.returned[i], w))
    && (forall n, i :: n in s.pools && 0 <= i < |s.pools[n].done| ==> Light(s.pools[n].done[i], w))
    && (s.pc.Received? || s.pc.Freed? ==> Light(s.pc.flight, w))
  }

  ghost predicate LightAction(s: Sys, a: Action, w: Weight) {
    a.Execute? && CanExecute(s, a.state, a.i) ==> Light(Returned(s, a.state, s.pools[a.state].running[a.i], a.o), w)
  }

  /** The weight of the stored jobs and of the kicks still to be turned into jobs. */
  ghost function Potential(s: Sys, w: Weight): nat {
    Sum(Weights(s.jobs, w)) + (if s.pc.Kicking? then KickWeight(s.pc.ret, s.pc.next, w) else 0)
  }

  lemma WeightsUpdate(jobs: map<string, Job>, j: Job, w: Weight)
    ensures Sum(Weights(jobs[j.id := j], w)) + (if j.id in jobs then w(jobs[j.id]) else 0) ==
            Sum(Weights(jobs, w)) + w(j)
  {
    assert Weights(jobs[j.id := j], w) == Weights(jobs, w)[j.id := w(j)];
    SumUpdate(Weights(jobs, w), j.id, w(j));
  }

  lemma PlacePotential(s: Sys, w: Weight)
    requires CanPlace(s) && Faithful(s) && Light(s.pc.flight, w)
    ensures Potential(AfterPlace(s), w) < Potential(s, w)
  {
    WeightsUpdate(s.jobs, s.pc.flight.ret.job, w);
  }

  lemma KickPotential(s: Sys, w: Weight)
    requires CanKick(s) && Faithful(s)
    ensures Potential(AfterKick(s), w) == Potential(s, w)
  {
    WeightsUpdate(s.jobs, NextKick(s.pc), w);
  }

  /** Only placing a returned job changes the potential, and it lowers it. */
  lemma StepPotential(s: Sys, a: Action, w: Weight)
    requires Faithful(s) && LightFlights(s, w) && Step(s, a).Some?
    ensures a.Place? ==> Potential(Step(s, a).value, w) < Potential(s, w)
    ensures !a.Place? ==> Potential(Step(s, a).value, w) == Potential(s, w)
  {
    if a.Place? {
      PlacePotential(s, w);
    } else if a.KickOne? {
      KickPotential(s, w);
    } else {
      OtherStepsKeepJobs(s, a);
    }
  }

  lemma StepLight(s: Sys, a: Action, w: Weight)
    requires LightFlights(s, w) && Step(s, a).Some? && LightAction(s, a, w)
    ensures LightFlights(Step(s, a).value, w)
  {
  }

  // ---- Counting handled results ----

  /** The calls of handleReturn in a run: each places one returned job. */
  function Handled(acts: seq<Action>): nat {
    if acts == [] then 0 else Handled(acts[..|acts| - 1]) + if acts[|acts| - 1].Place? then 1 else 0
  }

  ghost predicate LightRun(s: Sys, acts: seq<Action>, w: Weight) {
    acts == [] || (
      var init := acts[..|acts| - 1];
      LightRun(s, init, w) && Run(s, init).Some? && LightAction(Run(s, init).value, acts[|acts| - 1], w))
  }

  lemma {:induction false} HandledIn(s: Sys, acts: seq<Action>, w: Weight)
    requires FaithfulRun(s, acts) && LightFlights(s, w) && LightRun(s, acts, w)
    ensures Run(s, acts).Some? && LightFlights(Run(s, acts).value, w)
    ensures Handled(acts) + Potential(Run(s, acts).value, w) <= Potential(s, w)
  {
    if acts != [] {
      var init, a := acts[..|acts| - 1], acts[|acts| - 1];
      HandledIn(s, init, w);
      StepPotential(Run(s, init).value, a, w);
      StepLight(Run(s, init).value, a, w);
    }
  }

  /** From the start of Exec, a run handles at most as many results as its jobs weigh. */
  lemma HandledAtMostWeight(states: Slots, timeouts: map<string, Option<Timeout>>, jobs: map<string, Job>,
        acts: seq<Action>, w: Weight)
    requires Startable(states, timeouts, jobs)
    requires Follows(Start(states, timeouts, jobs), acts) && LightRun(Start(states, timeouts, jobs), acts, w)
    ensures Handled(acts) <= Sum(Weights(jobs, w))
  {
    var s := Start(states, timeouts, jobs);
    StartOk(states, timeouts, jobs);
    RunsAreFaithful(s, acts);
    HandledIn(s, acts, w);
  }

  // ---- Every action is progress ----

  ghost function LaneCost(sl: Slot, p: Pool): nat {
    9 * |sl.queue| + 8 * |sl.channel| + 7 * |p.running| + 6 * |p.done|
  }

  ghost function LaneCosts(slots: Slots, pools: map<string, Pool>): map<string, nat> {
    map n | n in slots && n in pools :: LaneCost(slots[n], pools[n])
  }

  ghost function PcCost(pc: Pc): nat {
    match pc
    case Enqueueing(todo) => 10 * |todo|
    case Selecting => 0
    case Received(_) => 4
    case Freed(_) => 3
    case Kicking(ret, next) => 2 + if next < |ret.kicks| then 11 * (|ret.kicks| - next) else 0
    case Draining => 1
    case Exited => 0
  }

  /** The steps left, roughly, if nothing more is executed. */
  ghost function Stage(s: Sys): nat {
    Sum(LaneCosts(s.slots, s.pools)) + 5 * |s.returned| + PcCost(s.pc)
  }

  /** Only the lane of `n` differs. */
  lemma LaneCostsUpdate(slots: Slots, pools: map<string, Pool>, slots': Slots, pools': map<string, Pool>, n: string)
    requires n in slots && n in pools && n in slots' && n in pools'
    requires forall m :: m != n ==> (m in slots <==> m in slots') && (m in pools <==> m in pools')
    requires forall m :: m != n && m in slots && m in pools ==> slots'[m] == slots[m] && pools'[m] == pools[m]
    ensures Sum(LaneCosts(slots', pools')) + LaneCost(slots[n], pools[n]) ==
            Sum(LaneCosts(slots, pools)) + LaneCost(slots'[n], pools'[n])
  {
    assert LaneCosts(slots', pools') == LaneCosts(slots, pools)[n := LaneCost(slots'[n], pools'[n])];
    SumUpdate(LaneCosts(slots, pools), n, LaneCost(slots'[n], pools'[n]));
  }

  lemma ArriveCost(sl: Slot, p: Pool, j: Job)
    ensures LaneCost(Arrive(sl, j), p) <= LaneCost(sl, p) + 9
  {
  }

  lemma ProcessCost(slots: Slots, pools: map<string, Pool>, j: Job)
    requires j.state in slots && j.state in pools
    ensures Sum(LaneCosts(Process(slots, j), pools)) <= Sum(LaneCosts(slots, pools)) + 9
  {
    LaneCostsUpdate(slots, pools, Process(slots, j), pools, j.state);
    ArriveCost(slots[j.state], pools[j.state], j);
  }

  lemma ReleaseCost(slots: Slots, pools: map<string, Pool>, n: string)
    requires n in slots && n in pools
    ensures Sum(LaneCosts(NextRun(slots, n), pools)) <= Sum(LaneCosts(slots, pools))
  {
    LaneCostsUpdate(slots, pools, NextRun(slots, n), pools, n);
  }

  lemma WorkerStage(s: Sys, a: Action)
    requires (a.Take? || a.Execute? || a.Send?) && Step(s, a).Some? && a.state in s.slots
    ensures Stage(Step(s, a).value) < Stage(s)
  {
    var t := Step(s, a).value;
    LaneCostsUpdate(s.slots, s.pools, t.slots, t.pools, a.state);
  }

  lemma CentralStage(s: Sys, a: Action)
    requires a.Receive? || a.Persist? || a.Drained?
    requires Step(s, a).Some?
    ensures Stage(Step(s, a).value) < Stage(s)
  {
  }

  lemma EnqueueStage(s: Sys, id: string)
    requires CanEnqueue(s, id) && s.jobs[id].state in s.pools
    ensures Stage(AfterEnqueue(s, id)) < Stage(s)
  {
    ProcessCost(s.slots, s.pools, s.jobs[id]);
    assert |s.pc.todo - {id}| == |s.pc.todo| - 1;
  }

  lemma FreeStage(s: Sys)
    requires CanFree(s) && s.pc.flight.ret.prior in s.pools
    ensures Stage(AfterFree(s)) < Stage(s)
  {
    ReleaseCost(s.slots, s.pools, s.pc.flight.ret.prior);
  }

  lemma KickStage(s: Sys)
    requires CanKick(s) && NextKick(s.pc).state in s.pools
    ensures Stage(AfterKick(s)) < Stage(s)
  {
    ProcessCost(s.slots, s.pools, NextKick(s.pc));
  }

  lemma StepStage(s: Sys, a: Action)
    requires Registered(s) && Step(s, a).Some? && !a.Place?
    ensures Stage(Step(s, a).value) < Stage(s)
  {
    if a.Take? || a.Execute? || a.Send? {
      WorkerStage(s, a);
    } else if a.Enqueue? {
      EnqueueStage(s, a.id);
    } else if a.Free? {
      FreeStage(s);
    } else if a.KickOne? {
      KickStage(s);
    } else {
      CentralStage(s, a);
    }
  }

  ghost function After(s: Sys, a: Action): Sys
    requires Step(s, a).Some?
  {
    Step(s, a).value
  }

  lemma Progresses(s: Sys, a: Action, w: Weight)
    requires Inv(s) && LightFlights(s, w) && Enabled(s, a) && LightAction(s, a, w)
    ensures Inv(After(s, a)) && LightFlights(After(s, a), w)
    ensures Potential(After(s, a), w) < Potential(s, w)
         || (Potential(After(s, a), w) == Potential(s, w) && Stage(After(s, a)) < Stage(s))
  {
    StepKeeps(s, a);
    InvFaithful(s);
    StepPotential(s, a, w);
    StepLight(s, a, w);
    if !a.Place? {
      StepStage(s, a);
    }
  }
}
