/** What the invariant means for a run of the processor. */
module SchedulerResults {
  import opened Jobs
  import opened StateStorage
  import opened Scheduler
  import opened Lanes
  import opened SchedulerInvariant
  import opened SchedulerSteps

  // ---- Reachable states ----

  ghost function TimeoutsOf(states: seq<StateConf>): map<string, Option<Timeout>> {
    if states == [] then map[] else
    var s := states[|states| - 1];
    TimeoutsOf(states[..|states| - 1])[s.name := s.timeout]
  }

  /** Each slot comes from one of the states, and so does its timeout. */
  lemma {:induction false} SlotIsOf(states: seq<StateConf>, n: string)
    ensures n in EmptySlots(states) <==> n in TimeoutsOf(states)
    ensures n in EmptySlots(states) ==>
              exists i :: 0 <= i < |states| && EmptySlots(states)[n] == EmptySlot(states[i]) &&
                    TimeoutsOf(states)[n] == states[i].timeout
  {
    if states != [] {
      var init, last := states[..|states| - 1], states[|states| - 1];
      SlotIsOf(init, n);
      if n == last.name {
        assert EmptySlots(states)[n] == EmptySlot(states[|states| - 1]);
      } else if n in EmptySlots(init) {
        var i :| 0 <= i < |init| && EmptySlots(init)[n] == EmptySlot(init[i]) && TimeoutsOf(init)[n] == init[i].timeout;
        assert EmptySlots(states)[n] == EmptySlot(states[i]);
      }
    }
  }

  /** What Storage.Validate accepts is what Exec needs of its states. */
  lemma ValidStatesStart(states: seq<StateConf>, known: map<string, StateConf>)
    requires known.Keys == EmptySlots(states).Keys
    requires forall s :: s in states ==> ConfOk(s, known)
    ensures Startable(EmptySlots(states), TimeoutsOf(states), map[])
  {
    forall n ensures n in EmptySlots(states) <==> n in TimeoutsOf(states) {
      SlotIsOf(states, n);
    }
    forall n | n in EmptySlots(states)
      ensures var sl := EmptySlots(states)[n];
              SlotOk(n, sl, 0) && sl.completed == 0 && sl.queue == [] && sl.channel == []
      ensures TimeoutsOf(states)[n].Some? ==> TimeoutsOf(states)[n].value.failState in EmptySlots(states)
    {
      SlotIsOf(states, n);
      var i :| 0 <= i < |states| && EmptySlots(states)[n] == EmptySlot(states[i]) &&
            TimeoutsOf(states)[n] == states[i].timeout;
      assert states[i] in states;
    }
  }

  lemma EmptyLane(n: string, sl: Slot, held: multiset<Job>, mine: set<Job>)
    requires SlotOk(n, sl, 0) && sl.queue == [] && sl.channel == []
    requires if sl.terminal then sl.completed + |held| == |mine| else held == multiset(mine)
    ensures LaneOk(n, View(sl, Pool([], []), [], held, 0, mine))
  {
    assert Befores([]) == multiset{};
  }

  lemma IdleLane(states: Slots, timeouts: map<string, Option<Timeout>>, jobs: map<string, Job>, n: string)
    requires Startable(states, timeouts, jobs) && n in states && AllTerminal(states, jobs)
    ensures Lane(Start(states, timeouts, jobs), n)
  {
    var s := Start(states, timeouts, jobs);
    if !states[n].terminal {
      assert InState(jobs, n) == {};
    }
    assert s.pools[n] == Pool([], []) && From([], n) == [];
    EmptyLane(n, s.slots[n], multiset{}, InState(jobs, n));
  }

  lemma StartLane(states: Slots, timeouts: map<string, Option<Timeout>>, jobs: map<string, Job>, n: string)
    requires Startable(states, timeouts, jobs) && n in states
    ensures Lane(Start(states, timeouts, jobs), n)
  {
    if AllTerminal(states, jobs) {
      IdleLane(states, timeouts, jobs, n);
    } else {
      var s := Start(states, timeouts, jobs);
      AllTodo(jobs, n);
      assert s.pools[n] == Pool([], []) && From([], n) == [];
      EmptyLane(n, states[n], multiset(InState(jobs, n)), InState(jobs, n));
    }
  }

  lemma AllTodo(jobs: map<string, Job>, n: string)
    ensures Todo(jobs, jobs.Keys, n) == InState(jobs, n)
  {
  }

  lemma StartRegistered(states: Slots, timeouts: map<string, Option<Timeout>>, jobs: map<string, Job>)
    requires Startable(states, timeouts, jobs)
    ensures Registered(Start(states, timeouts, jobs))
  {
  }

  lemma StartLanes(states: Slots, timeouts: map<string, Option<Timeout>>, jobs: map<string, Job>)
    requires Startable(states, timeouts, jobs) && Registered(Start(states, timeouts, jobs))
    ensures AllLanes(Start(states, timeouts, jobs))
  {
    forall n | n in Start(states, timeouts, jobs).slots ensures Lane(Start(states, timeouts, jobs), n) {
      StartLane(states, timeouts, jobs, n);
    }
  }

  lemma StartPc(states: Slots, timeouts: map<string, Option<Timeout>>, jobs: map<string, Job>)
    requires Startable(states, timeouts, jobs)
    ensures PcOk(Start(states, timeouts, jobs)) && Flights(Start(states, timeouts, jobs))
  {
    SameTerminal(states, Start(states, timeouts, jobs).slots, jobs);
  }

  lemma StartOk(states: Slots, timeouts: map<string, Option<Timeout>>, jobs: map<string, Job>)
    requires Startable(states, timeouts, jobs)
    ensures Inv(Start(states, timeouts, jobs))
  {
    StartRegistered(states, timeouts, jobs);
    StartLanes(states, timeouts, jobs);
    StartPc(states, timeouts, jobs);
  }

  /** The invariant holds at the end of every run, of any length, that keeps the Exec contract. */
  lemma {:induction false} RunKeeps(s: Sys, acts: seq<Action>)
    requires Inv(s) && Follows(s, acts)
    ensures Run(s, acts).Some? && Inv(Run(s, acts).value)
  {
    if acts != [] {
      var init := acts[..|acts| - 1];
      RunKeeps(s, init);
      StepKeeps(Run(s, init).value, acts[|acts| - 1]);
    }
  }

  // ---- Where jobs are ----

  /**
   * A job of the run that is not terminal is in exactly one place, with exactly the contents the run
   * holds for it, and that place belongs to its state; a terminal job is in no place once it has been
   * counted; nothing else is anywhere.
   */
  lemma EachJobInOnePlace(s: Sys, n: string, j: Job)
    requires Inv(s) && n in s.slots && !s.slots[n].terminal
    ensures Places(Of(s, n))[j] == (if j.id in s.jobs && s.jobs[j.id] == j && j.state == n then 1 else 0)
  {
    assert Lane(s, n);
    if j in Places(Of(s, n)) {
      PlacedIsStored(s, n, j);
    } else {
      assert j !in multiset(InState(s.jobs, n));
    }
  }

  lemma TerminalLaneIsEmpty(s: Sys, n: string)
    requires Inv(s) && n in s.slots && s.slots[n].terminal
    ensures s.slots[n].queue == [] && s.slots[n].channel == [] && s.pools[n].running == [] && s.pools[n].done == []
    ensures From(s.returned, n) == []
  {
    assert Lane(s, n);
  }

  // ---- Status counts ----

  lemma CountsAgree(n: string, v: View)
    requires LaneOk(n, v) && v.held == multiset{} && v.counted == 0
    ensures var sl := v.slot;
            && sl.completed + sl.executing + sl.waiting == |v.mine|
            && sl.waiting == |sl.queue|
            && (sl.waiting > 0 ==> sl.executing == sl.concurrency)
            && (if sl.terminal then sl.executing == 0 && sl.waiting == 0 else sl.completed == 0)
  {
    if !v.slot.terminal {
      PlacesCount(v);
      assert |multiset(v.mine)| == |v.mine|;
    }
  }

  lemma PlacesCount(v: View)
    ensures |Places(v)| == |v.slot.queue| + |v.slot.channel| + |v.pool.running| + |v.pool.done| + |v.back| + |v.held|
  {
    assert |JobsOf(v.pool.done)| == |v.pool.done| && |JobsOf(v.back)| == |v.back|;
  }

  /** Between two handled results the published counts are the simple ones. */
  lemma StatusAgrees(s: Sys, n: string)
    requires Inv(s) && n in s.slots && (s.pc.Selecting? || s.pc.Draining? || s.pc.Exited?)
    ensures var sl := s.slots[n];
            && sl.completed + sl.executing + sl.waiting == |InState(s.jobs, n)|
            && sl.waiting == |sl.queue|
            && (sl.waiting > 0 ==> sl.executing == sl.concurrency)
            && (if sl.terminal then sl.executing == 0 && sl.waiting == 0 else sl.completed == 0)
  {
    assert Lane(s, n);
    CountsAgree(n, Of(s, n));
  }

  // ---- No deadlock ----

  /** The sends of the central goroutine find room in every reachable state, so it never blocks on a state channel. */
  lemma CentralNeverBlocks(s: Sys)
    requires Inv(s)
    ensures forall n :: n in s.slots ==> CanArrive(s.slots[n]) && |s.slots[n].channel| <= s.slots[n].executing
    ensures s.pc.Enqueueing? ==> forall id :: id in s.pc.todo ==> CanEnqueue(s, id)
    ensures s.pc.Received? ==> CanFree(s)
    ensures s.pc.Freed? ==> CanPlace(s)
    ensures s.pc.Kicking? && s.pc.next < |s.pc.ret.kicks| ==> CanKick(s)
  {
    forall n | n in s.slots ensures CanArrive(s.slots[n]) && |s.slots[n].channel| <= s.slots[n].executing {
      assert Lane(s, n);
    }
    if s.pc.Received? {
      assert Lane(s, s.pc.flight.ret.prior);
      LaneFree(s.pc.flight.ret.prior, Of(s, s.pc.flight.ret.prior));
    }
  }

  /** Exec gives the job back unchanged, in its own state: allowed for every job that is being executed. */
  function Retry(s: Sys, n: string, i: nat): Action
    requires CanExecute(s, n, i)
  {
    Execute(n, i, Outcome(s.pools[n].running[i].c, n, [], NoError))
  }

  /** A lane with a job in it, and none in the central goroutine's hands, has one a worker can move. */
  lemma LaneMoves(n: string, v: View)
    requires LaneOk(n, v) && !v.slot.terminal && v.held == multiset{} && v.counted == 0 && v.mine != {}
    ensures v.pool.running != [] || v.pool.done != [] || v.back != [] ||
            (v.slot.channel != [] && |v.pool.running| + |v.pool.done| < v.slot.concurrency)
  {
    if v.pool.running == [] && v.pool.done == [] && v.back == [] {
      var j :| j in v.mine;
      assert j in multiset(v.mine);
      assert JobsOf([]) == [];
      assert j in Places(v);
      assert j in v.slot.queue || j in v.slot.channel;
    }
  }

  /** Some worker of the state can move, or a result of it waits to be received. */
  predicate Lively(sl: Slot, p: Pool, returned: seq<Flight>) {
    || p.running != [] || p.done != [] || returned != []
    || (sl.channel != [] && |p.running| + |p.done| < sl.concurrency)
  }

  lemma LiveLane(s: Sys) returns (n: string)
    requires Registered(s) && AllLanes(s) && !AllTerminal(s.slots, s.jobs) && (s.pc.Selecting? || s.pc.Draining?)
    ensures n in s.slots && n in s.pools && n in s.timeouts && Lively(s.slots[n], s.pools[n], s.returned)
  {
    var id :| id in s.jobs && !s.slots[s.jobs[id].state].terminal;
    n := s.jobs[id].state;
    assert Lane(s, n);
    assert s.jobs[id] in InState(s.jobs, n);
    LaneMoves(n, Of(s, n));
    assert s.returned == [] ==> From(s.returned, n) == [];
  }

  /** The action happens now, without blocking, and keeps the Exec contract. */
  predicate Enabled(s: Sys, a: Action) {
    Step(s, a).Some? && Contract(s, a)
  }

  lemma LivelyMoves(s: Sys, n: string) returns (a: Action)
    requires n in s.slots && n in s.pools && n in s.timeouts && Lively(s.slots[n], s.pools[n], s.returned)
    requires s.pc.Selecting? || s.pc.Draining?
    ensures (a.Take? || a.Execute? || a.Send? || a.Receive?) && Enabled(s, a)
    ensures a.Execute? ==> s.pools[n].running != []
  {
    if s.pools[n].running != [] {
      a := Retry(s, n, 0);
    } else if s.returned != [] {
      a := Receive;
    } else if s.pools[n].done != [] {
      a := Send(n, 0);
    } else {
      a := Take(n);
    }
  }

  /** While a job is not terminal, a loop that waits for results leaves a worker or a result to move. */
  lemma WorkerCanMove(s: Sys) returns (a: Action)
    requires Inv(s) && s.pc.Selecting?
    ensures (a.Take? || a.Execute? || a.Send? || a.Receive?) && Enabled(s, a)
  {
    var n := LiveLane(s);
    a := LivelyMoves(s, n);
  }

  lemma CentralCanMove(s: Sys) returns (a: Action)
    requires PcOk(s) && !s.pc.Selecting? && !s.pc.Exited?
    requires s.pc.Enqueueing? ==> forall id :: id in s.pc.todo ==> CanEnqueue(s, id)
    requires s.pc.Received? ==> CanFree(s)
    requires s.pc.Freed? ==> CanPlace(s)
    requires s.pc.Kicking? && s.pc.next < |s.pc.ret.kicks| ==> CanKick(s)
    ensures Enabled(s, a) && !a.Execute?
  {
    match s.pc
    case Enqueueing(todo) =>
      var id :| id in todo;
      a := Enqueue(id);
    case Received(_) => a := Free;
    case Freed(_) => a := Place;
    case Kicking(ret, next) => a := if next < |ret.kicks| then KickOne else Persist;
    case Draining => a := if s.returned != [] then Receive else Drained;
  }

  /** No reachable state is stuck: until the loop has exited, some goroutine can move. */
  lemma NeverStuck(s: Sys) returns (a: Action)
    requires Inv(s) && !s.pc.Exited?
    ensures Enabled(s, a)
  {
    if s.pc.Selecting? {
      a := WorkerCanMove(s);
    } else {
      CentralNeverBlocks(s);
      a := CentralCanMove(s);
    }
  }

  // ---- Exit ----

  /** No job is waiting, in a channel, with a worker, or on its way back. */
  ghost predicate NoTokens(s: Sys)
    requires Registered(s)
  {
    && s.returned == []
    && forall n :: n in s.slots ==>
          s.slots[n].queue == [] && s.slots[n].channel == [] && s.pools[n].running == [] && s.pools[n].done == []
  }

  /**
   * After a drained batch the loop ends exactly when nothing is left anywhere, which is exactly when
   * every job is terminal: it neither stops early, closing channels still in use, nor hangs.
   */
  lemma ExitsExactlyWhenDone(s: Sys)
    requires Inv(s) && s.pc.Draining? && s.returned == []
    ensures AfterDrained(s).pc.Exited? <==> AllTerminal(s.slots, s.jobs)
    ensures AfterDrained(s).pc.Exited? <==> NoTokens(s)
  {
    if AllTerminal(s.slots, s.jobs) {
      AllTerminalMeansIdle(s);
      forall n | n in s.slots
        ensures s.slots[n].queue == [] && s.slots[n].channel == [] && s.pools[n].running == [] && s.pools[n].done == []
      {
        NothingLeft(s, n);
      }
    } else {
      var n := LiveLane(s);
    }
  }

  lemma NoStepLeft(s: Sys, a: Action)
    requires s.pc.Exited? && (forall n :: n in s.pools ==> n in s.slots)
    requires forall n :: n in s.slots && n in s.pools ==>
            s.slots[n].channel == [] && s.pools[n].running == [] && s.pools[n].done == []
    ensures Step(s, a) == None
  {
  }

  /** After the loop has ended no goroutine can take another step that touches a channel. */
  lemma ExitedIsFinal(s: Sys, a: Action)
    requires Inv(s) && s.pc.Exited?
    ensures Step(s, a) == None
  {
    forall n | n in s.slots ensures s.slots[n].channel == [] && s.pools[n].running == [] && s.pools[n].done == [] {
      assert Lane(s, n);
      NothingLeft(s, n);
    }
    NoStepLeft(s, a);
  }

  // ---- Error history ----

  /** How many handled results of job `id` from state `n` came from an attempt that failed or timed out. */
  ghost function FailuresHandled(s: Sys, acts: seq<Action>, id: string, n: string): nat {
    if acts == [] then 0 else
    var init := acts[..|acts| - 1];
    FailuresHandled(s, init, id, n) +
    match Run(s, init)
    case Some(m) => FailureHandled(m, acts[|acts| - 1], id, n)
    case None => 0
  }

  ghost function FailureHandled(s: Sys, a: Action, id: string, n: string): nat {
    if a.Place? && s.pc.Freed? && s.pc.flight.ret.job.id == id && s.pc.flight.ret.prior == n &&
          s.pc.flight.failed then 1 else 0
  }

  /** `later` is `earlier` with `more` entries added at the end of the list of `n`. */
  ghost predicate GrownBy(later: Errors, earlier: Errors, n: string, more: nat) {
    ErrorsIn(earlier, n) <= ErrorsIn(later, n) && |ErrorsIn(later, n)| == |ErrorsIn(earlier, n)| + more
  }

  /** What handling a result relies on: the job is stored as its worker received it, and kicked ids are new. */
  ghost predicate Faithful(s: Sys) {
    && (s.pc.Freed? ==> Stored(s.jobs, s.pc.flight))
    && (CanKick(s) ==> NextKick(s.pc).id !in s.jobs)
  }

  ghost predicate Stored(jobs: map<string, Job>, f: Flight) {
    && f.before.id == f.ret.job.id && f.before.id in jobs && jobs[f.before.id] == f.before
    && OneAttempt(f.ret.job.stateErrors, f.before.stateErrors, f.ret.prior, f.failed)
  }

  lemma HandledIsStored(s: Sys)
    requires Registered(s) && AllLanes(s) && s.pc.Freed? && FlightOk(s, s.pc.flight)
    ensures Stored(s.jobs, s.pc.flight)
  {
    assert Lane(s, s.pc.flight.ret.prior);
    HeldIsStored(s);
  }

  lemma InvFaithful(s: Sys)
    requires Inv(s)
    ensures Faithful(s)
  {
    if s.pc.Freed? {
      HandledIsStored(s);
    } else if CanKick(s) {
      KickIsFresh(s);
    }
  }

  ghost predicate FaithfulRun(s: Sys, acts: seq<Action>) {
    acts == [] || (
      var init := acts[..|acts| - 1];
      && FaithfulRun(s, init)
      && Run(s, init).Some? && Faithful(Run(s, init).value) && Step(Run(s, init).value, acts[|acts| - 1]).Some?)
  }

  lemma {:induction false} RunsAreFaithful(s: Sys, acts: seq<Action>)
    requires Inv(s) && Follows(s, acts)
    ensures FaithfulRun(s, acts)
  {
    if acts != [] {
      var init := acts[..|acts| - 1];
      RunsAreFaithful(s, init);
      RunKeeps(s, init);
      InvFaithful(Run(s, init).value);
    }
  }

  lemma OtherStepsKeepJobs(s: Sys, a: Action)
    requires Step(s, a).Some? && !a.Place? && !a.KickOne?
    ensures Step(s, a).value.jobs == s.jobs
  {
  }

  lemma StepErrors(s: Sys, a: Action, id: string, n: string)
    requires Faithful(s) && Step(s, a).Some? && id in s.jobs
    ensures id in Step(s, a).value.jobs
    ensures GrownBy(Step(s, a).value.jobs[id].stateErrors, s.jobs[id].stateErrors, n, FailureHandled(s, a, id, n))
  {
    if !a.Place? && !a.KickOne? {
      OtherStepsKeepJobs(s, a);
    }
  }

  lemma {:induction false} ErrorsGrowIn(s: Sys, acts: seq<Action>, id: string, n: string)
    requires FaithfulRun(s, acts) && id in s.jobs
    ensures Run(s, acts).Some? && id in Run(s, acts).value.jobs
    ensures GrownBy(Run(s, acts).value.jobs[id].stateErrors, s.jobs[id].stateErrors, n, FailuresHandled(s, acts, id, n))
  {
    if acts != [] {
      var init := acts[..|acts| - 1];
      ErrorsGrowIn(s, init, id, n);
      StepErrors(Run(s, init).value, acts[|acts| - 1], id, n);
    }
  }

  /**
   * Over a whole run no job of it is lost, and its error list of each state only gains entries at the
   * end: one for each handled attempt in that state that failed or timed out.
   */
  lemma {:induction false} ErrorsOnlyGrow(s: Sys, acts: seq<Action>, id: string, n: string)
    requires Inv(s) && Follows(s, acts) && id in s.jobs
    ensures Run(s, acts).Some? && id in Run(s, acts).value.jobs
    ensures GrownBy(Run(s, acts).value.jobs[id].stateErrors, s.jobs[id].stateErrors, n, FailuresHandled(s, acts, id, n))
  {
    RunsAreFaithful(s, acts);
    ErrorsGrowIn(s, acts, id, n);
  }
}
