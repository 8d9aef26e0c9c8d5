/**
 * The processor as a step system (processor.go: Exec, process, handleReturn, StateExec.Run).
 * One action is one thing a goroutine does between two points where others can interleave.
 */
module Scheduler {
  import opened Jobs
  import opened StateStorage
  import opened KickIds

  const RETURN_BUFFER := 256

  /**
   * A result on its way back; `before` is the job as the worker received it, `failed` whether Exec returned
   * an error.
   */
  datatype Flight = Flight(before: Job, ret: Return, failed: bool)

  /** The workers of one state: jobs being executed, and results not sent yet. */
  datatype Pool = Pool(running: seq<Job>, done: seq<Flight>)

  /** Where the central goroutine stands. */
  datatype Pc =
    | Enqueueing(todo: set<string>)
    | Selecting
    | Received(flight: Flight)
    | Freed(flight: Flight)
    | Kicking(ret: Return, next: nat)
    | Draining
    | Exited

  datatype Sys = Sys(timeouts: map<string, Option<Timeout>>, slots: Slots, pools: map<string, Pool>,
                     jobs: map<string, Job>, returned: seq<Flight>, pc: Pc)

  datatype Action =
    | Enqueue(id: string)                                 // process, lines 336-338
    | Take(state: string)                                 // a worker receives a job, line 453
    | Execute(state: string, i: nat, o: Outcome)          // executeOne, line 457
    | Send(state: string, i: nat)                         // a worker sends its result, line 462
    | Receive                                             // lines 347 and 354
    | Free                                                // line 375
    | Place                                               // lines 377-378
    | KickOne                                             // lines 381-388
    | Persist                                             // lines 391-395
    | Drained                                             // lines 358-369

  function Drop<T>(s: seq<T>, i: nat): seq<T>
    requires i < |s|
  {
    s[..i] + s[i + 1..]
  }

  predicate AllTerminal(slots: Slots, jobs: map<string, Job>) {
    forall id :: id in jobs ==> jobs[id].state in slots && slots[jobs[id].state].terminal
  }

  predicate AnyExecuting(slots: Slots) {
    exists n :: n in slots && slots[n].executing > 0
  }

  predicate WorkerIdle(sl: Slot, p: Pool) {
    |p.running| + |p.done| < sl.concurrency
  }

  function Returned(s: Sys, n: string, j: Job, o: Outcome): Flight
    requires n in s.timeouts
  {
    Flight(j, Return(j.state, Classify(j, o, s.timeouts[n], false), o.kicks), o.err.Error?)
  }

  function NextKick(pc: Pc): Job
    requires pc.Kicking? && pc.next < |pc.ret.kicks|
  {
    KickedJob(Child(pc.ret.job.id, pc.next), pc.ret.kicks[pc.next])
  }

  // ---- Start: the jobs of the run are put in place one by one ----

  predicate CanEnqueue(s: Sys, id: string) {
    s.pc.Enqueueing? && id in s.pc.todo && id in s.jobs && s.jobs[id].state in s.slots &&
          CanArrive(s.slots[s.jobs[id].state])
  }

  function AfterEnqueue(s: Sys, id: string): Sys
    requires CanEnqueue(s, id)
  {
    var todo := s.pc.todo - {id};
    s.(slots := Process(s.slots, s.jobs[id]), pc := if todo == {} then Selecting else Enqueueing(todo))
  }

  // ---- Workers ----

  predicate CanTake(s: Sys, n: string) {
    n in s.slots && n in s.pools && s.slots[n].channel != [] && WorkerIdle(s.slots[n], s.pools[n])
  }

  function AfterTake(s: Sys, n: string): Sys
    requires CanTake(s, n)
  {
    var sl, p := s.slots[n], s.pools[n];
    s.(slots := s.slots[n := sl.(channel := sl.channel[1..])],
       pools := s.pools[n := p.(running := p.running + [sl.channel[0]])])
  }

  predicate CanExecute(s: Sys, n: string, i: nat) {
    n in s.pools && n in s.timeouts && i < |s.pools[n].running|
  }

  function AfterExecute(s: Sys, n: string, i: nat, o: Outcome): Sys
    requires CanExecute(s, n, i)
  {
    var p := s.pools[n];
    s.(pools := s.pools[n := Pool(Drop(p.running, i), p.done + [Returned(s, n, p.running[i], o)])])
  }

  predicate CanSend(s: Sys, n: string, i: nat) {
    n in s.pools && i < |s.pools[n].done| && |s.returned| < RETURN_BUFFER
  }

  function AfterSend(s: Sys, n: string, i: nat): Sys
    requires CanSend(s, n, i)
  {
    var p := s.pools[n];
    s.(pools := s.pools[n := p.(done := Drop(p.done, i))], returned := s.returned + [p.done[i]])
  }

  // ---- The central goroutine ----

  predicate CanReceive(s: Sys) {
    (s.pc.Selecting? || s.pc.Draining?) && s.returned != []
  }

  function AfterReceive(s: Sys): Sys
    requires CanReceive(s)
  {
    s.(returned := s.returned[1..], pc := Received(s.returned[0]))
  }

  predicate CanFree(s: Sys) {
    && s.pc.Received? && s.pc.flight.ret.prior in s.slots
    && CanRelease(s.pc.flight.ret.prior, s.slots[s.pc.flight.ret.prior])
  }

  function AfterFree(s: Sys): Sys
    requires CanFree(s)
  {
    s.(slots := NextRun(s.slots, s.pc.flight.ret.prior), pc := Freed(s.pc.flight))
  }

  /** UpdateJob followed by processJob. */
  function Put(s: Sys, job: Job, pc: Pc): Sys
    requires job.state in s.slots
  {
    s.(jobs := s.jobs[job.id := job], slots := Process(s.slots, job), pc := pc)
  }

  predicate CanPlace(s: Sys) {
    s.pc.Freed? && s.pc.flight.ret.job.state in s.slots && CanArrive(s.slots[s.pc.flight.ret.job.state])
  }

  function AfterPlace(s: Sys): Sys
    requires CanPlace(s)
  {
    Put(s, s.pc.flight.ret.job, Kicking(s.pc.flight.ret, 0))
  }

  predicate CanKick(s: Sys) {
    && s.pc.Kicking? && s.pc.next < |s.pc.ret.kicks|
    && NextKick(s.pc).state in s.slots && CanArrive(s.slots[NextKick(s.pc).state])
  }

  function AfterKick(s: Sys): Sys
    requires CanKick(s)
  {
    Put(s, NextKick(s.pc), Kicking(s.pc.ret, s.pc.next + 1))
  }

  function AfterDrained(s: Sys): Sys {
    s.(pc := if AllTerminal(s.slots, s.jobs) && !AnyExecuting(s.slots) then Exited else Selecting)
  }

  /** The state after an action, or None when the action cannot happen or would block. */
  function Step(s: Sys, a: Action): Option<Sys> {
    match a
    case Enqueue(id) => if CanEnqueue(s, id) then Some(AfterEnqueue(s, id)) else None
    case Take(n) => if CanTake(s, n) then Some(AfterTake(s, n)) else None
    case Execute(n, i, o) => if CanExecute(s, n, i) then Some(AfterExecute(s, n, i, o)) else None
    case Send(n, i) => if CanSend(s, n, i) then Some(AfterSend(s, n, i)) else None
    case Receive => if CanReceive(s) then Some(AfterReceive(s)) else None
    case Free => if CanFree(s) then Some(AfterFree(s)) else None
    case Place => if CanPlace(s) then Some(AfterPlace(s)) else None
    case KickOne => if CanKick(s) then Some(AfterKick(s)) else None
    case Persist => if s.pc.Kicking? && s.pc.next == |s.pc.ret.kicks| then Some(s.(pc := Draining)) else None
    case Drained => if s.pc.Draining? && s.returned == [] then Some(AfterDrained(s)) else None
  }

  function Run(s: Sys, acts: seq<Action>): Option<Sys> {
    if acts == [] then Some(s) else
    match Run(s, acts[..|acts| - 1])
    case None => None
    case Some(m) => Step(m, acts[|acts| - 1])
  }

  /** Some return of job `p` has asked for kicks and is being, or has been, handled. */
  predicate HasKicked(s: Sys, p: string) {
    Child(p, 0) in s.jobs || (s.pc.Kicking? && s.pc.ret.job.id == p && s.pc.ret.kicks != [])
  }

  /**
   * What Exec functions must keep to: registered states, but where a timeout overrides the state returned,
   * and kicks in at most one return per job.
   */
  predicate Contract(s: Sys, a: Action) {
    a.Execute? && a.state in s.pools && a.i < |s.pools[a.state].running| ==>
      && (a.o.state in s.slots || (a.state in s.timeouts && TimedOut(s.timeouts[a.state], a.o.err, false)))
      && (forall k :: k in a.o.kicks ==> k.state in s.slots)
      && (a.o.kicks != [] ==> !HasKicked(s, s.pools[a.state].running[a.i].id))
  }

  /** A run all of whose actions keep the contract. */
  ghost predicate Follows(s: Sys, acts: seq<Action>) {
    acts == [] || (
      && Follows(s, acts[..|acts| - 1])
      && var m := Run(s, acts[..|acts| - 1]);
         m.Some? && Contract(m.value, acts[|acts| - 1]) && Step(m.value, acts[|acts| - 1]).Some?)
  }

  /** The jobs of a run that are in one state. */
  ghost function InState(jobs: map<string, Job>, n: string): set<Job> {
    set id | id in jobs && jobs[id].state == n :: jobs[id]
  }

  /** What Exec requires of the states and the run it is given. */
  ghost predicate Startable(states: Slots, timeouts: map<string, Option<Timeout>>, jobs: map<string, Job>) {
    && (forall n :: n in states <==> n in timeouts)
    && (forall n :: n in states ==> SlotOk(n, states[n], 0) && states[n].completed == 0
                                    && states[n].queue == [] && states[n].channel == [])
    && (forall n :: n in timeouts && timeouts[n].Some? ==> timeouts[n].value.failState in states)
    && (forall id :: id in jobs ==> jobs[id].id == id && jobs[id].state in states)
    && KidsClosed(jobs)
  }

  /** Kicked ids of one parent start at 0 and leave no gap. */
  ghost predicate KidsClosed(jobs: map<string, Job>) {
    forall p, i: nat, j: nat :: j <= i && Child(p, i) in jobs ==> Child(p, j) in jobs
  }

  /** Exec up to the start of the loop; with nothing to do it only counts and returns. */
  ghost function Start(states: Slots, timeouts: map<string, Option<Timeout>>, jobs: map<string, Job>): Sys {
    var pools := map n | n in states :: Pool([], []);
    if AllTerminal(states, jobs) then
      Sys(timeouts, map n | n in states :: states[n].(completed := |InState(jobs, n)|), pools, jobs, [], Exited)
    else
      Sys(timeouts, states, pools, jobs, [], Enqueueing(jobs.Keys))
  }
}
