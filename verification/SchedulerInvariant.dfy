/** What holds in every state the processor can reach. */
module SchedulerInvariant {
  import opened Jobs
  import opened StateStorage
  import opened KickIds
  import opened Scheduler
  import opened Lanes

  ghost predicate Keyed(jobs: map<string, Job>) {
    forall id {:trigger jobs[id]} :: id in jobs ==> jobs[id].id == id
  }

  /** Jobs of state `n` in the hands of the central goroutine. */
  ghost function Held(s: Sys, n: string): multiset<Job> {
    match s.pc
    case Enqueueing(todo) => multiset(Todo(s.jobs, todo, n))
    case Received(f) => if f.ret.prior == n then multiset{f.before} else multiset{}
    case Freed(f) => if f.ret.prior == n then multiset{f.before} else multiset{}
    case _ => multiset{}
  }

  ghost function Todo(jobs: map<string, Job>, todo: set<string>, n: string): set<Job> {
    set id | id in todo && id in jobs && jobs[id].state == n :: jobs[id]
  }

  ghost function Counted(s: Sys, n: string): nat {
    if s.pc.Received? && s.pc.flight.ret.prior == n then 1 else 0
  }

  ghost function Of(s: Sys, n: string): View
    requires n in s.slots && n in s.pools
  {
    View(s.slots[n], s.pools[n], From(s.returned, n), Held(s, n), Counted(s, n), InState(s.jobs, n))
  }

  /** Each job of state `n` is in exactly one place, and the slot's counters agree. */
  ghost predicate Lane(s: Sys, n: string)
    requires n in s.slots && n in s.pools
  {
    LaneOk(n, Of(s, n))
  }

  ghost predicate Registered(s: Sys) {
    && Keyed(s.jobs)
    && (forall id :: id in s.jobs ==> s.jobs[id].state in s.slots)
    && (forall n :: n in s.slots ==> n in s.pools && n in s.timeouts)
    && (forall n :: n in s.pools ==> n in s.slots)
    && (forall n :: n in s.timeouts && s.timeouts[n].Some? ==> s.timeouts[n].value.failState in s.slots)
    && |s.returned| <= RETURN_BUFFER
  }

  ghost predicate AllLanes(s: Sys)
    requires Registered(s)
  {
    forall n {:trigger Lane(s, n)} :: n in s.slots ==> Lane(s, n)
  }

  /** The result belongs to the job it was made from, names registered states, and kicks at most once. */
  ghost predicate FlightOk(s: Sys, f: Flight) {
    && f.before.id == f.ret.job.id && f.before.state == f.ret.prior
    && f.ret.prior in s.slots && !s.slots[f.ret.prior].terminal
    && f.ret.job.state in s.slots
    && (forall k :: k in f.ret.kicks ==> k.state in s.slots)
    && (f.ret.kicks != [] ==> !HasKicked(s, f.ret.job.id))
    && OneAttempt(f.ret.job.stateErrors, f.before.stateErrors, f.ret.prior, f.failed)
  }

  ghost predicate Flights(s: Sys) {
    && (forall i :: 0 <= i < |s.returned| ==> FlightOk(s, s.returned[i]))
    && (forall n, i :: n in s.pools && 0 <= i < |s.pools[n].done| ==>
          FlightOk(s, s.pools[n].done[i]) && s.pools[n].done[i].ret.prior == n)
  }

  ghost predicate PcOk(s: Sys) {
    match s.pc
    case Enqueueing(todo) => todo <= s.jobs.Keys && todo != {} && !AllTerminal(s.slots, s.jobs)
    case Selecting => !AllTerminal(s.slots, s.jobs)
    case Received(f) => FlightOk(s, f)
    case Freed(f) => FlightOk(s, f)
    case Kicking(ret, next) =>
      && next <= |ret.kicks|
      && (forall k :: k in ret.kicks ==> k.state in s.slots)
      && (ret.kicks != [] ==> forall i: nat :: i >= next ==> Child(ret.job.id, i) !in s.jobs)
      && (forall i: nat :: i < next ==> Child(ret.job.id, i) in s.jobs)
    case Exited => AllTerminal(s.slots, s.jobs) && s.returned == []
    case _ => true
  }

  ghost predicate Inv(s: Sys) {
    Registered(s) && AllLanes(s) && Flights(s) && PcOk(s) && KidsClosed(s.jobs)
  }

  // ---- Facts read off the invariant ----

  lemma MineIsStored(s: Sys, n: string, j: Job)
    requires Registered(s) && j in InState(s.jobs, n)
    ensures j.state == n && j.id in s.jobs && s.jobs[j.id] == j
  {
  }

  /** A job in any place of a lane is the one stored under its id, in that state. */
  lemma PlacedIsStored(s: Sys, n: string, j: Job)
    requires Registered(s) && n in s.slots && Lane(s, n) && !s.slots[n].terminal
    requires j in Places(Of(s, n))
    ensures j.state == n && j.id in s.jobs && s.jobs[j.id] == j
  {
    assert j in multiset(InState(s.jobs, n));
    MineIsStored(s, n, j);
  }

  /** Whether all jobs are terminal depends on the configuration of the states only. */
  lemma SameTerminal(a: Slots, b: Slots, jobs: map<string, Job>)
    requires forall n :: n in a <==> n in b
    requires forall n :: n in a ==> a[n].terminal == b[n].terminal
    ensures AllTerminal(a, jobs) <==> AllTerminal(b, jobs)
  {
  }

  lemma InStateOfUpdate(jobs: map<string, Job>, j: Job, n: string)
    requires Keyed(jobs)
    ensures InState(jobs[j.id := j], n) ==
            (if j.id in jobs then InState(jobs, n) - {jobs[j.id]} else InState(jobs, n)) +
                  (if j.state == n then {j} else {})
    ensures j.id in jobs ==> j !in InState(jobs, n) - {jobs[j.id]}
    ensures j.id !in jobs ==> j !in InState(jobs, n)
  {
    var later := jobs[j.id := j];
    forall x | x in InState(later, n)
      ensures x in (if j.id in jobs then InState(jobs, n) - {jobs[j.id]} else InState(jobs, n)) +
              (if j.state == n then {j} else {})
    {
      var id :| id in later && later[id].state == n && later[id] == x;
      if id != j.id {
        assert jobs[id] == x;
      }
    }
    forall x | x in (if j.id in jobs then InState(jobs, n) - {jobs[j.id]} else InState(jobs, n)) +
          (if j.state == n then {j} else {})
      ensures x in InState(later, n)
    {
      if x == j && j.state == n {
        assert later[j.id] == j;
      } else {
        var id :| id in jobs && jobs[id].state == n && jobs[id] == x;
        assert later[id] == x;
      }
    }
  }
}
