/** Every action keeps the invariant. */
module SchedulerSteps {
  import opened Jobs
  import opened KickIds
  import opened Scheduler
  import opened Lanes
  import opened SchedulerInvariant

  // ---- A queued job at start ----

  lemma TodoWithout(jobs: map<string, Job>, todo: set<string>, id: string, n: string)
    requires Keyed(jobs) && id in todo && id in jobs
    ensures jobs[id].state == n ==>
            jobs[id] in Todo(jobs, todo, n) && Todo(jobs, todo - {id}, n) == Todo(jobs, todo, n) - {jobs[id]}
    ensures jobs[id].state != n ==> Todo(jobs, todo - {id}, n) == Todo(jobs, todo, n)
  {
    forall x | x in Todo(jobs, todo, n) && x != jobs[id] ensures x in Todo(jobs, todo - {id}, n) {
      assert jobs[x.id] == x;
    }
  }

  lemma MultisetMinus<T>(a: set<T>, x: T)
    requires x in a
    ensures multiset(a - {x}) == multiset(a) - multiset{x}
  {
  }

  lemma EnqueueHeld(s: Sys, id: string, n: string)
    requires CanEnqueue(s, id) && n in s.slots
    ensures Held(s, n) == multiset(Todo(s.jobs, s.pc.todo, n))
    ensures Held(AfterEnqueue(s, id), n) == multiset(Todo(s.jobs, s.pc.todo - {id}, n))
  {
    if s.pc.todo - {id} == {} {
      NothingTodo(s.jobs, s.pc.todo - {id}, n);
    }
  }

  lemma NothingTodo(jobs: map<string, Job>, todo: set<string>, n: string)
    requires todo == {}
    ensures Todo(jobs, todo, n) == {}
  {
  }

  lemma EnqueueView(s: Sys, id: string, n: string)
    requires CanEnqueue(s, id) && Keyed(s.jobs) && n in s.slots && n in s.pools
    ensures var t, j := AfterEnqueue(s, id), s.jobs[id];
            && (j.state == n ==> j in Held(s, n))
            && Of(t, n) == if j.state == n then Enqueued(Of(s, n), j) else Of(s, n)
  {
    EnqueueHeld(s, id, n);
    TodoWithout(s.jobs, s.pc.todo, id, n);
    if s.jobs[id].state == n {
      MultisetMinus(Todo(s.jobs, s.pc.todo, n), s.jobs[id]);
    }
  }

  lemma EnqueueKeepsLane(s: Sys, id: string, n: string)
    requires CanEnqueue(s, id) && Keyed(s.jobs) && n in s.slots && n in s.pools && Lane(s, n)
    ensures Lane(AfterEnqueue(s, id), n)
  {
    EnqueueView(s, id, n);
    if s.jobs[id].state == n {
      LaneEnqueue(n, Of(s, n), s.jobs[id]);
    }
  }

  lemma EnqueueKeepsLanes(s: Sys, id: string)
    requires Registered(s) && AllLanes(s) && CanEnqueue(s, id)
    ensures Registered(AfterEnqueue(s, id)) && AllLanes(AfterEnqueue(s, id))
  {
    forall n | n in s.slots ensures Lane(AfterEnqueue(s, id), n) {
      EnqueueKeepsLane(s, id, n);
    }
  }

  lemma EnqueueKeepsFlights(s: Sys, id: string)
    requires Flights(s) && CanEnqueue(s, id)
    ensures Flights(AfterEnqueue(s, id))
  {
    forall f | FlightOk(s, f) ensures FlightOk(AfterEnqueue(s, id), f) {
    }
  }

  lemma EnqueueKeepsPc(s: Sys, id: string)
    requires PcOk(s) && CanEnqueue(s, id)
    ensures PcOk(AfterEnqueue(s, id))
  {
    SameTerminal(s.slots, AfterEnqueue(s, id).slots, s.jobs);
  }

  lemma EnqueueKeeps(s: Sys, id: string)
    requires Inv(s) && CanEnqueue(s, id)
    ensures Inv(AfterEnqueue(s, id))
  {
    EnqueueKeepsLanes(s, id);
    EnqueueKeepsFlights(s, id);
    EnqueueKeepsPc(s, id);
  }

  // ---- Workers ----

  lemma TakeView(s: Sys, m: string, n: string)
    requires CanTake(s, m) && n in s.slots && n in s.pools
    ensures Of(AfterTake(s, m), n) == if n == m then Taken(Of(s, n)) else Of(s, n)
  {
  }

  lemma TakeKeepsLane(s: Sys, m: string, n: string)
    requires CanTake(s, m) && n in s.slots && n in s.pools && Lane(s, n)
    ensures Lane(AfterTake(s, m), n)
  {
    TakeView(s, m, n);
    if n == m {
      LaneTake(n, Of(s, n));
    }
  }

  lemma TakeKeepsLanes(s: Sys, m: string)
    requires Registered(s) && AllLanes(s) && CanTake(s, m)
    ensures Registered(AfterTake(s, m)) && AllLanes(AfterTake(s, m))
  {
    forall n | n in s.slots ensures Lane(AfterTake(s, m), n) {
      TakeKeepsLane(s, m, n);
    }
  }

  lemma TakeKeepsFlights(s: Sys, m: string)
    requires Flights(s) && CanTake(s, m)
    ensures Flights(AfterTake(s, m))
  {
    forall f | FlightOk(s, f) ensures FlightOk(AfterTake(s, m), f) {
    }
  }

  lemma TakeKeepsPc(s: Sys, m: string)
    requires PcOk(s) && CanTake(s, m)
    ensures PcOk(AfterTake(s, m))
  {
    SameTerminal(s.slots, AfterTake(s, m).slots, s.jobs);
  }

  lemma TakeKeeps(s: Sys, m: string)
    requires Inv(s) && CanTake(s, m)
    ensures Inv(AfterTake(s, m))
  {
    TakeKeepsLanes(s, m);
    TakeKeepsFlights(s, m);
    TakeKeepsPc(s, m);
  }

  lemma RunningIsStored(s: Sys, n: string, i: nat)
    requires Registered(s) && n in s.slots && n in s.pools && i < |s.pools[n].running| && Lane(s, n)
    ensures var j := s.pools[n].running[i]; j.state == n && j.id in s.jobs && s.jobs[j.id] == j
    ensures !s.slots[n].terminal
  {
    var j := s.pools[n].running[i];
    assert j in multiset(s.pools[n].running);
    PlacedIsStored(s, n, j);
  }

  lemma ExecuteView(s: Sys, m: string, i: nat, o: Outcome, n: string)
    requires CanExecute(s, m, i) && n in s.slots && n in s.pools
    ensures Of(AfterExecute(s, m, i, o), n) ==
            if n == m then Executed(Of(s, n), i, Returned(s, m, s.pools[m].running[i], o)) else Of(s, n)
  {
  }

  lemma ExecuteKeepsLane(s: Sys, m: string, i: nat, o: Outcome, n: string)
    requires CanExecute(s, m, i) && n in s.slots && n in s.pools && Lane(s, n)
    ensures Lane(AfterExecute(s, m, i, o), n)
  {
    ExecuteView(s, m, i, o, n);
    if n == m {
      LaneExecute(n, Of(s, n), i, Returned(s, m, s.pools[m].running[i], o));
    }
  }

  lemma ExecuteKeepsLanes(s: Sys, m: string, i: nat, o: Outcome)
    requires Registered(s) && AllLanes(s) && CanExecute(s, m, i)
    ensures Registered(AfterExecute(s, m, i, o)) && AllLanes(AfterExecute(s, m, i, o))
  {
    forall n | n in s.slots ensures Lane(AfterExecute(s, m, i, o), n) {
      ExecuteKeepsLane(s, m, i, o, n);
    }
  }

  lemma ResultOk(s: Sys, m: string, i: nat, o: Outcome)
    requires Registered(s) && m in s.slots && CanExecute(s, m, i) && Lane(s, m) && Contract(s, Execute(m, i, o))
    ensures var f := Returned(s, m, s.pools[m].running[i], o); FlightOk(s, f) && f.ret.prior == m
  {
    RunningIsStored(s, m, i);
    ClassifyAppends(s.pools[m].running[i], o, s.timeouts[m], false);
  }

  lemma ExecuteKeepsRest(s: Sys, m: string, i: nat, o: Outcome)
    requires Flights(s) && PcOk(s) && CanExecute(s, m, i)
    requires var f := Returned(s, m, s.pools[m].running[i], o); FlightOk(s, f) && f.ret.prior == m
    ensures Flights(AfterExecute(s, m, i, o)) && PcOk(AfterExecute(s, m, i, o))
  {
    var t := AfterExecute(s, m, i, o);
    forall f | FlightOk(s, f) ensures FlightOk(t, f) {
    }
  }

  lemma ExecuteKeeps(s: Sys, m: string, i: nat, o: Outcome)
    requires Inv(s) && CanExecute(s, m, i) && Contract(s, Execute(m, i, o))
    ensures Inv(AfterExecute(s, m, i, o))
  {
    ResultOk(s, m, i, o);
    ExecuteKeepsLanes(s, m, i, o);
    ExecuteKeepsRest(s, m, i, o);
  }

  lemma SendView(s: Sys, m: string, i: nat, n: string)
    requires CanSend(s, m, i) && s.pools[m].done[i].ret.prior == m && n in s.slots && n in s.pools
    ensures Of(AfterSend(s, m, i), n) == if n == m then Sent(Of(s, n), i) else Of(s, n)
  {
    FromAppend(s.returned, s.pools[m].done[i], n);
  }

  lemma SendKeepsLane(s: Sys, m: string, i: nat, n: string)
    requires CanSend(s, m, i) && s.pools[m].done[i].ret.prior == m && n in s.slots && n in s.pools && Lane(s, n)
    ensures Lane(AfterSend(s, m, i), n)
  {
    SendView(s, m, i, n);
    if n == m {
      LaneSend(n, Of(s, n), i);
    }
  }

  lemma SendKeepsLanes(s: Sys, m: string, i: nat)
    requires Registered(s) && AllLanes(s) && CanSend(s, m, i) && s.pools[m].done[i].ret.prior == m
    ensures Registered(AfterSend(s, m, i)) && AllLanes(AfterSend(s, m, i))
  {
    forall n | n in s.slots ensures Lane(AfterSend(s, m, i), n) {
      SendKeepsLane(s, m, i, n);
    }
  }

  /** When every job is terminal, no place of any state holds one. */
  lemma NothingLeft(s: Sys, n: string)
    requires Registered(s) && n in s.slots && Lane(s, n) && AllTerminal(s.slots, s.jobs)
    ensures s.slots[n].executing == 0 && s.slots[n].queue == [] && s.slots[n].channel == []
    ensures s.pools[n].running == [] && s.pools[n].done == [] && From(s.returned, n) == []
  {
    var v := Of(s, n);
    if !v.slot.terminal {
      assert InState(s.jobs, n) == {};
      assert |multiset(InState(s.jobs, n))| == 0;
      assert |Places(v)| == |v.slot.queue| + |v.slot.channel| + |v.pool.running| + |JobsOf(v.pool.done)| +
            |JobsOf(v.back)| + |v.held|;
      assert v.counted > 0 ==> |v.held| == 1;
    }
  }

  lemma SendKeepsFlights(s: Sys, m: string, i: nat)
    requires Flights(s) && CanSend(s, m, i)
    ensures Flights(AfterSend(s, m, i))
  {
    var t := AfterSend(s, m, i);
    forall f | FlightOk(s, f) ensures FlightOk(t, f) {
    }
  }

  lemma SendKeepsPc(s: Sys, m: string, i: nat)
    requires PcOk(s) && CanSend(s, m, i) && !s.pc.Exited?
    ensures PcOk(AfterSend(s, m, i))
  {
    var t := AfterSend(s, m, i);
    forall f | FlightOk(s, f) ensures FlightOk(t, f) {
    }
  }

  lemma NotExited(s: Sys, m: string, i: nat)
    requires Registered(s) && m in s.slots && Lane(s, m) && PcOk(s) && CanSend(s, m, i)
    ensures !s.pc.Exited?
  {
    if s.pc.Exited? {
      NothingLeft(s, m);
    }
  }

  lemma SendKeeps(s: Sys, m: string, i: nat)
    requires Inv(s) && CanSend(s, m, i)
    ensures Inv(AfterSend(s, m, i))
  {
    NotExited(s, m, i);
    SendKeepsLanes(s, m, i);
    SendKeepsFlights(s, m, i);
    SendKeepsPc(s, m, i);
  }

  // ---- The central goroutine ----

  lemma FromHead(fs: seq<Flight>, n: string)
    requires fs != []
    ensures From(fs, n) == Only(fs[0], n) + From(fs[1..], n)
  {
  }

  lemma FromFirst(fs: seq<Flight>, n: string)
    requires fs != [] && fs[0].ret.prior == n
    ensures From(fs, n) == [fs[0]] + From(fs[1..], n)
  {
    FromHead(fs, n);
  }

  lemma ReceiveHeld(s: Sys, n: string)
    requires CanReceive(s) && s.returned[0].ret.prior == n
    ensures Held(AfterReceive(s), n) == Held(s, n) + multiset{s.returned[0].before}
    ensures Counted(AfterReceive(s), n) == Counted(s, n) + 1
  {
  }

  lemma ReceiveView(s: Sys, n: string)
    requires CanReceive(s) && n in s.slots && n in s.pools && n == s.returned[0].ret.prior
    ensures From(s.returned, n) != [] && Of(AfterReceive(s), n) == Fetched(Of(s, n))
  {
    FromFirst(s.returned, n);
    ReceiveHeld(s, n);
  }

  lemma ReceiveViewElsewhere(s: Sys, n: string)
    requires CanReceive(s) && n in s.slots && n in s.pools && n != s.returned[0].ret.prior
    ensures Of(AfterReceive(s), n) == Of(s, n)
  {
    FromHead(s.returned, n);
  }

  lemma ReceiveKeepsLane(s: Sys, n: string)
    requires CanReceive(s) && n in s.slots && n in s.pools && Lane(s, n)
    ensures Lane(AfterReceive(s), n)
  {
    if n == s.returned[0].ret.prior {
      ReceiveView(s, n);
      LaneReceive(n, Of(s, n));
    } else {
      ReceiveViewElsewhere(s, n);
    }
  }

  lemma ReceiveKeepsRest(s: Sys)
    requires Flights(s) && CanReceive(s)
    ensures Flights(AfterReceive(s)) && PcOk(AfterReceive(s))
  {
    var t := AfterReceive(s);
    forall f | FlightOk(s, f) ensures FlightOk(t, f) {
    }
  }

  lemma ReceiveKeeps(s: Sys)
    requires Inv(s) && CanReceive(s)
    ensures Inv(AfterReceive(s))
  {
    forall n | n in s.slots ensures Lane(AfterReceive(s), n) {
      ReceiveKeepsLane(s, n);
    }
    ReceiveKeepsRest(s);
  }

  lemma FreeView(s: Sys, n: string)
    requires CanFree(s) && n in s.slots && n in s.pools
    ensures Of(AfterFree(s), n) == if n == s.pc.flight.ret.prior then SlotGivenBack(Of(s, n)) else Of(s, n)
  {
  }

  lemma FreeKeepsLane(s: Sys, n: string)
    requires CanFree(s) && n in s.slots && n in s.pools && Lane(s, n)
    ensures Lane(AfterFree(s), n)
  {
    FreeView(s, n);
    if n == s.pc.flight.ret.prior {
      LaneFree(n, Of(s, n));
    }
  }

  lemma FreeKeepsRest(s: Sys)
    requires Registered(s) && Flights(s) && PcOk(s) && CanFree(s)
    ensures Registered(AfterFree(s)) && Flights(AfterFree(s)) && PcOk(AfterFree(s))
  {
    var t := AfterFree(s);
    forall f | FlightOk(s, f) ensures FlightOk(t, f) {
    }
  }

  lemma FreeKeeps(s: Sys)
    requires Inv(s) && CanFree(s)
    ensures Inv(AfterFree(s))
  {
    forall n | n in s.slots ensures Lane(AfterFree(s), n) {
      FreeKeepsLane(s, n);
    }
    FreeKeepsRest(s);
  }

  // ---- Placing the returned job ----

  /** The held job is the stored one, of a non-terminal state. */
  lemma HeldIsStored(s: Sys)
    requires Registered(s) && s.pc.Freed? && FlightOk(s, s.pc.flight) && Lane(s, s.pc.flight.ret.prior)
    requires !s.slots[s.pc.flight.ret.prior].terminal
    ensures var b := s.pc.flight.before; b.id in s.jobs && s.jobs[b.id] == b
  {
    assert s.pc.flight.before in Held(s, s.pc.flight.ret.prior);
    PlacedIsStored(s, s.pc.flight.ret.prior, s.pc.flight.before);
  }

  ghost function Placed(v: View, n: string, b: Job, j: Job): View {
    var gone := if b.state == n then Left(v, b) else v;
    if j.state == n then Arrived(gone, j) else gone
  }

  lemma PlaceView(s: Sys, n: string)
    requires CanPlace(s) && Keyed(s.jobs) && n in s.slots && n in s.pools && FlightOk(s, s.pc.flight)
    requires s.pc.flight.before.id in s.jobs && s.jobs[s.pc.flight.before.id] == s.pc.flight.before
    ensures Of(AfterPlace(s), n) == Placed(Of(s, n), n, s.pc.flight.before, s.pc.flight.ret.job)
  {
    InStateOfUpdate(s.jobs, s.pc.flight.ret.job, n);
    if s.pc.flight.before.state != n {
      assert s.pc.flight.before !in InState(s.jobs, n);
    }
  }

  lemma PlaceKeepsLane(s: Sys, n: string)
    requires CanPlace(s) && Keyed(s.jobs) && n in s.slots && n in s.pools && Lane(s, n) && FlightOk(s, s.pc.flight)
    requires s.pc.flight.before.id in s.jobs && s.jobs[s.pc.flight.before.id] == s.pc.flight.before
    requires !s.slots[s.pc.flight.ret.prior].terminal
    ensures Lane(AfterPlace(s), n)
  {
    var b, j := s.pc.flight.before, s.pc.flight.ret.job;
    var gone := if b.state == n then Left(Of(s, n), b) else Of(s, n);
    assert LaneOk(n, gone) by {
      if b.state == n {
        LaneLeave(n, Of(s, n), b);
      }
    }
    PlaceView(s, n);
    if j.state == n {
      InStateOfUpdate(s.jobs, j, n);
      assert j !in gone.mine;
      LaneArrive(n, gone, j);
    }
  }

  lemma PlaceKeepsRegistered(s: Sys)
    requires CanPlace(s) && Registered(s)
    ensures Registered(AfterPlace(s))
  {
  }

  lemma PlaceKeepsLanes(s: Sys)
    requires Registered(s) && AllLanes(s) && CanPlace(s) && FlightOk(s, s.pc.flight)
    requires !s.slots[s.pc.flight.ret.prior].terminal
    ensures Registered(AfterPlace(s)) && AllLanes(AfterPlace(s))
  {
    PlaceKeepsRegistered(s);
    HeldIsStored(s);
    forall n | n in s.slots ensures Lane(AfterPlace(s), n) {
      PlaceKeepsLane(s, n);
    }
  }

  /** No other result belongs to the job being handled. */
  lemma NoOtherResult(s: Sys, g: Flight)
    requires Registered(s) && AllLanes(s) && s.pc.Freed? && FlightOk(s, s.pc.flight) && FlightOk(s, g)
    requires g in s.returned || (g.ret.prior in s.pools && g in s.pools[g.ret.prior].done)
    ensures g.ret.job.id != s.pc.flight.ret.job.id
  {
    var n, f := g.ret.prior, s.pc.flight;
    assert Lane(s, n) && Lane(s, f.ret.prior);
    HeldIsStored(s);
    ResultIsBehind(s, g);
    PlacedIsStored(s, n, g.before);
    if g.before == f.before {
      HeldIsAlone(n, Of(s, n), f.before);
    }
  }

  lemma ResultIsBehind(s: Sys, g: Flight)
    requires g.ret.prior in s.slots && g.ret.prior in s.pools
    requires g in s.returned || g in s.pools[g.ret.prior].done
    ensures var v := Of(s, g.ret.prior); g.before in Befores(v.back) || g.before in Befores(v.pool.done)
  {
    var v := Of(s, g.ret.prior);
    if g in s.returned {
      var i :| 0 <= i < |s.returned| && s.returned[i] == g;
      FromMember(s.returned, i, g.ret.prior);
      var k :| 0 <= k < |v.back| && v.back[k] == g;
      BeforesIn(v.back, k);
    } else {
      var k :| 0 <= k < |v.pool.done| && v.pool.done[k] == g;
      BeforesIn(v.pool.done, k);
    }
  }

  lemma FlightAfterPlace(s: Sys, g: Flight)
    requires CanPlace(s) && FlightOk(s, g) && s.pc.flight.ret.job.id in s.jobs && g.ret.job.id != s.pc.flight.ret.job.id
    ensures FlightOk(AfterPlace(s), g)
  {
  }

  lemma PlaceKeepsFlights(s: Sys)
    requires Registered(s) && AllLanes(s) && Flights(s) && CanPlace(s) && FlightOk(s, s.pc.flight)
    ensures Flights(AfterPlace(s))
  {
    var t := AfterPlace(s);
    assert Lane(s, s.pc.flight.ret.prior);
    HeldIsStored(s);
    forall i | 0 <= i < |s.returned| ensures FlightOk(t, s.returned[i]) {
      NoOtherResult(s, s.returned[i]);
      FlightAfterPlace(s, s.returned[i]);
    }
    forall n, i | n in s.pools && 0 <= i < |s.pools[n].done|
      ensures FlightOk(t, s.pools[n].done[i]) && s.pools[n].done[i].ret.prior == n
    {
      NoOtherResult(s, s.pools[n].done[i]);
      FlightAfterPlace(s, s.pools[n].done[i]);
    }
  }

  lemma PlaceKeepsPc(s: Sys)
    requires Registered(s) && CanPlace(s) && FlightOk(s, s.pc.flight) && s.pc.flight.ret.job.id in s.jobs &&
            KidsClosed(s.jobs)
    ensures PcOk(AfterPlace(s)) && KidsClosed(AfterPlace(s).jobs)
  {
    var ret := s.pc.flight.ret;
    forall p, i: nat ensures Child(p, i) in AfterPlace(s).jobs <==> Child(p, i) in s.jobs {
    }
    assert ret.kicks != [] ==> Child(ret.job.id, 0) !in s.jobs;
  }

  lemma PlaceKeeps(s: Sys)
    requires Inv(s) && CanPlace(s)
    ensures Inv(AfterPlace(s))
  {
    assert Lane(s, s.pc.flight.ret.prior);
    HeldIsStored(s);
    PlaceKeepsLanes(s);
    PlaceKeepsFlights(s);
    PlaceKeepsPc(s);
  }

  // ---- Kick requests ----

  lemma KickView(s: Sys, n: string)
    requires CanKick(s) && Keyed(s.jobs) && n in s.slots && n in s.pools && NextKick(s.pc).id !in s.jobs
    ensures var j := NextKick(s.pc);
            && j !in InState(s.jobs, n)
            && Of(AfterKick(s), n) == if j.state == n then Arrived(Of(s, n), j) else Of(s, n)
  {
    InStateOfUpdate(s.jobs, NextKick(s.pc), n);
  }

  lemma KickKeepsLane(s: Sys, n: string)
    requires CanKick(s) && Keyed(s.jobs) && n in s.slots && n in s.pools && Lane(s, n) && NextKick(s.pc).id !in s.jobs
    ensures Lane(AfterKick(s), n)
  {
    KickView(s, n);
    if NextKick(s.pc).state == n {
      LaneArrive(n, Of(s, n), NextKick(s.pc));
    }
  }

  lemma KickKeepsRegistered(s: Sys)
    requires CanKick(s) && Registered(s)
    ensures Registered(AfterKick(s))
  {
  }

  lemma KickKeepsLanes(s: Sys)
    requires Registered(s) && AllLanes(s) && CanKick(s) && NextKick(s.pc).id !in s.jobs
    ensures Registered(AfterKick(s)) && AllLanes(AfterKick(s))
  {
    KickKeepsRegistered(s);
    forall n | n in s.slots ensures Lane(AfterKick(s), n) {
      KickKeepsLane(s, n);
    }
  }

  lemma FlightAfterKick(s: Sys, g: Flight)
    requires CanKick(s) && FlightOk(s, g)
    ensures FlightOk(AfterKick(s), g)
  {
    ChildInjective(g.ret.job.id, 0, s.pc.ret.job.id, s.pc.next);
  }

  lemma KickKeepsFlights(s: Sys)
    requires Flights(s) && CanKick(s)
    ensures Flights(AfterKick(s))
  {
    forall g | FlightOk(s, g) ensures FlightOk(AfterKick(s), g) {
      FlightAfterKick(s, g);
    }
  }

  lemma KickKeepsPc(s: Sys)
    requires PcOk(s) && CanKick(s) && KidsClosed(s.jobs)
    ensures PcOk(AfterKick(s)) && KidsClosed(AfterKick(s).jobs)
  {
    var t, id, next := AfterKick(s), s.pc.ret.job.id, s.pc.next;
    forall p, i: nat ensures Child(p, i) in t.jobs <==> Child(p, i) in s.jobs || (p == id && i == next) {
      ChildInjective(p, i, id, next);
    }
  }

  /** Every kicked id is new to the run. */
  lemma KickIsFresh(s: Sys)
    requires PcOk(s) && CanKick(s)
    ensures NextKick(s.pc).id !in s.jobs
  {
  }

  lemma KickKeeps(s: Sys)
    requires Inv(s) && CanKick(s)
    ensures Inv(AfterKick(s))
  {
    KickIsFresh(s);
    KickKeepsLanes(s);
    KickKeepsFlights(s);
    KickKeepsPc(s);
  }

  // ---- The rest of the loop ----

  /** The central goroutine moves on with empty hands. */
  lemma IdleView(s: Sys, pc: Pc, n: string)
    requires n in s.slots && n in s.pools
    requires s.pc.Kicking? || s.pc.Draining?
    requires pc.Draining? || pc.Selecting? || pc.Exited?
    ensures Of(s.(pc := pc), n) == Of(s, n)
  {
  }

  lemma IdleKeepsLanes(s: Sys, pc: Pc)
    requires Registered(s) && AllLanes(s) && (s.pc.Kicking? || s.pc.Draining?)
    requires pc.Draining? || pc.Selecting? || pc.Exited?
    ensures Registered(s.(pc := pc)) && AllLanes(s.(pc := pc))
  {
    forall n | n in s.slots ensures Lane(s.(pc := pc), n) {
      assert Lane(s, n);
      IdleView(s, pc, n);
    }
  }

  lemma IdleKeepsFlights(s: Sys, pc: Pc)
    requires Flights(s) && !pc.Kicking?
    ensures Flights(s.(pc := pc))
  {
    forall g | FlightOk(s, g) ensures FlightOk(s.(pc := pc), g) {
    }
  }

  lemma PersistKeeps(s: Sys)
    requires Inv(s) && s.pc.Kicking? && s.pc.next == |s.pc.ret.kicks|
    ensures Inv(s.(pc := Draining))
  {
    IdleKeepsLanes(s, Draining);
    IdleKeepsFlights(s, Draining);
  }

  /** With all jobs terminal nothing executes, so the loop's second test never keeps it going. */
  lemma AllTerminalMeansIdle(s: Sys)
    requires Registered(s) && AllLanes(s) && AllTerminal(s.slots, s.jobs)
    ensures !AnyExecuting(s.slots)
  {
    forall n | n in s.slots ensures s.slots[n].executing == 0 {
      NothingLeft(s, n);
    }
  }

  lemma DrainedKeepsPc(s: Sys)
    requires Registered(s) && AllLanes(s) && s.returned == []
    ensures PcOk(AfterDrained(s))
  {
    if AllTerminal(s.slots, s.jobs) {
      AllTerminalMeansIdle(s);
    }
  }

  lemma DrainedKeeps(s: Sys)
    requires Inv(s) && s.pc.Draining? && s.returned == []
    ensures Inv(AfterDrained(s))
  {
    IdleKeepsLanes(s, AfterDrained(s).pc);
    IdleKeepsFlights(s, AfterDrained(s).pc);
    DrainedKeepsPc(s);
  }

  /** Every action of a run that keeps the Exec contract keeps the invariant. */
  lemma StepKeeps(s: Sys, a: Action)
    requires Inv(s) && Step(s, a).Some? && Contract(s, a)
    ensures Inv(Step(s, a).value)
  {
    match a
    case Enqueue(id) => EnqueueKeeps(s, id);
    case Take(n) => TakeKeeps(s, n);
    case Execute(n, i, o) => ExecuteKeeps(s, n, i, o);
    case Send(n, i) => SendKeeps(s, n, i);
    case Receive => ReceiveKeeps(s);
    case Free => FreeKeeps(s);
    case Place => PlaceKeeps(s);
    case KickOne => KickKeeps(s);
    case Persist => PersistKeeps(s);
    case Drained => DrainedKeeps(s);
  }
}
