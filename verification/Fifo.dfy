/** Jobs waiting for a state are dispatched in the order they came, one for each return from it. */
module Fifo {
  import opened Jobs
  import opened StateStorage
  import opened Scheduler
  import opened SchedulerInvariant

  /** What can happen to the slot of one state. */
  datatype Op = Arrives(job: Job) | Returns

  function Apply(sl: Slot, op: Op): Slot {
    match op
    case Arrives(j) => Arrive(sl, j)
    case Returns => RunNext(sl)
  }

  /** The jobs sent into the channel by one event. */
  function Sends(sl: Slot, op: Op): seq<Job> {
    match op
    case Arrives(j) => if sl.executing < sl.concurrency then [j] else []
    case Returns => if sl.queue == [] then [] else [sl.queue[|sl.queue| - 1]]
  }

  function ApplyAll(sl: Slot, ops: seq<Op>): Slot {
    if ops == [] then sl else Apply(ApplyAll(sl, ops[..|ops| - 1]), ops[|ops| - 1])
  }

  function SendsAll(sl: Slot, ops: seq<Op>): seq<Job> {
    if ops == [] then [] else SendsAll(sl, ops[..|ops| - 1]) + Sends(ApplyAll(sl, ops[..|ops| - 1]), ops[|ops| - 1])
  }

  function Arrivals(ops: seq<Op>): seq<Job> {
    if ops == [] then [] else
    Arrivals(ops[..|ops| - 1]) + if ops[|ops| - 1].Arrives? then [ops[|ops| - 1].job] else []
  }

  function ReturnCount(ops: seq<Op>): nat {
    if ops == [] then 0 else ReturnCount(ops[..|ops| - 1]) + if ops[|ops| - 1].Returns? then 1 else 0
  }

  /** Oldest first. */
  function Line(queue: seq<Job>): seq<Job> {
    seq(|queue|, i requires 0 <= i < |queue| => queue[|queue| - 1 - i])
  }

  ghost predicate InLine(sl: Slot) {
    !sl.terminal && (sl.queue != [] ==> sl.executing >= sl.concurrency)
  }

  /** One event sends what it says, and keeps everyone in line. */
  lemma OneOpInLine(sl: Slot, op: Op)
    requires InLine(sl)
    ensures InLine(Apply(sl, op))
    ensures Apply(sl, op).channel == sl.channel + Sends(sl, op)
    ensures Sends(sl, op) + Line(Apply(sl, op).queue) == Line(sl.queue) + (if op.Arrives? then [op.job] else [])
  {
  }

  /** Everyone who waited or came is either sent or still waiting, in one unbroken order. */
  lemma {:induction false} NobodyOvertakes(sl: Slot, ops: seq<Op>)
    requires InLine(sl)
    ensures InLine(ApplyAll(sl, ops))
    ensures SendsAll(sl, ops) + Line(ApplyAll(sl, ops).queue) == Line(sl.queue) + Arrivals(ops)
  {
    if ops != [] {
      var init, op := ops[..|ops| - 1], ops[|ops| - 1];
      var mid := ApplyAll(sl, init);
      NobodyOvertakes(sl, init);
      OneOpInLine(mid, op);
      Rearrange(SendsAll(sl, init), Sends(mid, op), Line(Apply(mid, op).queue), Line(mid.queue),
                Line(sl.queue), Arrivals(init), if op.Arrives? then [op.job] else []);
    }
  }

  lemma Rearrange<T>(sent: seq<T>, now: seq<T>, left: seq<T>, before: seq<T>, first: seq<T>, came: seq<T>, new_: seq<T>)
    requires sent + before == first + came && now + left == before + new_
    ensures sent + now + left == first + (came + new_)
  {
    assert sent + now + left == sent + (now + left);
    assert first + (came + new_) == first + came + new_;
    assert sent + (before + new_) == sent + before + new_;
  }

  /** While some of the first in line are left, every return sends exactly one job and no arrival does. */
  lemma {:induction false} OneSendPerReturn(sl: Slot, ops: seq<Op>)
    requires InLine(sl) && sl.executing >= sl.concurrency && ReturnCount(ops) <= |sl.queue|
    ensures |SendsAll(sl, ops)| == ReturnCount(ops)
    ensures ApplyAll(sl, ops).executing >= sl.concurrency && ApplyAll(sl, ops).concurrency == sl.concurrency
  {
    if ops != [] {
      var init := ops[..|ops| - 1];
      OneSendPerReturn(sl, init);
      NobodyOvertakes(sl, init);
      assert |SendsAll(sl, init) + Line(ApplyAll(sl, init).queue)| == |sl.queue| + |Arrivals(init)|;
    }
  }

  /**
   * The first k returns send exactly the k jobs that have waited longest, oldest first: a job with k
   * others ahead of it goes at the (k+1)-th return, whatever arrives meanwhile.
   */
  lemma SentInOrder(sl: Slot, ops: seq<Op>)
    requires InLine(sl) && sl.queue != [] && ReturnCount(ops) <= |sl.queue|
    ensures SendsAll(sl, ops) == Line(sl.queue)[..ReturnCount(ops)]
  {
    OneSendPerReturn(sl, ops);
    NobodyOvertakes(sl, ops);
    var sent, rest := SendsAll(sl, ops), Line(ApplyAll(sl, ops).queue);
    assert sent == (sent + rest)[..|sent|];
    assert (Line(sl.queue) + Arrivals(ops))[..|sent|] == Line(sl.queue)[..|sent|];
  }

  // ---- The same for a run of the processor ----

  /** What one action of the processor does to the slot of state `n`. */
  function OpsOf(s: Sys, a: Action, n: string): seq<Op>
    requires Step(s, a).Some?
  {
    match a
    case Enqueue(id) => if s.jobs[id].state == n then [Arrives(s.jobs[id])] else []
    case Free => if s.pc.flight.ret.prior == n then [Returns] else []
    case Place => if s.pc.flight.ret.job.state == n then [Arrives(s.pc.flight.ret.job)] else []
    case KickOne => if NextKick(s.pc).state == n then [Arrives(NextKick(s.pc))] else []
    case _ => []
  }

  function RunOps(s: Sys, acts: seq<Action>, n: string): seq<Op> {
    if acts == [] then [] else
    var m := Run(s, acts[..|acts| - 1]);
    RunOps(s, acts[..|acts| - 1], n)
    + if m.Some? && Step(m.value, acts[|acts| - 1]).Some? then OpsOf(m.value, acts[|acts| - 1], n) else []
  }

  /** The slot but for what workers have taken out of the channel. */
  function Core(sl: Slot): Slot {
    sl.(channel := [])
  }

  lemma CoreOfApply(a: Slot, b: Slot, op: Op)
    requires Core(a) == Core(b)
    ensures Core(Apply(a, op)) == Core(Apply(b, op)) && Sends(a, op) == Sends(b, op)
  {
  }

  lemma StepSlot(s: Sys, a: Action, n: string)
    requires Step(s, a).Some? && n in s.slots
    ensures n in Step(s, a).value.slots
    ensures Core(Step(s, a).value.slots[n]) == Core(ApplyAll(s.slots[n], OpsOf(s, a, n)))
  {
    var ops := OpsOf(s, a, n);
    if ops != [] {
      assert ops[..0] == [];
    }
  }

  lemma ApplyMore(sl: Slot, ops: seq<Op>, more: seq<Op>)
    requires |more| <= 1
    ensures ApplyAll(sl, ops + more) == ApplyAll(ApplyAll(sl, ops), more)
  {
    if more == [] {
      assert ops + more == ops;
    } else {
      assert (ops + more)[..|ops|] == ops;
      assert more[..0] == [];
    }
  }

  lemma CoreOfApplyAll(a: Slot, b: Slot, more: seq<Op>)
    requires |more| <= 1 && Core(a) == Core(b)
    ensures Core(ApplyAll(a, more)) == Core(ApplyAll(b, more))
  {
    if more != [] {
      assert more[..0] == [];
      CoreOfApply(a, b, more[0]);
    }
  }

  /** The slot of a state goes through exactly the events that concern the state. */
  lemma {:induction false} RunSlot(s: Sys, acts: seq<Action>, n: string)
    requires Run(s, acts).Some? && n in s.slots
    ensures n in Run(s, acts).value.slots
    ensures Core(Run(s, acts).value.slots[n]) == Core(ApplyAll(s.slots[n], RunOps(s, acts, n)))
  {
    if acts != [] {
      var init, a := acts[..|acts| - 1], acts[|acts| - 1];
      RunSlot(s, init, n);
      var m := Run(s, init).value;
      StepSlot(m, a, n);
      ApplyMore(s.slots[n], RunOps(s, init, n), OpsOf(m, a, n));
      CoreOfApplyAll(m.slots[n], ApplyAll(s.slots[n], RunOps(s, init, n)), OpsOf(m, a, n));
    }
  }

  // ---- What workers take ----

  /** The jobs that the workers of state `n` receive, in order. */
  function TakenAll(s: Sys, acts: seq<Action>, n: string): seq<Job> {
    if acts == [] then [] else
    var init, a := acts[..|acts| - 1], acts[|acts| - 1];
    var m := Run(s, init);
    TakenAll(s, init, n) + if m.Some? then TakenBy(m.value, a, n) else []
  }

  /** Each event of a state that is not terminal sends what it says. */
  lemma OneOpSends(sl: Slot, op: Op)
    requires !sl.terminal
    ensures Apply(sl, op).channel == sl.channel + Sends(sl, op) && !Apply(sl, op).terminal
  {
  }

  lemma StepChannel(s: Sys, a: Action, n: string)
    requires Step(s, a).Some? && n in s.slots && !s.slots[n].terminal
    ensures n in Step(s, a).value.slots && !Step(s, a).value.slots[n].terminal
    ensures var before, later := s.slots[n].channel, Step(s, a).value.slots[n].channel;
            if a == Take(n) then before != [] && [before[0]] + later == before
            else later == before + SendsAll(s.slots[n], OpsOf(s, a, n))
  {
    var ops := OpsOf(s, a, n);
    if ops != [] {
      assert ops[..0] == [];
      OneOpSends(s.slots[n], ops[0]);
    }
  }

  lemma SendsMore(sl: Slot, ops: seq<Op>, more: seq<Op>)
    requires |more| <= 1
    ensures SendsAll(sl, ops + more) == SendsAll(sl, ops) + SendsAll(ApplyAll(sl, ops), more)
  {
    if more == [] {
      assert ops + more == ops;
    } else {
      assert (ops + more)[..|ops|] == ops;
      assert more[..0] == [];
    }
  }

  lemma SendsOfCore(a: Slot, b: Slot, more: seq<Op>)
    requires |more| <= 1 && Core(a) == Core(b)
    ensures SendsAll(a, more) == SendsAll(b, more)
  {
    if more != [] {
      assert more[..0] == [];
      CoreOfApply(a, b, more[0]);
    }
  }

  lemma TakenNext(taken: seq<Job>, channel: seq<Job>, later: seq<Job>, first: seq<Job>, sent: seq<Job>)
    requires taken + channel == first + sent && channel != [] && [channel[0]] + later == channel
    ensures taken + [channel[0]] + later == first + sent
  {
    assert taken + [channel[0]] + later == taken + ([channel[0]] + later);
  }

  lemma SentNext(taken: seq<Job>, channel: seq<Job>, more: seq<Job>, first: seq<Job>, sent: seq<Job>)
    requires taken + channel == first + sent
    ensures taken + (channel + more) == first + (sent + more)
  {
    assert taken + (channel + more) == taken + channel + more;
    assert first + (sent + more) == first + sent + more;
  }

  function TakenBy(s: Sys, a: Action, n: string): seq<Job> {
    if a == Take(n) && CanTake(s, n) then [s.slots[n].channel[0]] else []
  }

  lemma StepTaken(s: Sys, a: Action, n: string, taken: seq<Job>, first: seq<Job>, sent: seq<Job>)
    requires Step(s, a).Some? && n in s.slots && !s.slots[n].terminal
    requires taken + s.slots[n].channel == first + sent
    ensures n in Step(s, a).value.slots && !Step(s, a).value.slots[n].terminal
    ensures taken + TakenBy(s, a, n) + Step(s, a).value.slots[n].channel
            == first + (sent + SendsAll(s.slots[n], OpsOf(s, a, n)))
  {
    var channel, later := s.slots[n].channel, Step(s, a).value.slots[n].channel;
    StepChannel(s, a, n);
    if a == Take(n) {
      TakenNext(taken, channel, later, first, sent);
      assert sent + [] == sent;
    } else {
      SentNext(taken, channel, SendsAll(s.slots[n], OpsOf(s, a, n)), first, sent);
      assert taken + [] == taken;
    }
  }

  /** What workers have taken and what is in the channel are what was in it and what has been sent, in order. */
  lemma {:induction false} TakenInOrder(s: Sys, acts: seq<Action>, n: string)
    requires Run(s, acts).Some? && n in s.slots && !s.slots[n].terminal
    ensures n in Run(s, acts).value.slots && !Run(s, acts).value.slots[n].terminal
    ensures TakenAll(s, acts, n) + Run(s, acts).value.slots[n].channel ==
            s.slots[n].channel + SendsAll(s.slots[n], RunOps(s, acts, n))
  {
    if acts != [] {
      var init, a := acts[..|acts| - 1], acts[|acts| - 1];
      TakenInOrder(s, init, n);
      RunSlot(s, init, n);
      var m, sl, ops := Run(s, init).value, s.slots[n], RunOps(s, init, n);
      StepTaken(m, a, n, TakenAll(s, init, n), sl.channel, SendsAll(sl, ops));
      SendsMore(sl, ops, OpsOf(m, a, n));
      SendsOfCore(m.slots[n], ApplyAll(sl, ops), OpsOf(m, a, n));
    }
  }

  /**
   * From any reachable state of the processor: as long as no more results of state `n` are handled
   * than jobs waited for it, what its workers take and what is left for them in the channel are the jobs
   * that were there and then the longest-waiting ones in order, one for each result; the others wait on in
   * front of everything that came later.
   */
  lemma RunSendsInOrder(s: Sys, acts: seq<Action>, n: string)
    requires Inv(s) && Run(s, acts).Some? && n in s.slots && s.slots[n].queue != []
    requires ReturnCount(RunOps(s, acts, n)) <= |s.slots[n].queue|
    ensures var ops, line := RunOps(s, acts, n), Line(s.slots[n].queue);
            && n in Run(s, acts).value.slots
            && TakenAll(s, acts, n) + Run(s, acts).value.slots[n].channel ==
                  s.slots[n].channel + line[..ReturnCount(ops)]
            && Line(Run(s, acts).value.slots[n].queue) == line[ReturnCount(ops)..] + Arrivals(ops)
  {
    assert Lane(s, n);
    FromSlot(s.slots[n], RunOps(s, acts, n));
    RunSlot(s, acts, n);
    TakenInOrder(s, acts, n);
  }

  lemma FromSlot(sl: Slot, ops: seq<Op>)
    requires InLine(sl) && sl.queue != [] && ReturnCount(ops) <= |sl.queue|
    ensures SendsAll(sl, ops) == Line(sl.queue)[..ReturnCount(ops)]
    ensures Line(ApplyAll(sl, ops).queue) == Line(sl.queue)[ReturnCount(ops)..] + Arrivals(ops)
  {
    SentInOrder(sl, ops);
    NobodyOvertakes(sl, ops);
    CutFront(Line(sl.queue), Line(ApplyAll(sl, ops).queue), Arrivals(ops), ReturnCount(ops));
  }

  lemma CutFront<T>(line: seq<T>, rest: seq<T>, came: seq<T>, k: nat)
    requires k <= |line| && line[..k] + rest == line + came
    ensures rest == line[k..] + came
  {
    assert rest == (line[..k] + rest)[k..];
  }
}
