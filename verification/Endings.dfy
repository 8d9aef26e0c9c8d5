/**
 * Runs in which every execution hands back less weight than it took cannot go on for ever, cannot get
 * stuck, and end with every job terminal, in whatever order the goroutines get their turns.
 */
module Endings {
  import opened Jobs
  import opened StateStorage
  import opened Scheduler
  import opened SchedulerInvariant
  import opened SchedulerSteps
  import opened SchedulerResults
  import opened Termination

  /** A run that keeps the Exec contract and whose executions all hand back less weight than they took. */
  ghost predicate LightFollows(s: Sys, acts: seq<Action>, w: Weight) {
    Follows(s, acts) && LightRun(s, acts, w)
  }

  /** Exec has ended, and with every job in a terminal state. */
  ghost predicate Ended(s: Sys) {
    s.pc.Exited? && AllTerminal(s.slots, s.jobs)
  }

  /** Where such a run can start: any reachable state whose results in flight are light. */
  ghost predicate GoingLightly(s: Sys, w: Weight) {
    Inv(s) && LightFlights(s, w)
  }

  lemma NothingInFlight(s: Sys, w: Weight)
    requires s.returned == [] && (s.pc.Exited? || s.pc.Enqueueing?) && forall n :: n in s.pools ==>
            s.pools[n].done == []
    ensures LightFlights(s, w)
  {
  }

  lemma StartsLightly(states: Slots, timeouts: map<string, Option<Timeout>>, jobs: map<string, Job>, w: Weight)
    requires Startable(states, timeouts, jobs)
    ensures GoingLightly(Start(states, timeouts, jobs), w)
  {
    StartOk(states, timeouts, jobs);
    NothingInFlight(Start(states, timeouts, jobs), w);
  }

  lemma {:induction false} StaysLight(s: Sys, acts: seq<Action>, w: Weight)
    requires GoingLightly(s, w) && LightFollows(s, acts, w)
    ensures Run(s, acts).Some? && GoingLightly(Run(s, acts).value, w)
  {
    RunKeeps(s, acts);
    RunsAreFaithful(s, acts);
    HandledIn(s, acts, w);
  }

  /** The action happens now, and if it is an execution it is a light one that keeps the contract. */
  ghost predicate Allows(s: Sys, a: Action, w: Weight) {
    Enabled(s, a) && LightAction(s, a, w)
  }

  lemma ExtendedBy(s: Sys, acts: seq<Action>, a: Action, w: Weight)
    requires LightFollows(s, acts, w) && Run(s, acts).Some?
    ensures LightFollows(s, acts + [a], w) <==> Allows(Run(s, acts).value, a, w)
    ensures LightFollows(s, acts + [a], w) ==> Run(s, acts + [a]) == Step(Run(s, acts).value, a)
  {
    assert (acts + [a])[..|acts|] == acts;
  }

  // ---- No run goes on for ever ----

  /** The first `k` actions of an endless sequence. */
  ghost function Prefix(f: nat -> Action, k: nat): (acts: seq<Action>)
    ensures |acts| == k
  {
    if k == 0 then [] else Prefix(f, k - 1) + [f(k - 1)]
  }

  lemma NextIsCloser(s: Sys, f: nat -> Action, k: nat, w: Weight)
    requires GoingLightly(s, w) && LightFollows(s, Prefix(f, k), w) && LightFollows(s, Prefix(f, k + 1), w)
    ensures Run(s, Prefix(f, k)).Some? && Run(s, Prefix(f, k + 1)).Some?
    ensures var m, n := Run(s, Prefix(f, k)).value, Run(s, Prefix(f, k + 1)).value;
            Potential(n, w) < Potential(m, w) || (Potential(n, w) == Potential(m, w) && Stage(n) < Stage(m))
  {
    StaysLight(s, Prefix(f, k), w);
    ExtendedBy(s, Prefix(f, k), f(k), w);
    Progresses(Run(s, Prefix(f, k)).value, f(k), w);
  }

  lemma {:induction false} StopsAfter(s: Sys, f: nat -> Action, k: nat, w: Weight) returns (n: nat)
    requires GoingLightly(s, w) && LightFollows(s, Prefix(f, k), w) && Run(s, Prefix(f, k)).Some?
    ensures n > k && !LightFollows(s, Prefix(f, n), w)
    decreases Potential(Run(s, Prefix(f, k)).value, w), Stage(Run(s, Prefix(f, k)).value)
  {
    n := k + 1;
    if LightFollows(s, Prefix(f, k + 1), w) {
      NextIsCloser(s, f, k, w);
      n := StopsAfter(s, f, k + 1, w);
    }
  }

  /** No endless sequence of actions is a run: whatever the interleaving, it stops being one at some length. */
  lemma NoEndlessRun(s: Sys, f: nat -> Action, w: Weight)
    requires GoingLightly(s, w)
    ensures exists n :: !LightFollows(s, Prefix(f, n), w)
  {
    var n := StopsAfter(s, f, 0, w);
  }

  // ---- A run that cannot go on has ended ----

  /** Exec can hand back something for every job being executed: light, registered, and with kicks only once. */
  ghost predicate Answers(s: Sys, w: Weight) {
    forall n, i: nat :: n in s.pools && i < |s.pools[n].running| && n in s.timeouts ==> HasAnswer(s, n, i, w)
  }

  ghost predicate HasAnswer(s: Sys, n: string, i: nat, w: Weight) {
    exists o :: Allows(s, Execute(n, i, o), w)
  }

  lemma CanGoOn(s: Sys, w: Weight) returns (a: Action)
    requires Inv(s) && Answers(s, w) && !s.pc.Exited?
    ensures Allows(s, a, w)
  {
    if s.pc.Selecting? {
      var n := LiveLane(s);
      a := LivelyMoves(s, n);
      if a.Execute? {
        assert HasAnswer(s, n, 0, w);
        var o :| Allows(s, Execute(n, 0, o), w);
        a := Execute(n, 0, o);
      }
    } else {
      CentralNeverBlocks(s);
      a := CentralCanMove(s);
    }
  }

  /** In a reachable state some action is possible exactly when Exec has not ended. */
  lemma GoesOnExactly(s: Sys, w: Weight)
    requires Inv(s) && Answers(s, w)
    ensures (exists a :: Allows(s, a, w)) <==> !Ended(s)
  {
    if s.pc.Exited? {
      forall a ensures !Allows(s, a, w) {
        ExitedIsFinal(s, a);
      }
    } else {
      var a := CanGoOn(s, w);
    }
  }

  /** A run can be extended exactly as long as it has not ended with all jobs terminal. */
  lemma MaximalExactlyWhenEnded(s: Sys, acts: seq<Action>, w: Weight)
    requires GoingLightly(s, w) && LightFollows(s, acts, w)
    ensures Run(s, acts).Some?
    ensures Answers(Run(s, acts).value, w) ==>
              ((forall a :: !LightFollows(s, acts + [a], w)) <==> Ended(Run(s, acts).value))
  {
    StaysLight(s, acts, w);
    var m := Run(s, acts).value;
    if Answers(m, w) {
      GoesOnExactly(m, w);
      forall a ensures LightFollows(s, acts + [a], w) <==> Allows(m, a, w) {
        ExtendedBy(s, acts, a, w);
      }
      if a :| Allows(m, a, w) {
        assert LightFollows(s, acts + [a], w);
      }
    }
  }

  // ---- Schedulers ----

  /** A scheduler knows what has happened and, as long as the run has not ended, names an action that can come next. */
  ghost predicate Schedules(pick: seq<Action> -> Action, s: Sys, w: Weight) {
    forall acts {:trigger pick(acts)} ::
      LightFollows(s, acts, w) && Run(s, acts).Some? && !Ended(Run(s, acts).value) ==>
        LightFollows(s, acts + [pick(acts)], w)
  }

  ghost function Played(pick: seq<Action> -> Action, n: nat): seq<Action> {
    if n == 0 then [] else Played(pick, n - 1) + [pick(Played(pick, n - 1))]
  }

  lemma PlayedIsCloser(s: Sys, pick: seq<Action> -> Action, acts: seq<Action>, w: Weight)
    requires GoingLightly(s, w) && Schedules(pick, s, w)
    requires LightFollows(s, acts, w) && Run(s, acts).Some? && !Ended(Run(s, acts).value)
    ensures LightFollows(s, acts + [pick(acts)], w) && Run(s, acts + [pick(acts)]).Some?
    ensures var m, n := Run(s, acts).value, Run(s, acts + [pick(acts)]).value;
            Potential(n, w) < Potential(m, w) || (Potential(n, w) == Potential(m, w) && Stage(n) < Stage(m))
  {
    StaysLight(s, acts, w);
    ExtendedBy(s, acts, pick(acts), w);
    Progresses(Run(s, acts).value, pick(acts), w);
  }

  lemma {:induction false} PlayedEnds(s: Sys, pick: seq<Action> -> Action, k: nat, w: Weight) returns (n: nat)
    requires GoingLightly(s, w) && Schedules(pick, s, w) && LightFollows(s, Played(pick, k), w) &&
            Run(s, Played(pick, k)).Some?
    ensures LightFollows(s, Played(pick, n), w) && Run(s, Played(pick, n)).Some? && Ended(Run(s, Played(pick, n)).value)
    decreases Potential(Run(s, Played(pick, k)).value, w), Stage(Run(s, Played(pick, k)).value)
  {
    n := k;
    if !Ended(Run(s, Played(pick, k)).value) {
      PlayedIsCloser(s, pick, Played(pick, k), w);
      n := PlayedEnds(s, pick, k + 1, w);
    }
  }

  /** Every scheduler brings the run to an end with all jobs terminal. */
  lemma EverySchedulingEnds(s: Sys, pick: seq<Action> -> Action, w: Weight) returns (n: nat)
    requires GoingLightly(s, w) && Schedules(pick, s, w)
    ensures LightFollows(s, Played(pick, n), w) && Run(s, Played(pick, n)).Some? && Ended(Run(s, Played(pick, n)).value)
  {
    n := PlayedEnds(s, pick, 0, w);
  }

  /** Wherever such a run can get to, Exec can hand back something for every job being executed. */
  ghost predicate AlwaysAnswers(s: Sys, w: Weight) {
    forall acts :: LightFollows(s, acts, w) && Run(s, acts).Some? ==> Answers(Run(s, acts).value, w)
  }

  lemma NextAction(s: Sys, acts: seq<Action>, w: Weight) returns (a: Action)
    requires GoingLightly(s, w) && AlwaysAnswers(s, w)
    requires LightFollows(s, acts, w) && Run(s, acts).Some? && !Ended(Run(s, acts).value)
    ensures LightFollows(s, acts + [a], w)
  {
    StaysLight(s, acts, w);
    var m := Run(s, acts).value;
    GoesOnExactly(m, w);
    a :| Allows(m, a, w);
    ExtendedBy(s, acts, a, w);
  }

  ghost function FirstChoice(s: Sys, acts: seq<Action>, w: Weight): Action {
    if exists a :: LightFollows(s, acts + [a], w) then
      var a :| LightFollows(s, acts + [a], w); a
    else Drained
  }

  /** And there is a scheduler whenever Exec always can hand back something light. */
  lemma SchedulerExists(s: Sys, w: Weight)
    requires GoingLightly(s, w) && AlwaysAnswers(s, w)
    ensures exists pick :: Schedules(pick, s, w)
  {
    var pick := acts => FirstChoice(s, acts, w);
    forall acts | LightFollows(s, acts, w) && Run(s, acts).Some? && !Ended(Run(s, acts).value)
      ensures LightFollows(s, acts + [pick(acts)], w)
    {
      var a := NextAction(s, acts, w);
    }
    assert Schedules(pick, s, w);
  }

  // ---- Every configuration with a terminal state ----

  ghost predicate SameStates(s: Sys, t: Sys) {
    && t.timeouts == s.timeouts && (forall n :: n in t.slots <==> n in s.slots)
    && (forall n :: n in t.slots && n in s.slots ==> t.slots[n].terminal == s.slots[n].terminal)
  }

  lemma StepKeepsStates(s: Sys, a: Action)
    requires Step(s, a).Some?
    ensures SameStates(s, Step(s, a).value)
  {
  }

  lemma {:induction false} RunKeepsStates(s: Sys, acts: seq<Action>)
    requires Run(s, acts).Some?
    ensures SameStates(s, Run(s, acts).value)
  {
    if acts != [] {
      RunKeepsStates(s, acts[..|acts| - 1]);
      StepKeepsStates(Run(s, acts[..|acts| - 1]).value, acts[|acts| - 1]);
    }
  }

  /** Weighs what is still to be done by whether anything is. */
  ghost function Unfinished(states: Slots): Weight {
    (j: Job) => if j.state in states && states[j.state].terminal then 0 else 1
  }

  /** Handing every job straight to a terminal state is light. */
  lemma FinishingIsLight(states: Slots, s: Sys, finish: string, n: string, i: nat)
    requires Registered(s) && n in s.slots && n in s.pools && n in s.timeouts && i < |s.pools[n].running| && Lane(s, n)
    requires finish in states && states[finish].terminal && finish in s.slots
    requires n in states && states[n].terminal == s.slots[n].terminal
    ensures Allows(s, Execute(n, i, Outcome("", finish, [], NoError)), Unfinished(states))
  {
    RunningIsStored(s, n, i);
    var o := Outcome("", finish, [], NoError);
    var f := Returned(s, n, s.pools[n].running[i], o);
    assert Enabled(s, Execute(n, i, o));
    assert f.ret.job.state == finish && f.before.state == n;
    assert KickWeight(f.ret, 0, Unfinished(states)) == 0;
    assert Light(f, Unfinished(states));
  }

  lemma FinishingAnswers(states: Slots, s: Sys, finish: string)
    requires Inv(s) && finish in states && states[finish].terminal
    requires (forall n :: n in s.slots <==> n in states) && forall n :: n in s.slots ==>
            states[n].terminal == s.slots[n].terminal
    ensures Answers(s, Unfinished(states))
  {
    var w, o := Unfinished(states), Outcome("", finish, [], NoError);
    forall n, i: nat | n in s.pools && i < |s.pools[n].running| && n in s.timeouts ensures HasAnswer(s, n, i, w) {
      assert Lane(s, n);
      FinishingIsLight(states, s, finish, n, i);
      assert Allows(s, Execute(n, i, o), w);
    }
  }

  /** So with a terminal state registered no start of Exec is a dead end: some run ends with all jobs terminal. */
  lemma EveryStartCanEnd(states: Slots, timeouts: map<string, Option<Timeout>>, jobs: map<string, Job>, finish: string)
    returns (acts: seq<Action>)
    requires Startable(states, timeouts, jobs) && finish in states && states[finish].terminal
    ensures var s := Start(states, timeouts, jobs);
            Follows(s, acts) && Run(s, acts).Some? && Ended(Run(s, acts).value)
  {
    var s, w := Start(states, timeouts, jobs), Unfinished(states);
    StartsLightly(states, timeouts, jobs, w);
    forall acts | LightFollows(s, acts, w) && Run(s, acts).Some? ensures Answers(Run(s, acts).value, w) {
      StaysLight(s, acts, w);
      RunKeepsStates(s, acts);
      FinishingAnswers(states, Run(s, acts).value, finish);
    }
    SchedulerExists(s, w);
    var pick :| Schedules(pick, s, w);
    var n := EverySchedulingEnds(s, pick, w);
    acts := Played(pick, n);
  }
}
