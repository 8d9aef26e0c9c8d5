/** Stretches of actions of the serializer: how they join, and what holds at the end of each. */
module Stretches {
  import opened Jobs
  import opened Persisted
  import opened Serializing
  import opened Durability
  import opened DurabilityResults

  ghost predicate Leads(s: Sys, acts: seq<Action>, t: Sys) {
    Run(s, acts) == Some(t)
  }

  /** Needs no discipline of the callers, removes nothing but segments, and misses none of them. */
  predicate Harmless(a: Action) {
    && !a.Append? && !a.Load? && !a.Reload?
    && (a.Remove? ==> a.file.Active? || a.file.Sealed?) && (a.Removed? ==> a.sees)
  }

  /** No error was returned, and a lookup of a checkpoint file saw what was there. */
  predicate Faultless(a: Action) {
    match a
    case StatMain(r) => r.Done?
    case Promote(seesTmp, seesBackup, r) => seesTmp && seesBackup && r.Done?
    case Clean(r) => r.Done?
    case Load(_, r) => r.Done?
    case Append(_, ar) => ar.Acked?
    case Rotate(seesActive, r) => seesActive && r.Done?
    case OpenTmp(r) => r.Done?
    case Encode(r) => r.Done?
    case DropTmp(r) => r.Done?
    case SyncClose(r) => r.Done?
    case Publish(r) => r.Done?
    case Remove(_, r) => r.Done?
    case Reopen(r) => r.Done?
    case _ => true
  }

  ghost predicate AllHarmless(acts: seq<Action>) {
    forall k :: 0 <= k < |acts| ==> Harmless(acts[k])
  }

  ghost predicate AllFaultless(acts: seq<Action>) {
    forall k :: 0 <= k < |acts| ==> Faultless(acts[k])
  }

  lemma LeadsOn(s: Sys, acts: seq<Action>, t: Sys, a: Action)
    requires Leads(s, acts, t) && Step(t, a).Some?
    ensures Leads(s, acts + [a], Step(t, a).value)
  {
    assert (acts + [a])[..|acts|] == acts;
  }

  lemma {:induction false} LeadsFurther(s: Sys, acts: seq<Action>, t: Sys, more: seq<Action>, u: Sys)
    requires Leads(s, acts, t) && Leads(t, more, u)
    ensures Leads(s, acts + more, u)
  {
    if more == [] {
      assert acts + more == acts;
    } else {
      var init := more[..|more| - 1];
      var m := Run(t, init).value;
      LeadsFurther(s, acts, t, init, m);
      LeadsOn(s, acts + init, m, more[|more| - 1]);
      ConcatLast(acts, more);
    }
  }

  /** Actions from one state to another, and whether all are sure to be harmless. */
  ghost predicate Trail(s: Sys, acts: seq<Action>, t: Sys, sure: bool) {
    Leads(s, acts, t) && (sure ==> AllHarmless(acts))
  }

  lemma TrailStart(s: Sys)
    ensures Trail(s, [], s, true)
  {
  }

  lemma FaultlessOn(acts: seq<Action>, a: Action)
    ensures AllFaultless(acts + [a]) <==> AllFaultless(acts) && Faultless(a)
  {
    FaultlessParts(acts, [a]);
    if AllFaultless(acts + [a]) {
      assert Faultless([a][0]);
    }
  }

  lemma FaultlessParts(acts: seq<Action>, more: seq<Action>)
    ensures AllFaultless(acts + more) <==> AllFaultless(acts) && AllFaultless(more)
  {
    if AllFaultless(acts + more) {
      forall k | 0 <= k < |acts| ensures Faultless(acts[k]) {
        assert (acts + more)[k] == acts[k];
      }
      forall k | 0 <= k < |more| ensures Faultless(more[k]) {
        assert (acts + more)[|acts| + k] == more[k];
      }
    }
  }

  lemma TrailOn(s: Sys, acts: seq<Action>, t: Sys, sure: bool, a: Action, u: Sys)
    requires Trail(s, acts, t, sure) && Step(t, a) == Some(u) && (sure ==> Harmless(a))
    ensures Trail(s, acts + [a], u, sure)
  {
    LeadsOn(s, acts, t, a);
  }

  lemma TrailFurther(s: Sys, acts: seq<Action>, t: Sys, more: seq<Action>, u: Sys, sure: bool)
    requires Trail(s, acts, t, sure) && Trail(t, more, u, sure)
    ensures Trail(s, acts + more, u, sure)
  {
    LeadsFurther(s, acts, t, more, u);
  }

  /** The same without a single failure. */
  ghost predicate Smooth(s: Sys, acts: seq<Action>, t: Sys, sure: bool) {
    Trail(s, acts, t, sure) && AllFaultless(acts)
  }

  lemma SmoothOn(s: Sys, acts: seq<Action>, t: Sys, sure: bool, a: Action, u: Sys)
    requires Smooth(s, acts, t, sure) && Step(t, a) == Some(u) && (sure ==> Harmless(a)) && Faultless(a)
    ensures Smooth(s, acts + [a], u, sure)
  {
    TrailOn(s, acts, t, sure, a, u);
    FaultlessOn(acts, a);
  }

  lemma SmoothFurther(s: Sys, acts: seq<Action>, t: Sys, more: seq<Action>, u: Sys, sure: bool)
    requires Smooth(s, acts, t, sure) && Smooth(t, more, u, sure)
    ensures Smooth(s, acts + more, u, sure)
  {
    TrailFurther(s, acts, t, more, u, sure);
    FaultlessParts(acts, more);
  }

  lemma OrderlyOn(s: Sys, acts: seq<Action>, t: Sys, a: Action, u: Sys)
    requires Orderly(s, acts) && Leads(s, acts, t) && Step(t, a) == Some(u) && Disciplined(t, a)
    ensures Orderly(s, acts + [a]) && Leads(s, acts + [a], u)
  {
    assert (acts + [a])[..|acts|] == acts;
    LeadsOn(s, acts, t, a);
  }

  lemma CrashOn(s: Sys, acts: seq<Action>, t: Sys)
    requires Leads(s, acts, t) && t.proc.Up?
    ensures Leads(s, acts + [Crash], Sys(t.disk, Down, t.history))
    ensures Orderly(s, acts) ==> Orderly(s, acts + [Crash])
  {
    assert (acts + [Crash])[..|acts|] == acts;
    LeadsOn(s, acts, t, Crash);
  }

  lemma LastOf(s: Sys, acts: seq<Action>, t: Sys) returns (m: Sys)
    requires Leads(s, acts, t) && acts != []
    ensures Leads(s, acts[..|acts| - 1], m) && Step(m, acts[|acts| - 1]) == Some(t)
  {
    m := Run(s, acts[..|acts| - 1]).value;
  }

  lemma HarmlessParts(acts: seq<Action>)
    requires AllHarmless(acts) && acts != []
    ensures AllHarmless(acts[..|acts| - 1]) && Harmless(acts[|acts| - 1])
  {
  }

  lemma HarmlessOrderlyOn(s: Sys, acts: seq<Action>, t: Sys, a: Action, u: Sys)
    requires Orderly(s, acts) && Leads(s, acts, t) && Step(t, a) == Some(u) && Harmless(a)
    ensures Orderly(s, acts + [a]) && Leads(s, acts + [a], u)
  {
    OrderlyOn(s, acts, t, a, u);
  }

  lemma {:induction false} OrderlyFurther(s: Sys, acts: seq<Action>, t: Sys, more: seq<Action>, u: Sys)
    requires Orderly(s, acts) && Leads(s, acts, t) && Leads(t, more, u) && AllHarmless(more)
    ensures Orderly(s, acts + more) && Leads(s, acts + more, u)
  {
    if more == [] {
      assert acts + more == acts;
    } else {
      var init := more[..|more| - 1];
      var m := LastOf(t, more, u);
      var a := more[|more| - 1];
      HarmlessParts(more);
      OrderlyFurther(s, acts, t, init, m);
      HarmlessOrderlyOn(s, acts + init, m, a, u);
      ConcatLast(acts, more);
    }
  }

  lemma HarmlessIsOrderly(s: Sys, acts: seq<Action>, t: Sys)
    requires Leads(s, acts, t) && AllHarmless(acts)
    ensures Orderly(s, acts)
  {
    OrderlyFurther(s, [], s, acts, t);
    assert [] + acts == acts;
  }

  /** The durability invariant holds after every orderly stretch. */
  lemma {:induction false} OrderlyKeeps(s: Sys, acts: seq<Action>, t: Sys)
    requires Inv(s) && Orderly(s, acts) && Leads(s, acts, t)
    ensures Inv(t)
  {
    if acts != [] {
      var m := LastOf(s, acts, t);
      OrderlyKeeps(s, acts[..|acts| - 1], m);
      StepKeeps(m, acts[|acts| - 1]);
    }
  }

  /** A recovery that comes of an orderly stretch honours all that was owed before. */
  lemma {:induction false} OrderlyHonours(s: Sys, acts: seq<Action>, t: Sys, run: Store)
    requires Inv(s) && Orderly(s, acts) && Leads(s, acts, t) && t.history == s.history + [Recovered(run)]
    ensures Honours(s.history, run)
    decreases |acts|
  {
    if acts == [] {
      assert false;
    } else {
      var init := acts[..|acts| - 1];
      var m := LastOf(s, acts, t);
      HistoryGrows(m, acts[|acts| - 1]);
      assert t.history[|t.history| - 1] == Recovered(run);
      if m.history == t.history {
        OrderlyHonours(s, init, m, run);
      } else {
        OrderlyKeeps(s, init, m);
        assert m.history == s.history;
      }
    }
  }
}
