/**
 * One state's share of the scheduler: which places hold its jobs, and how each kind of action
 * moves a job between them.
 */
module Lanes {
  import opened Jobs
  import opened StateStorage
  import opened Scheduler

  /** The jobs behind a list of results. */
  ghost function JobsOf(fs: seq<Flight>): seq<Job> {
    seq(|fs|, i requires 0 <= i < |fs| => fs[i].before)
  }

  ghost function Befores(fs: seq<Flight>): multiset<Job> {
    multiset(JobsOf(fs))
  }

  /** The results that come from state `n`, in order. */
  ghost function From(fs: seq<Flight>, n: string): seq<Flight> {
    if fs == [] then [] else Only(fs[0], n) + From(fs[1..], n)
  }

  ghost function Only(f: Flight, n: string): seq<Flight> {
    if f.ret.prior == n then [f] else []
  }

  lemma BeforesConcat(a: seq<Flight>, b: seq<Flight>)
    ensures Befores(a + b) == Befores(a) + Befores(b)
  {
    assert JobsOf(a + b) == JobsOf(a) + JobsOf(b);
  }

  lemma BeforesOne(f: Flight)
    ensures Befores([f]) == multiset{f.before}
  {
    assert JobsOf([f]) == [f.before];
  }

  lemma {:induction false} FromAppend(a: seq<Flight>, f: Flight, n: string)
    ensures From(a + [f], n) == From(a, n) + Only(f, n)
  {
    var all := a + [f];
    assert From(all, n) == Only(all[0], n) + From(all[1..], n);
    if a == [] {
      assert all[1..] == a;
    } else {
      assert all[1..] == a[1..] + [f];
      FromAppend(a[1..], f, n);
    }
  }

  lemma {:induction false} FromMember(fs: seq<Flight>, i: nat, n: string)
    requires i < |fs| && fs[i].ret.prior == n
    ensures fs[i] in From(fs, n)
  {
    if i > 0 {
      FromMember(fs[1..], i - 1, n);
    }
  }

  lemma BeforesDrop(fs: seq<Flight>, i: nat)
    requires i < |fs|
    ensures Befores(fs) == Befores(Drop(fs, i)) + multiset{fs[i].before}
  {
    DropMultiset(JobsOf(fs), i);
    assert JobsOf(Drop(fs, i)) == Drop(JobsOf(fs), i);
  }

  lemma BeforesIn(fs: seq<Flight>, i: nat)
    requires i < |fs|
    ensures fs[i].before in Befores(fs)
  {
    assert JobsOf(fs)[i] == fs[i].before;
  }

  lemma DropMultiset<T>(s: seq<T>, i: nat)
    requires i < |s|
    ensures multiset(s) == multiset(Drop(s, i)) + multiset{s[i]}
  {
    assert s == s[..i] + [s[i]] + s[i + 1..];
  }

  /**
   * One state: its slot and workers, the results on their way back from it, the jobs of it that the
   * central goroutine holds, and all its jobs in the run. `counted` is 1 while the central goroutine
   * holds a job whose slot has not been given back.
   */
  datatype View = View(slot: Slot, pool: Pool, back: seq<Flight>, held: multiset<Job>, counted: nat, mine: set<Job>)

  /** Every place a job of the state can be in, with repetitions. */
  ghost function Places(v: View): multiset<Job> {
    multiset(v.slot.queue) + multiset(v.slot.channel) + multiset(v.pool.running) + Befores(v.pool.done)
    + Befores(v.back) + v.held
  }

  /**
   * The slot's bookkeeping is right and each job of the state is in exactly one place; for a terminal
   * state, in none once it has been counted as completed.
   */
  ghost predicate LaneOk(n: string, v: View) {
    && SlotOk(n, v.slot, |v.pool.running| + |v.pool.done| + |v.back| + v.counted)
    && (if v.slot.terminal then v.slot.completed + |v.held| == |v.mine| else Places(v) == multiset(v.mine))
  }

  // ---- How each action changes a lane ----

  ghost function Enqueued(v: View, j: Job): View {
    v.(slot := Arrive(v.slot, j), held := v.held - multiset{j})
  }

  ghost function Arrived(v: View, j: Job): View {
    v.(slot := Arrive(v.slot, j), mine := v.mine + {j})
  }

  ghost function Taken(v: View): View
    requires v.slot.channel != []
  {
    v.(slot := v.slot.(channel := v.slot.channel[1..]),
       pool := v.pool.(running := v.pool.running + [v.slot.channel[0]]))
  }

  ghost function Executed(v: View, i: nat, f: Flight): View
    requires i < |v.pool.running|
  {
    v.(pool := Pool(Drop(v.pool.running, i), v.pool.done + [f]))
  }

  ghost function Sent(v: View, i: nat): View
    requires i < |v.pool.done|
  {
    v.(pool := v.pool.(done := Drop(v.pool.done, i)), back := v.back + [v.pool.done[i]])
  }

  ghost function Fetched(v: View): View
    requires v.back != []
  {
    v.(back := v.back[1..], held := v.held + multiset{v.back[0].before}, counted := v.counted + 1)
  }

  ghost function SlotGivenBack(v: View): View
    requires v.counted > 0
  {
    v.(slot := RunNext(v.slot), counted := v.counted - 1)
  }

  ghost function Left(v: View, b: Job): View {
    v.(held := v.held - multiset{b}, mine := v.mine - {b})
  }

  /** Putting a held job in its place moves it and nothing else. */
  lemma EnqueuedPlaces(v: View, j: Job)
    requires !v.slot.terminal && j in v.held
    ensures Places(Enqueued(v, j)) == Places(v)
  {
  }

  lemma LaneEnqueue(n: string, v: View, j: Job)
    requires LaneOk(n, v) && j in v.held && j.state == n
    ensures CanArrive(v.slot) && LaneOk(n, Enqueued(v, j))
  {
    ArriveOk(n, v.slot, |v.pool.running| + |v.pool.done| + |v.back| + v.counted, j);
    if v.slot.terminal {
      assert |v.held - multiset{j}| == |v.held| - 1;
    } else {
      EnqueuedPlaces(v, j);
    }
  }

  /** A new job of the state, in the central goroutine's hands. */
  lemma LaneHold(n: string, v: View, j: Job)
    requires LaneOk(n, v) && j !in v.mine
    ensures LaneOk(n, v.(held := v.held + multiset{j}, mine := v.mine + {j}))
  {
    if !v.slot.terminal {
      assert multiset(v.mine + {j}) == multiset(v.mine) + multiset{j};
    }
  }

  lemma LaneArrive(n: string, v: View, j: Job)
    requires LaneOk(n, v) && j !in v.mine && j.state == n
    ensures CanArrive(v.slot) && LaneOk(n, Arrived(v, j))
  {
    var w := v.(held := v.held + multiset{j}, mine := v.mine + {j});
    LaneHold(n, v, j);
    LaneEnqueue(n, w, j);
    assert v.held + multiset{j} - multiset{j} == v.held;
    assert Enqueued(w, j) == Arrived(v, j);
  }

  lemma LaneTake(n: string, v: View)
    requires LaneOk(n, v) && v.slot.channel != []
    ensures LaneOk(n, Taken(v))
  {
    assert v.slot.channel == [v.slot.channel[0]] + v.slot.channel[1..];
  }

  lemma LaneExecute(n: string, v: View, i: nat, f: Flight)
    requires LaneOk(n, v) && i < |v.pool.running| && f.before == v.pool.running[i]
    ensures LaneOk(n, Executed(v, i, f))
  {
    DropMultiset(v.pool.running, i);
    BeforesConcat(v.pool.done, [f]);
    BeforesOne(f);
  }

  lemma LaneSend(n: string, v: View, i: nat)
    requires LaneOk(n, v) && i < |v.pool.done|
    ensures LaneOk(n, Sent(v, i))
  {
    BeforesDrop(v.pool.done, i);
    BeforesConcat(v.back, [v.pool.done[i]]);
    BeforesOne(v.pool.done[i]);
  }

  lemma LaneReceive(n: string, v: View)
    requires LaneOk(n, v) && v.back != []
    ensures LaneOk(n, Fetched(v))
  {
    assert v.back == [v.back[0]] + v.back[1..];
    BeforesConcat([v.back[0]], v.back[1..]);
    BeforesOne(v.back[0]);
  }

  /** Giving a slot back moves at most one job, from the queue to the channel. */
  lemma SlotGivenBackPlaces(sl: Slot)
    ensures multiset(RunNext(sl).queue) + multiset(RunNext(sl).channel) == multiset(sl.queue) + multiset(sl.channel)
  {
    if sl.queue != [] {
      assert sl.queue == sl.queue[..|sl.queue| - 1] + [sl.queue[|sl.queue| - 1]];
    }
  }

  lemma LaneFree(n: string, v: View)
    requires LaneOk(n, v) && v.counted > 0
    ensures CanRelease(n, v.slot) && LaneOk(n, SlotGivenBack(v))
  {
    RunNextOk(n, v.slot, |v.pool.running| + |v.pool.done| + |v.back| + v.counted);
    SlotGivenBackPlaces(v.slot);
    assert Places(SlotGivenBack(v)) == Places(v);
  }

  lemma LaneLeave(n: string, v: View, b: Job)
    requires LaneOk(n, v) && !v.slot.terminal && b in v.held
    ensures b in v.mine && LaneOk(n, Left(v, b))
  {
    assert b in multiset(v.mine);
    assert multiset(v.mine - {b}) == multiset(v.mine) - multiset{b};
  }

  /** A job the central goroutine holds is behind no other result. */
  lemma HeldIsAlone(n: string, v: View, b: Job)
    requires LaneOk(n, v) && !v.slot.terminal && b in v.held
    ensures b !in Befores(v.back) && b !in Befores(v.pool.done)
  {
    assert Places(v)[b] <= 1;
  }
}
