/** Per-state slots, waiting queues and channels (processor.go: stateStorage). */
module StateStorage {
  import opened Jobs

  /**
   * What stateStorage keeps for one state: its configuration, the three counters, the waiting queue
   * (newest first) and the channel (oldest first).
   */
  datatype Slot = Slot(terminal: bool, concurrency: int, completed: int, executing: int, waiting: int,
                       queue: seq<Job>, channel: seq<Job>)

  type Slots = map<string, Slot>

  function RunJob(sl: Slot, j: Job): Slot {
    sl.(executing := sl.executing + 1, channel := sl.channel + [j])
  }

  function QueueJob(sl: Slot, j: Job): Slot {
    sl.(waiting := sl.waiting + 1, queue := [j] + sl.queue)
  }

  function CompleteJob(sl: Slot): Slot {
    sl.(completed := sl.completed + 1)
  }

  function Arrive(sl: Slot, j: Job): Slot {
    if sl.terminal then CompleteJob(sl)
    else if sl.executing < sl.concurrency then RunJob(sl, j)
    else QueueJob(sl, j)
  }

  function Oldest(sl: Slot): Option<Job> {
    if sl.queue == [] then None else Some(sl.queue[|sl.queue| - 1])
  }

  function WithoutOldest(sl: Slot): Slot {
    if sl.queue == [] then sl else sl.(waiting := sl.waiting - 1, queue := sl.queue[..|sl.queue| - 1])
  }

  function GiveBack(sl: Slot): Slot {
    sl.(executing := sl.executing - 1)
  }

  function RunNext(sl: Slot): Slot {
    var freed := WithoutOldest(GiveBack(sl));
    if sl.queue == [] then freed else RunJob(freed, sl.queue[|sl.queue| - 1])
  }

  function Process(slots: Slots, j: Job): Slots
    requires j.state in slots
  {
    slots[j.state := Arrive(slots[j.state], j)]
  }

  function NextRun(slots: Slots, state: string): Slots
    requires state in slots
  {
    slots[state := RunNext(slots[state])]
  }

  /**
   * Bookkeeping between two calls of stateStorage. `taken` jobs have left the channel and have not
   * been released yet.
   */
  ghost predicate SlotOk(name: string, sl: Slot, taken: nat) {
    && sl.executing == |sl.channel| + taken && sl.waiting == |sl.queue|
    && (sl.terminal ==> sl.concurrency >= 0 && sl.queue == [] && sl.channel == [] && taken == 0)
    && (!sl.terminal ==> sl.concurrency >= 1 && sl.executing <= sl.concurrency && sl.completed == 0)
    && (sl.queue != [] ==> sl.executing == sl.concurrency)
    && (forall j :: j in sl.queue || j in sl.channel ==> j.state == name)
  }

  /** A send made by Arrive finds room in the channel. */
  predicate CanArrive(sl: Slot) {
    !sl.terminal && sl.executing < sl.concurrency ==> |sl.channel| < sl.concurrency
  }

  /** The oldest waiting job waits for this state, and a send made for it finds room. */
  predicate CanRelease(name: string, sl: Slot) {
    sl.queue != [] ==> sl.queue[|sl.queue| - 1].state == name && |sl.channel| < sl.concurrency
  }

  lemma ArriveOk(name: string, sl: Slot, taken: nat, j: Job)
    requires SlotOk(name, sl, taken) && j.state == name
    ensures CanArrive(sl) && SlotOk(name, Arrive(sl, j), taken)
  {
  }

  lemma RunNextOk(name: string, sl: Slot, taken: nat)
    requires SlotOk(name, sl, taken) && taken > 0
    ensures CanRelease(name, sl) && SlotOk(name, RunNext(sl), taken - 1)
  {
    if sl.queue != [] {
      assert sl.queue[|sl.queue| - 1] in sl.queue;
    }
  }

  /** The three updates of runNextWaitingJob, one after the other, amount to RunNext. */
  lemma NextRunInSteps(slots: Slots, freed: Slots, shorter: Slots, last: Slots, n: string)
    requires n in slots && freed == slots[n := GiveBack(slots[n])]
    requires shorter == freed[n := WithoutOldest(freed[n])]
    requires slots[n].queue == [] ==> last == shorter
    requires slots[n].queue != [] ==> last == shorter[n := RunJob(shorter[n], slots[n].queue[|slots[n].queue| - 1])]
    ensures last == NextRun(slots, n)
  {
  }

  datatype StatusCount = StatusCount(state: string, completed: int, executing: int, waiting: int, terminal: bool)

  datatype Verdict = Valid | Invalid(state: string)

  ghost predicate ConfOk(c: StateConf, known: map<string, StateConf>) {
    && (if c.terminal then c.concurrency >= 0 else c.concurrency >= 1 && c.hasExec)
    && (c.timeout.Some? ==>
          && c.timeout.value.duration > 0 && c.timeout.value.failState != ""
          && c.timeout.value.failState in known)
  }

  /** A terminal state with a proper Timeout passes, although the documentation says it is rejected. */
  lemma TerminalTimeoutIsAccepted(name: string, known: map<string, StateConf>)
    requires name != "" && name in known
    ensures ConfOk(StateConf(name, true, false, 0, Some(Timeout(1, "1ns", name))), known)
  {
  }

  ghost function EmptySlot(s: StateConf): Slot {
    Slot(s.terminal, s.concurrency, 0, 0, 0, [], [])
  }

  /** The storage right after construction. */
  ghost function EmptySlots(states: seq<StateConf>): Slots {
    if states == [] then map[] else
    var s := states[|states| - 1];
    EmptySlots(states[..|states| - 1])[s.name := EmptySlot(s)]
  }

  ghost predicate IsLastOf(states: seq<StateConf>, i: int, n: string) {
    0 <= i < |states| && states[i].name == n && forall k :: i < k < |states| ==> states[k].name != n
  }

  /** A name's last configuration counts; its counters start at zero, its queue and its channel empty. */
  lemma {:induction false} EmptySlotsAt(states: seq<StateConf>, n: string)
    ensures n in EmptySlots(states) <==> exists i :: 0 <= i < |states| && states[i].name == n
    ensures forall i :: IsLastOf(states, i, n) ==>
              && n in EmptySlots(states)
              && EmptySlots(states)[n] == Slot(states[i].terminal, states[i].concurrency, 0, 0, 0, [], [])
  {
    if states != [] {
      var last := |states| - 1;
      EmptySlotsAt(states[..last], n);
      forall i | IsLastOf(states, i, n) && i != last ensures IsLastOf(states[..last], i, n) {
      }
      if n in EmptySlots(states[..last]) {
        var i :| 0 <= i < last && states[..last][i].name == n;
        assert states[i].name == n;
      }
    }
  }

  /** What the four maps hold for one state, read as a slot. */
  ghost predicate ShowsSlot(conf: StateConf, status: StatusCount, queue: seq<Job>, channel: seq<Job>, name: string,
        sl: Slot) {
    && conf.terminal == sl.terminal && conf.concurrency == sl.concurrency
    && status == StatusCount(name, sl.completed, sl.executing, sl.waiting, sl.terminal)
    && queue == sl.queue && channel == sl.channel
  }

  function QueueOf(waitingJobs: map<string, seq<Job>>, n: string): seq<Job> {
    if n in waitingJobs then waitingJobs[n] else []
  }

  /** The entries of one name; the waiting queue is there only once it has been used. */
  ghost predicate ShowsAt(stateMap: map<string, StateConf>, statusMap: map<string, StatusCount>,
                          waitingJobs: map<string, seq<Job>>, channels: map<string, seq<Job>>, slots: Slots, n: string)
  {
    && (n in stateMap || n in statusMap || n in channels ==> n in slots)
    && (n in slots ==>
          && n in stateMap && n in statusMap && n in channels
          && ShowsSlot(stateMap[n], statusMap[n], QueueOf(waitingJobs, n), channels[n], n, slots[n]))
  }

  /** The four maps of stateStorage show `slots`. */
  ghost predicate Shows(stateMap: map<string, StateConf>, statusMap: map<string, StatusCount>,
                        waitingJobs: map<string, seq<Job>>, channels: map<string, seq<Job>>, slots: Slots)
  {
    forall n :: ShowsAt(stateMap, statusMap, waitingJobs, channels, slots, n)
  }

  /** What the loops over all states read. */
  lemma ShowsStates(stateMap: map<string, StateConf>, statusMap: map<string, StatusCount>,
                    waitingJobs: map<string, seq<Job>>, channels: map<string, seq<Job>>, slots: Slots)
    requires Shows(stateMap, statusMap, waitingJobs, channels, slots)
    ensures forall n :: (n in stateMap <==> n in slots) && (n in statusMap <==> n in slots)
    ensures forall n :: n in slots ==>
            stateMap[n].terminal == slots[n].terminal && statusMap[n].executing == slots[n].executing
  {
    forall n ensures (n in stateMap <==> n in slots) && (n in statusMap <==> n in slots) {
      assert ShowsAt(stateMap, statusMap, waitingJobs, channels, slots, n);
    }
    forall n | n in slots
          ensures stateMap[n].terminal == slots[n].terminal && statusMap[n].executing == slots[n].executing {
      assert ShowsAt(stateMap, statusMap, waitingJobs, channels, slots, n);
    }
  }

  /** Only the entries of state `n` have changed, and they show its new slot. */
  lemma ShowsAfter(stateMap: map<string, StateConf>, status: map<string, StatusCount>, waiting: map<string, seq<Job>>,
                   channels: map<string, seq<Job>>, slots: Slots, n: string,
                   status': map<string, StatusCount>, waiting': map<string, seq<Job>>, channels': map<string,
                         seq<Job>>, sl: Slot)
    requires Shows(stateMap, status, waiting, channels, slots) && n in slots
    requires n in status' && status' == status[n := status'[n]]
    requires waiting' == waiting || (n in waiting' && waiting' == waiting[n := waiting'[n]])
    requires channels' == channels || (n in channels' && channels' == channels[n := channels'[n]])
    requires n in stateMap && n in channels'
    requires ShowsSlot(stateMap[n], status'[n], QueueOf(waiting', n), channels'[n], n, sl)
    ensures Shows(stateMap, status', waiting', channels', slots[n := sl])
  {
    var slots' := slots[n := sl];
    forall m ensures ShowsAt(stateMap, status', waiting', channels', slots', m) {
      assert ShowsAt(stateMap, status, waiting, channels, slots, m);
    }
  }

  lemma ShowsRegistered(stateMap: map<string, StateConf>, status: map<string, StatusCount>, channels: map<string,
        seq<Job>>,
                        slots: Slots, s: StateConf)
    requires Shows(stateMap, status, map[], channels, slots)
    ensures Shows(stateMap[s.name := s], status[s.name := StatusCount(s.name, 0, 0, 0, s.terminal)], map[],
                  channels[s.name := []], slots[s.name := EmptySlot(s)])
  {
    var stateMap', status' := stateMap[s.name := s], status[s.name := StatusCount(s.name, 0, 0, 0, s.terminal)];
    var channels', slots' := channels[s.name := []], slots[s.name := EmptySlot(s)];
    forall m ensures ShowsAt(stateMap', status', map[], channels', slots', m) {
      assert ShowsAt(stateMap, status, map[], channels, slots, m);
    }
  }

  class Storage {
    const states: seq<StateConf>
    var stateMap: map<string, StateConf>
    var statusMap: map<string, StatusCount>
    var waitingJobs: map<string, seq<Job>>
    var channels: map<string, seq<Job>>
    ghost var slots: Slots

    ghost predicate Consistent()
      reads this
    {
      Shows(stateMap, statusMap, waitingJobs, channels, slots)
    }

    constructor (states: seq<StateConf>)
      ensures Consistent() && this.states == states
      ensures slots == EmptySlots(states)
    {
      this.states := states;
      stateMap, statusMap, waitingJobs, channels, slots := map[], map[], map[], map[], map[];
      new;
      for i := 0 to |states|
        invariant Consistent() && waitingJobs == map[]
        invariant slots == EmptySlots(states[..i])
      {
        Register(states[i]);
        assert states[..i + 1][..i] == states[..i];
      }
      assert states[..|states|] == states;
    }

    /** The body of the constructor's loop; a repeated name replaces the earlier entry. */
    method Register(s: StateConf)
      requires Consistent() && waitingJobs == map[]
      modifies this`stateMap, this`statusMap, this`channels, this`slots
      ensures Consistent()
      ensures slots == old(slots)[s.name := EmptySlot(s)]
    {
      ShowsRegistered(stateMap, statusMap, channels, slots, s);
      stateMap := stateMap[s.name := s];
      statusMap := statusMap[s.name := StatusCount(s.name, 0, 0, 0, s.terminal)];
      channels := channels[s.name := []];
      slots := slots[s.name := EmptySlot(s)];
    }

    ghost predicate FirstBad(i: int)
      reads this
    {
      0 <= i < |states| && !ConfOk(states[i], stateMap) && forall k :: 0 <= k < i ==> ConfOk(states[k], stateMap)
    }

    /** Accepts exactly the well-configured state sets; a terminal state with a proper Timeout is accepted. */
    method Validate() returns (v: Verdict)
      ensures v.Valid? <==> forall s :: s in states ==> ConfOk(s, stateMap)
      ensures v.Valid? <==> forall s :: s in states ==>
                && s.concurrency >= (if s.terminal then 0 else 1) && (s.terminal || s.hasExec)
                && (s.timeout.Some? ==>
                      && s.timeout.value.duration > 0
                      && s.timeout.value.failState != "" && s.timeout.value.failState in stateMap)
      ensures v.Invalid? ==> exists i :: FirstBad(i) && v.state == states[i].name
    {
      for i := 0 to |states|
        invariant forall s :: s in states[..i] ==> ConfOk(s, stateMap)
      {
        var s := states[i];
        assert s in states;
        assert !ConfOk(s, stateMap) ==> FirstBad(i);
        if s.terminal {
          if s.concurrency < 0 {
            return Invalid(s.name);
          }
        } else {
          if s.concurrency < 1 {
            return Invalid(s.name);
          }
          if !s.hasExec {
            return Invalid(s.name);
          }
        }
        if s.timeout.Some? {
          if s.timeout.value.duration <= 0 {
            return Invalid(s.name);
          }
          if s.timeout.value.failState == "" {
            return Invalid(s.name);
          }
          if s.timeout.value.failState !in stateMap {
            return Invalid(s.name);
          }
        }
        assert states[..i + 1] == states[..i] + [s];
      }
      return Valid;
    }

    /** Sends into the state's channel; there is room, so the send does not block. */
    method Run(job: Job)
      requires Consistent() && job.state in slots
      requires |slots[job.state].channel| < slots[job.state].concurrency
      modifies this`statusMap, this`channels, this`slots
      ensures Consistent()
      ensures slots == old(slots)[job.state := RunJob(old(slots)[job.state], job)]
      ensures job.state in old(statusMap) && job.state in old(channels)
      ensures var st := old(statusMap)[job.state];
              statusMap == old(statusMap)[job.state := st.(executing := st.executing + 1)]
      ensures channels == old(channels)[job.state := old(channels)[job.state] + [job]]
    {
      assert ShowsAt(stateMap, statusMap, waitingJobs, channels, slots, job.state);
      ghost var status, waiting, chans := statusMap, waitingJobs, channels;
      var st := statusMap[job.state];
      statusMap := statusMap[job.state := st.(executing := st.executing + 1)];
      channels := channels[job.state := channels[job.state] + [job]];
      ShowsAfter(stateMap, status, waiting, chans, slots, job.state, statusMap, waitingJobs, channels,
            RunJob(slots[job.state], job));
      slots := slots[job.state := RunJob(slots[job.state], job)];
    }

    method Queue(job: Job)
      requires Consistent() && job.state in slots
      modifies this`statusMap, this`waitingJobs, this`slots
      ensures Consistent()
      ensures slots == old(slots)[job.state := QueueJob(old(slots)[job.state], job)]
      ensures job.state in old(statusMap)
      ensures var st := old(statusMap)[job.state];
              statusMap == old(statusMap)[job.state := st.(waiting := st.waiting + 1)]
      ensures waitingJobs == old(waitingJobs)[job.state := [job] + QueueOf(old(waitingJobs), job.state)]
    {
      assert ShowsAt(stateMap, statusMap, waitingJobs, channels, slots, job.state);
      ghost var status, waiting, chans := statusMap, waitingJobs, channels;
      var st := statusMap[job.state];
      statusMap := statusMap[job.state := st.(waiting := st.waiting + 1)];
      var queue := QueueOf(waitingJobs, job.state);
      waitingJobs := waitingJobs[job.state := [job] + queue];
      ShowsAfter(stateMap, status, waiting, chans, slots, job.state, statusMap, waitingJobs, channels,
            QueueJob(slots[job.state], job));
      slots := slots[job.state := QueueJob(slots[job.state], job)];
    }

    method Complete(job: Job)
      requires Consistent() && job.state in slots
      modifies this`statusMap, this`slots
      ensures Consistent()
      ensures slots == old(slots)[job.state := CompleteJob(old(slots)[job.state])]
      ensures job.state in old(statusMap)
      ensures var st := old(statusMap)[job.state];
              statusMap == old(statusMap)[job.state := st.(completed := st.completed + 1)]
    {
      assert ShowsAt(stateMap, statusMap, waitingJobs, channels, slots, job.state);
      ghost var status, waiting, chans := statusMap, waitingJobs, channels;
      var st := statusMap[job.state];
      statusMap := statusMap[job.state := st.(completed := st.completed + 1)];
      ShowsAfter(stateMap, status, waiting, chans, slots, job.state, statusMap, waitingJobs, channels,
            CompleteJob(slots[job.state]));
      slots := slots[job.state := CompleteJob(slots[job.state])];
    }

    method ProcessJob(job: Job)
      requires Consistent() && job.state in slots && CanArrive(slots[job.state])
      modifies this`statusMap, this`waitingJobs, this`channels, this`slots
      ensures Consistent()
      ensures slots == Process(old(slots), job)
      ensures job.state in stateMap && job.state in old(statusMap) && job.state in old(channels)
      ensures var st := old(statusMap)[job.state];
              var terminal, full := stateMap[job.state].terminal, st.executing >= stateMap[job.state].concurrency;
              && (terminal ==>
                    && statusMap == old(statusMap)[job.state := st.(completed := st.completed + 1)]
                    && waitingJobs == old(waitingJobs) && channels == old(channels))
              && (!terminal && !full ==>
                    && statusMap == old(statusMap)[job.state := st.(executing := st.executing + 1)]
                    && waitingJobs == old(waitingJobs)
                    && channels == old(channels)[job.state := old(channels)[job.state] + [job]])
              && (!terminal && full ==>
                    && statusMap == old(statusMap)[job.state := st.(waiting := st.waiting + 1)]
                    && waitingJobs == old(waitingJobs)[job.state := [job] + QueueOf(old(waitingJobs), job.state)]
                    && channels == old(channels))
    {
      assert ShowsAt(stateMap, statusMap, waitingJobs, channels, slots, job.state);
      if stateMap[job.state].terminal {
        Complete(job);
      } else if statusMap[job.state].executing < stateMap[job.state].concurrency {
        Run(job);
      } else {
        Queue(job);
      }
    }

    /** One less job executes for the state. */
    method GiveBackSlot(state: string)
      requires Consistent() && state in slots
      modifies this`statusMap, this`slots
      ensures Consistent()
      ensures slots == old(slots)[state := GiveBack(old(slots)[state])]
      ensures state in old(statusMap)
      ensures var st := old(statusMap)[state];
              statusMap == old(statusMap)[state := st.(executing := st.executing - 1)]
    {
      assert ShowsAt(stateMap, statusMap, waitingJobs, channels, slots, state);
      ghost var status := statusMap;
      var st := statusMap[state];
      statusMap := statusMap[state := st.(executing := st.executing - 1)];
      ShowsAfter(stateMap, status, waitingJobs, channels, slots, state, statusMap, waitingJobs, channels,
            GiveBack(slots[state]));
      slots := slots[state := GiveBack(slots[state])];
    }

    /** Takes the job that has waited longest off the end of the queue. */
    method TakeOldest(state: string) returns (next: Option<Job>)
      requires Consistent() && state in slots && CanRelease(state, slots[state])
      modifies this`statusMap, this`waitingJobs, this`slots
      ensures Consistent()
      ensures next == Oldest(old(slots)[state])
      ensures slots == old(slots)[state := WithoutOldest(old(slots)[state])]
      ensures var queue := QueueOf(old(waitingJobs), state);
              && (queue == [] ==> next == None && statusMap == old(statusMap) && waitingJobs == old(waitingJobs))
              && (queue != [] ==>
                    && next == Some(queue[|queue| - 1])
                    && waitingJobs == old(waitingJobs)[state := queue[..|queue| - 1]]
                    && state in old(statusMap)
                    && var st := old(statusMap)[state];
                       statusMap == old(statusMap)[state := st.(waiting := st.waiting - 1)])
    {
      assert ShowsAt(stateMap, statusMap, waitingJobs, channels, slots, state);
      var queue := QueueOf(waitingJobs, state);
      if |queue| == 0 {
        return None;
      }
      ghost var status, waiting := statusMap, waitingJobs;
      var job := queue[|queue| - 1];
      waitingJobs := waitingJobs[state := queue[..|queue| - 1]];
      var st := statusMap[job.state];
      statusMap := statusMap[job.state := st.(waiting := st.waiting - 1)];
      ShowsAfter(stateMap, status, waiting, channels, slots, state, statusMap, waitingJobs, channels,
            WithoutOldest(slots[state]));
      slots := slots[state := WithoutOldest(slots[state])];
      return Some(job);
    }

    /** Gives back the slot of a returned job and passes it to the job that has waited longest. */
    method RunNextWaitingJob(state: string)
      requires Consistent() && state in slots && CanRelease(state, slots[state])
      modifies this`statusMap, this`waitingJobs, this`channels, this`slots
      ensures Consistent()
      ensures slots == NextRun(old(slots), state)
      ensures state in old(statusMap) && state in old(channels)
      ensures var st, queue := old(statusMap)[state], QueueOf(old(waitingJobs), state);
              && (queue == [] ==>
                    && statusMap == old(statusMap)[state := st.(executing := st.executing - 1)]
                    && waitingJobs == old(waitingJobs) && channels == old(channels))
              && (queue != [] ==>
                    && statusMap == old(statusMap)[state := st.(waiting := st.waiting - 1)]
                    && waitingJobs == old(waitingJobs)[state := queue[..|queue| - 1]]
                    && channels == old(channels)[state := old(channels)[state] + [queue[|queue| - 1]]])
    {
      assert ShowsAt(stateMap, statusMap, waitingJobs, channels, slots, state);
      ghost var before := slots;
      GiveBackSlot(state);
      ghost var freed := slots;
      var next := TakeOldest(state);
      ghost var shorter := slots;
      if next.Some? {
        Run(next.value);
      }
      NextRunInSteps(before, freed, shorter, slots, state);
    }

    /** `r.Jobs` is ranged over in map order, which the result does not depend on. */
    method AllJobsAreTerminal(jobs: map<string, Job>) returns (all: bool)
      requires forall id :: id in jobs ==> jobs[id].state in stateMap
      ensures all <==> forall id :: id in jobs ==> stateMap[jobs[id].state].terminal
    {
      var rest := jobs.Keys;
      while rest != {}
        invariant rest <= jobs.Keys
        invariant forall id :: id in jobs && id !in rest ==> stateMap[jobs[id].state].terminal
        decreases |rest|
      {
        var id :| id in rest;
        if !stateMap[jobs[id].state].terminal {
          return false;
        }
        rest := rest - {id};
      }
      return true;
    }

    method HasExecutingJobs() returns (any: bool)
      ensures any <==> exists n :: n in statusMap && statusMap[n].executing > 0
    {
      var rest := statusMap.Keys;
      while rest != {}
        invariant rest <= statusMap.Keys
        invariant forall n :: n in statusMap && n !in rest ==> statusMap[n].executing <= 0
        decreases |rest|
      {
        var n :| n in rest;
        if statusMap[n].executing > 0 {
          return true;
        }
        rest := rest - {n};
      }
      return false;
    }
  }
}
