/** handleReturn as the source writes it, over the state storage and the serializer (processor.go: 374-420). */
module Processing {
  import opened Jobs
  import opened KickIds
  import opened Persisted
  import opened StateStorage
  import opened Serializing
  import opened CrashRestart
  import opened Serializer

  // ---- What handling a return comes to ----

  /** The slots after the first `n` records of the return have been placed. */
  function PutAll(slots: Slots, ret: Return, n: nat): Slots
    requires n <= |ret.kicks| + 1 && CanPutAll(slots, ret, n)
    decreases n, 1
  {
    if n == 0 then slots else Process(PutAll(slots, ret, n - 1), Record(ret, n - 1))
  }

  /** Each of the first `n` records finds its state registered, and room in its channel if it runs at once. */
  predicate CanPutAll(slots: Slots, ret: Return, n: nat)
    requires n <= |ret.kicks| + 1
    decreases n, 0
  {
    n == 0 || (
      && CanPutAll(slots, ret, n - 1)
      && var sofar, state := PutAll(slots, ret, n - 1), Record(ret, n - 1).state;
         state in sofar && CanArrive(sofar[state]))
  }

  lemma {:induction false} CanPutFirst(slots: Slots, ret: Return, n: nat, m: nat)
    requires n <= m <= |ret.kicks| + 1 && CanPutAll(slots, ret, m)
    ensures CanPutAll(slots, ret, n)
    decreases m
  {
    if n < m {
      CanPutFirst(slots, ret, n, m - 1);
    }
  }

  function UpdateAll(jobs: Store, ret: Return, n: nat): Store
    requires n <= |ret.kicks| + 1
  {
    if n == 0 then jobs else Apply(Record(ret, n - 1), UpdateAll(jobs, ret, n - 1))
  }

  function Records(ret: Return, n: nat): seq<Job>
    requires n <= |ret.kicks| + 1
  {
    if n == 0 then [] else Records(ret, n - 1) + [Record(ret, n - 1)]
  }

  lemma OneMoreRecord(ret: Return, n: nat, lines: seq<Job>)
    requires n <= |ret.kicks|
    ensures lines + Records(ret, n + 1) == (lines + Records(ret, n)) + [Record(ret, n)]
    ensures n == 0 ==> lines + Records(ret, n) == lines
  {
  }

  lemma {:induction false} RecordsAt(ret: Return, n: nat)
    requires n <= |ret.kicks| + 1
    ensures |Records(ret, n)| == n && forall i :: 0 <= i < n ==> Records(ret, n)[i] == Record(ret, i)
  {
    if n > 0 {
      RecordsAt(ret, n - 1);
    }
  }

  /** The job of the return or one that it kicks. */
  ghost predicate Touches(c: Return, id: string) {
    id == c.job.id || exists i :: 0 <= i < |c.kicks| && id == Child(c.job.id, i)
  }

  lemma {:induction false} UpdatedAt(jobs: Store, c: Return, n: nat)
    requires 0 < n <= |c.kicks| + 1
    ensures var after := UpdateAll(jobs, c, n);
            && c.job.id in after && after[c.job.id] == c.job
            && forall i :: 0 <= i < n - 1 ==>
                 && Child(c.job.id, i) in after
                 && after[Child(c.job.id, i)] == Job(Child(c.job.id, i), c.kicks[i].c, c.kicks[i].state, map[])
    ensures forall id :: !Touches(c, id) ==>
              && (id in UpdateAll(jobs, c, n) <==> id in jobs)
              && (id in jobs ==> UpdateAll(jobs, c, n)[id] == jobs[id])
  {
    if n == 1 {
      assert UpdateAll(jobs, c, 1) == Apply(c.job, UpdateAll(jobs, c, 0));
    } else {
      UpdatedAt(jobs, c, n - 1);
      ChildHasArrow(c.job.id, n - 2);
      forall i | 0 <= i < n - 2 ensures Child(c.job.id, i) != Child(c.job.id, n - 2) {
        ChildInjective(c.job.id, i, c.job.id, n - 2);
      }
    }
  }

  ghost function Told(h: seq<Event>, ret: Return, n: nat): seq<Event>
    requires n <= |ret.kicks| + 1
  {
    if n == 0 then h else Told(h, ret, n - 1) + [Updated(Record(ret, n - 1))]
  }

  ghost function Promised(h: seq<Event>, ret: Return, n: nat): seq<Event>
    requires n <= |ret.kicks| + 1
  {
    if n == 0 then h else Promised(h, ret, n - 1) + [Acknowledged(Record(ret, n - 1))]
  }

  /** The log has gained a line for the job and, after it, one for each kick. */
  ghost predicate Logged(c: Return, active: Option<seq<Job>>, before: Option<seq<Job>>) {
    && active.Some? && before.Some?
    && var n := |before.value|;
       && |active.value| == n + 1 + |c.kicks| && active.value[..n] == before.value && active.value[n] == c.job
       && forall i :: 0 <= i < |c.kicks| ==>
            active.value[n + 1 + i] == Job(Child(c.job.id, i), c.kicks[i].c, c.kicks[i].state, map[])
  }

  lemma RecordsAreLogged(c: Return, lines: seq<Job>)
    ensures Logged(c, Some(lines + Records(c, |c.kicks| + 1)), Some(lines))
  {
    RecordsAt(c, |c.kicks| + 1);
  }

  class Processor {
    const storage: Storage
    const store: JsonSerializer

    constructor (storage: Storage, store: JsonSerializer)
      ensures this.storage == storage && this.store == store
    {
      this.storage, this.store := storage, store;
    }

    ghost predicate Valid()
      reads storage, store, store.dir
    {
      storage.Consistent() && store.Valid()
    }

    /** The first `n` records of the return are in the log and acknowledged. */
    ghost predicate LoggedTo(c: Return, n: nat, d: Disk, h: seq<Event>)
      requires n <= |c.kicks| + 1
      reads store.dir
    {
      && store.dir.history == Promised(h, c, n)
      && d.active.Some? && store.dir.disk == d.(active := Some(d.active.value + Records(c, n)))
    }

    method PersistNext(c: Return, job: Job, f: AppendFaults, ghost n: nat, ghost d: Disk, ghost h: seq<Event>)
      returns (r: Result)
      requires Valid() && n <= |c.kicks| && job == Record(c, n)
      requires store.dir.history == Promised(h, c, n) && (store.appendFile ==> LoggedTo(c, n, d, h))
      modifies store.dir
      ensures Valid() && (r.Done? <==> store.appendFile && !f.encode && !f.sync)
      ensures r.Fails? ==> store.dir.history == Promised(h, c, n)
      ensures r.Fails? && store.appendFile ==>
                store.dir.disk == d.(active := Some(d.active.value + Records(c, if f.encode then n else n + 1)))
      ensures !store.appendFile ==> store.dir.disk == old(store.dir.disk)
      ensures r.Done? ==> LoggedTo(c, n + 1, d, h)
    {
      ghost var acts;
      if d.active.Some? {
        OneMoreRecord(c, n, d.active.value);
      }
      r, acts := store.JobUpdate(job, f);
    }

    /**
     * persistAfterCompletion: one record for the job and one for each kick, in this order, until an append
     * fails; `faults[i]` strikes the append of record `i`. On an error the process ends (log.Fatalf), with
     * the `done` records before it acknowledged.
     */
    method PersistAfterCompletion(c: Return, faults: seq<AppendFaults>) returns (r: Result, ghost done: nat)
      requires Valid() && |faults| == |c.kicks| + 1
      modifies store.dir
      ensures Valid() && storage.slots == old(storage.slots)
      ensures r.Done? <==> store.appendFile && forall i :: 0 <= i < |faults| ==> !faults[i].encode && !faults[i].sync
      ensures done <= |faults| && forall i :: 0 <= i < done ==> !faults[i].encode && !faults[i].sync
      ensures r.Fails? ==> done < |faults| && (store.appendFile ==> faults[done].encode || faults[done].sync)
      ensures !store.appendFile ==> done == 0 && store.dir.disk == old(store.dir.disk)
      ensures r.Fails? && store.appendFile ==>
                store.dir.disk == old(store.dir.disk).(active := Some(old(store.dir.disk.active.value) +
                      Records(c, if faults[done].encode then done else done + 1)))
      ensures store.dir.history == Promised(old(store.dir.history), c, done)
      ensures r.Done? ==> done == |faults| && old(store.dir.disk.active.Some?)
      ensures r.Done? ==>
                store.dir.disk ==
                old(store.dir.disk).(active := Some(old(store.dir.disk.active.value) + Records(c, |c.kicks| + 1)))
      ensures r.Done? ==> Logged(c, store.dir.disk.active, old(store.dir.disk.active))
    {
      ghost var d, h := store.dir.disk, store.dir.history;
      done := 0;
      OneMoreRecord(c, 0, ActiveLines(d.active));
      r := PersistNext(c, c.job, faults[0], 0, d, h);
      if r.Fails? {
        return;
      }
      done := 1;
      for idx := 0 to |c.kicks|
        invariant Valid() && r.Done? && done == idx + 1
        invariant forall i :: 0 <= i < done ==> !faults[i].encode && !faults[i].sync
        invariant store.appendFile && LoggedTo(c, idx + 1, d, h)
      {
        var k := c.kicks[idx];
        r := PersistNext(c, Job(Child(c.job.id, idx), k.c, k.state, map[]), faults[idx + 1], idx + 1, d, h);
        if r.Fails? {
          return;
        }
        done := done + 1;
      }
      RecordsAreLogged(c, d.active.value);
    }

    method Put(job: Job)
      requires Valid() && job.state in storage.slots && CanArrive(storage.slots[job.state])
      modifies storage, store`run, store.dir`history
      ensures Valid() && storage.slots == Process(old(storage.slots), job)
      ensures store.run == Apply(job, old(store.run)) && store.dir.history == old(store.dir.history) + [Updated(job)]
    {
      store.UpdateJob(job);
      storage.ProcessJob(job);
    }

    /** UpdateJob and processJob for one record of a return, the earlier ones having been placed. */
    method PutNext(c: Return, job: Job, ghost n: nat, ghost slots: Slots, ghost run: Store, ghost h: seq<Event>)
      requires Valid() && n <= |c.kicks| && job == Record(c, n) && CanPutAll(slots, c, |c.kicks| + 1)
      requires CanPutAll(slots, c, n) && storage.slots == PutAll(slots, c, n)
      requires store.run == UpdateAll(run, c, n) && store.dir.history == Told(h, c, n)
      modifies storage, store`run, store.dir`history
      ensures Valid() && CanPutAll(slots, c, n + 1) && storage.slots == PutAll(slots, c, n + 1)
      ensures store.run == UpdateAll(run, c, n + 1) && store.dir.history == Told(h, c, n + 1)
    {
      CanPutFirst(slots, c, n + 1, |c.kicks| + 1);
      Put(job);
    }

    /** The job itself, then each kick. */
    method PlaceAll(c: Return)
      requires Valid() && CanPutAll(storage.slots, c, |c.kicks| + 1)
      modifies storage, store`run, store.dir`history
      ensures Valid()
      ensures storage.slots == PutAll(old(storage.slots), c, |c.kicks| + 1)
      ensures store.run == UpdateAll(old(store.run), c, |c.kicks| + 1)
      ensures store.dir.history == Told(old(store.dir.history), c, |c.kicks| + 1)
    {
      ghost var slots, run, h := storage.slots, store.run, store.dir.history;
      PutNext(c, c.job, 0, slots, run, h);
      for idx := 0 to |c.kicks|
        invariant Valid() && CanPutAll(slots, c, idx + 1)
        invariant storage.slots == PutAll(slots, c, idx + 1)
        invariant store.run == UpdateAll(run, c, idx + 1)
        invariant store.dir.history == Told(h, c, idx + 1)
      {
        var k := c.kicks[idx];
        PutNext(c, Job(Child(c.job.id, idx), k.c, k.state, map[]), idx + 1, slots, run, h);
      }
    }

    /**
     * handleReturn: the freed slot is handed on, the job and its kicks are put into the run and placed, and
     * then logged. It succeeds exactly when the append file is open and no append fails.
     */
    method HandleReturn(c: Return, faults: seq<AppendFaults>) returns (r: Result, changed: bool)
      requires |faults| == |c.kicks| + 1
      requires Valid() && c.prior in storage.slots && CanRelease(c.prior, storage.slots[c.prior])
      requires CanPutAll(NextRun(storage.slots, c.prior), c, |c.kicks| + 1)
      modifies storage, store`run, store.dir
      ensures Valid()
      ensures storage.slots == PutAll(NextRun(old(storage.slots), c.prior), c, |c.kicks| + 1)
      ensures store.run == UpdateAll(old(store.run), c, |c.kicks| + 1)
      ensures r.Done? <==> store.appendFile && forall i :: 0 <= i < |faults| ==> !faults[i].encode && !faults[i].sync
      ensures c.job.id in store.run && store.run[c.job.id] == c.job
      ensures forall i :: 0 <= i < |c.kicks| ==>
                && Child(c.job.id, i) in store.run
                && store.run[Child(c.job.id, i)] == Job(Child(c.job.id, i), c.kicks[i].c, c.kicks[i].state, map[])
      ensures forall id :: !Touches(c, id) ==>
                && (id in store.run <==> id in old(store.run))
                && (id in store.run ==> store.run[id] == old(store.run)[id])
      ensures r.Done? ==> Logged(c, store.dir.disk.active, old(store.dir.disk.active))
      ensures r.Done? ==> old(store.dir.disk.active.Some?)
      ensures r.Done? ==>
                store.dir.history == Promised(Told(old(store.dir.history), c, |c.kicks| + 1), c, |c.kicks| + 1)
      ensures r.Done? ==>
                store.dir.disk == old(store.dir.disk).(active := Some(old(store.dir.disk.active.value) +
                      Records(c, |c.kicks| + 1)))
      ensures changed <==> c.prior != c.job.state || c.kicks != []
    {
      UpdatedAt(store.run, c, |c.kicks| + 1);
      storage.RunNextWaitingJob(c.prior);
      PlaceAll(c);
      ghost var done;
      r, done := PersistAfterCompletion(c, faults);
      changed := c.prior != c.job.state || |c.kicks| > 0;
    }
  }
}
