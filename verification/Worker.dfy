/**
 * What a worker does with one job (processor.go: executeOne, classifyResult; job.go: cloneStateErrorsMap).
 * Error lists are arrays on the heap, so that who may write to which list is part of the contracts.
 */
module Worker {
  import opened Jobs
  import opened Limiter

  /** A Go map from state to error list, shared by reference. */
  class ErrorMap {
    var lists: map<string, array<string>>

    constructor ()
      ensures lists == map[]
    {
      lists := map[];
    }

    ghost function View(): Errors
      reads this, lists.Values
    {
      map s | s in lists :: lists[s][..]
    }
  }

  /** A job value as it lies in the run, in a channel, or in a snapshot; copies share `errors`. */
  datatype Published = Published(id: string, c: Payload, state: string, errors: ErrorMap?)

  datatype Sent = Sent(prior: string, job: Published, kicks: seq<Kick>)

  ghost function ViewOf(m: ErrorMap?): Errors
    reads m, if m == null then {} else m.lists.Values
  {
    if m == null then map[] else m.View()
  }

  ghost function Shown(p: Published): Job
    reads p.errors, if p.errors == null then {} else p.errors.lists.Values
  {
    Job(p.id, p.c, p.state, ViewOf(p.errors))
  }

  method CopyList(a: array<string>) returns (b: array<string>)
    ensures fresh(b) && b[..] == a[..]
  {
    b := new string[a.Length](_ => "");
    for i := 0 to a.Length
      invariant b[..i] == a[..i]
    {
      b[i] := a[i];
    }
  }

  /** append on a list without spare room: a new array, the old one untouched. */
  method Grown(a: array<string>, text: string) returns (b: array<string>)
    ensures fresh(b) && b[..] == a[..] + [text]
  {
    b := new string[a.Length + 1](_ => "");
    for i := 0 to a.Length
      invariant b[..i] == a[..i]
    {
      b[i] := a[i];
    }
    b[a.Length] := text;
  }

  /** cloneStateErrorsMap: the same contents, sharing nothing with the original. */
  method CloneStateErrorsMap(m: ErrorMap?) returns (out: ErrorMap)
    ensures fresh(out) && forall s :: s in out.lists ==> fresh(out.lists[s])
    ensures out.View() == ViewOf(m)
  {
    out := new ErrorMap();
    if m == null {
      return;
    }
    var todo := m.lists.Keys;
    while todo != {}
      invariant todo <= m.lists.Keys
      invariant fresh(out) && forall s :: s in out.lists ==> fresh(out.lists[s])
      invariant out.lists.Keys == m.lists.Keys - todo
      invariant forall s :: s in out.lists ==> out.lists[s][..] == m.lists[s][..]
      decreases |todo|
    {
      var s :| s in todo;
      var copied := CopyList(m.lists[s]);
      assert forall k :: k in out.lists ==> out.lists[k] != copied;
      out.lists := out.lists[s := copied];
      todo := todo - {s};
    }
  }

  method AppendError(m: ErrorMap, state: string, text: string)
    modifies m
    ensures forall s :: s in m.lists ==> (s in old(m.lists) && m.lists[s] == old(m.lists[s])) || fresh(m.lists[s])
    ensures m.View() == AddError(old(m.View()), state, text)
  {
    var longer: array<string>;
    if state in m.lists {
      longer := Grown(m.lists[state], text);
    } else {
      longer := new string[1](_ => text);
    }
    assert longer[..] == ErrorsIn(m.View(), state) + [text];
    m.lists := m.lists[state := longer];
  }

  /** The worker's own copy of a job, changed in place through a pointer. */
  class WorkingJob {
    const id: string
    var c: Payload
    var state: string
    const errors: ErrorMap

    constructor (p: Published, errors: ErrorMap)
      ensures id == p.id && c == p.c && state == p.state && this.errors == errors
    {
      id, c, state, this.errors := p.id, p.c, p.state, errors;
    }
  }

  /** Only a rate-limit error slows the limiter down, only a success speeds it up; a timeout does neither. */
  function LimiterAfter(st: State, err: ExecError, timeout: Option<Timeout>, cancelled: bool, now: int): State {
    if TimedOut(timeout, err, cancelled) then st
    else if err.Error? then if err.rateLimit then AfterBackoff(st, now) else st
    else AfterSuccess(st, now)
  }

  /** The rate never rises on a rate-limit error and never falls on a success; nothing else touches the limiter. */
  lemma LimiterByCases(st: State, err: ExecError, timeout: Option<Timeout>, cancelled: bool, now: int)
    requires Bounded(st)
    ensures var after, late := LimiterAfter(st, err, timeout, cancelled, now),
                timeout.Some? && err.Error? && err.deadline && !cancelled;
            && (late || (err.Error? && !err.rateLimit) ==> after == st)
            && (err.Error? && err.rateLimit && !late ==> after == AfterBackoff(st, now) && after.current <= st.current)
            && (err.NoError? ==> after == AfterSuccess(st, now) && after.current >= st.current)
  {
  }

  method ClassifyResult(j: WorkingJob, err: ExecError, prior: string, timeout: Option<Timeout>, cancelled: bool,
                        limiter: AIMDRateLimiter?, now: int)
    requires limiter != null ==> limiter.Valid()
    modifies j`state, j.errors, limiter
    ensures forall s :: s in j.errors.lists ==>
              (s in old(j.errors.lists) && j.errors.lists[s] == old(j.errors.lists[s])) || fresh(j.errors.lists[s])
    ensures Job(j.id, j.c, j.state, j.errors.View()) ==
            Classify(Job(j.id, j.c, prior, old(j.errors.View())), Outcome(j.c, old(j.state), [], err), timeout,
                  cancelled)
    ensures j.state == if timeout.Some? && err.Error? && err.deadline && !cancelled then timeout.value.failState
                       else old(j.state)
    ensures var had, has := old(ErrorsIn(j.errors.View(), prior)), ErrorsIn(j.errors.View(), prior);
            && (timeout.Some? && err.Error? && err.deadline && !cancelled ==>
                  has == had + ["timed out after " + timeout.value.text])
            && (err.Error? && !(timeout.Some? && err.deadline && !cancelled) ==> has == had + [err.text])
            && (err.NoError? ==> has == had)
    ensures forall s :: s != prior ==> ErrorsIn(j.errors.View(), s) == old(ErrorsIn(j.errors.View(), s))
    ensures limiter != null ==>
            limiter.Valid() && limiter.View() == LimiterAfter(old(limiter.View()), err, timeout, cancelled, now)
    ensures limiter != null && err.Error? && (!err.rateLimit || (timeout.Some? && err.deadline && !cancelled)) ==>
              limiter.View() == old(limiter.View())
    ensures limiter != null && err.Error? && err.rateLimit && !(timeout.Some? && err.deadline && !cancelled) ==>
              limiter.View() == AfterBackoff(old(limiter.View()), now) && limiter.current <= old(limiter.current)
    ensures limiter != null && err.NoError? ==>
              limiter.View() == AfterSuccess(old(limiter.View()), now) && limiter.current >= old(limiter.current)
  {
    if timeout.Some? && err.Error? && err.deadline && !cancelled {
      AppendError(j.errors, prior, "timed out after " + timeout.value.text);
      j.state := timeout.value.failState;
      return;
    }
    if err.Error? {
      AppendError(j.errors, prior, err.text);
      if err.rateLimit && limiter != null {
        limiter.Backoff(now);
      }
      return;
    }
    if limiter != null {
      limiter.OnSuccess(now);
    }
  }

  lemma ClassifyReads(j: Job, o: Outcome, k: Job, q: Outcome, timeout: Option<Timeout>, cancelled: bool)
    requires j.id == k.id && j.state == k.state && j.stateErrors == k.stateErrors
    requires o.c == q.c && o.state == q.state && o.err == q.err
    ensures Classify(j, o, timeout, cancelled) == Classify(k, q, timeout, cancelled)
  {
  }

  /** The execution proper, on a clone of the error lists. */
  method ExecuteOn(p: Published, errors: ErrorMap, o: Outcome, timeout: Option<Timeout>, cancelled: bool,
                   limiter: AIMDRateLimiter?, now: int) returns (job: Published)
    requires limiter != null ==> limiter.Valid()
    modifies errors, limiter
    ensures job.errors == errors
    ensures forall s :: s in errors.lists ==>
            (s in old(errors.lists) && errors.lists[s] == old(errors.lists[s])) || fresh(errors.lists[s])
    ensures Job(job.id, job.c, job.state, errors.View()) ==
            Classify(Job(p.id, p.c, p.state, old(errors.View())), o, timeout, cancelled)
    ensures limiter != null ==>
            limiter.Valid() && limiter.View() == LimiterAfter(old(limiter.View()), o.err, timeout, cancelled, now)
  {
    ghost var was := errors.View();
    var j := new WorkingJob(p, errors);
    var prior := j.state;
    j.c, j.state := o.c, o.state;
    assert errors.View() == was;
    ClassifyResult(j, o.err, prior, timeout, cancelled, limiter, now);
    ClassifyReads(Job(p.id, o.c, prior, was), Outcome(o.c, o.state, [], o.err), Job(p.id, p.c, p.state, was), o,
          timeout, cancelled);
    job := Published(j.id, j.c, j.state, errors);
  }

  /**
   * One execution, `o` being what Exec returned. Nothing but the limiter is changed: the lists reachable
   * from the job received, from the run or from a checkpoint's snapshot stay as they are, and the job
   * sent back shares none of them.
   */
  method ExecuteOne(p: Published, o: Outcome, timeout: Option<Timeout>, cancelled: bool, limiter: AIMDRateLimiter?,
        now: int)
    returns (ret: Sent)
    requires limiter != null ==> limiter.Valid()
    modifies limiter
    ensures ret.prior == p.state && ret.kicks == o.kicks
    ensures ret.job.errors != null && fresh(ret.job.errors) && forall s :: s in ret.job.errors.lists ==>
            fresh(ret.job.errors.lists[s])
    ensures Shown(ret.job) == Classify(old(Shown(p)), o, timeout, cancelled)
    ensures ret.job.id == p.id && ret.job.c == o.c
    ensures ret.job.state == if timeout.Some? && o.err.Error? && o.err.deadline && !cancelled then
                               timeout.value.failState else o.state
    ensures var had, has := old(ErrorsIn(ViewOf(p.errors), p.state)), ErrorsIn(ret.job.errors.View(), p.state);
            && (timeout.Some? && o.err.Error? && o.err.deadline && !cancelled ==>
                  has == had + ["timed out after " + timeout.value.text])
            && (o.err.Error? && !(timeout.Some? && o.err.deadline && !cancelled) ==> has == had + [o.err.text])
            && (o.err.NoError? ==> has == had)
    ensures forall s :: s != p.state ==> ErrorsIn(ret.job.errors.View(), s) == old(ErrorsIn(ViewOf(p.errors), s))
    ensures limiter != null ==>
            limiter.Valid() && limiter.View() == LimiterAfter(old(limiter.View()), o.err, timeout, cancelled, now)
    ensures limiter != null && o.err.Error? && (!o.err.rateLimit || (timeout.Some? && o.err.deadline && !cancelled)) ==>
              limiter.View() == old(limiter.View())
    ensures limiter != null && o.err.Error? && o.err.rateLimit && !(timeout.Some? && o.err.deadline && !cancelled) ==>
              limiter.View() == AfterBackoff(old(limiter.View()), now) && limiter.current <= old(limiter.current)
    ensures limiter != null && o.err.NoError? ==>
              limiter.View() == AfterSuccess(old(limiter.View()), now) && limiter.current >= old(limiter.current)
  {
    ClassifyByCases(Shown(p), o, timeout, cancelled);
    var errors := CloneStateErrorsMap(p.errors);
    var job := ExecuteOn(p, errors, o, timeout, cancelled, limiter, now);
    ret := Sent(p.state, job, o.kicks);
  }
}
