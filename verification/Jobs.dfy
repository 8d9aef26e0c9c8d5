/**
 * Jobs, runs and the outcome of one execution (job.go, run.go, processor.go).
 * A job's context is kept as its JSON text; LastUpdate is not modelled.
 */
module Jobs {

  type Payload = string
  type Errors = map<string, seq<string>>

  datatype Option<+T> = None | Some(value: T)

  datatype Job = Job(id: string, c: Payload, state: string, stateErrors: Errors)
  datatype Kick = Kick(c: Payload, state: string)
  datatype Return = Return(prior: string, job: Job, kicks: seq<Kick>)

  /** `text` is how Go prints the duration. */
  datatype Timeout = Timeout(duration: int, text: string, failState: string)

  datatype StateConf = StateConf(name: string, terminal: bool, hasExec: bool, concurrency: int,
        timeout: Option<Timeout>)

  /** The error an Exec function returned; `deadline` and `rateLimit` say what errors.Is / errors.As find in it. */
  datatype ExecError = NoError | Error(text: string, deadline: bool, rateLimit: bool)

  /** What an Exec function returned. */
  datatype Outcome = Outcome(c: Payload, state: string, kicks: seq<Kick>, err: ExecError)

  function ErrorsIn(e: Errors, state: string): seq<string> {
    if state in e then e[state] else []
  }

  function AddError(e: Errors, state: string, text: string): (r: Errors)
    ensures ErrorsIn(r, state) == ErrorsIn(e, state) + [text]
    ensures forall s :: s != state ==> ErrorsIn(r, s) == ErrorsIn(e, s)
  {
    e[state := ErrorsIn(e, state) + [text]]
  }

  predicate TimedOut(timeout: Option<Timeout>, err: ExecError, cancelled: bool) {
    timeout.Some? && err.Error? && err.deadline && !cancelled
  }

  /** The job after one execution, as executeOne and classifyResult leave it. */
  function Classify(j: Job, o: Outcome, timeout: Option<Timeout>, cancelled: bool): Job {
    if TimedOut(timeout, o.err, cancelled) then
      Job(j.id, o.c, timeout.value.failState, AddError(j.stateErrors, j.state, "timed out after " + timeout.value.text))
    else if o.err.Error? then
      Job(j.id, o.c, o.state, AddError(j.stateErrors, j.state, o.err.text))
    else
      Job(j.id, o.c, o.state, j.stateErrors)
  }

  /**
   * `later` holds every entry of `earlier`, in place; the only new one, if the attempt failed, is at
   * the end of the list of the state it ran in.
   */
  ghost predicate OneAttempt(later: Errors, earlier: Errors, state: string, failed: bool) {
    && (forall s :: ErrorsIn(earlier, s) <= ErrorsIn(later, s))
    && (forall s :: |ErrorsIn(later, s)| == |ErrorsIn(earlier, s)| + (if failed && s == state then 1 else 0))
  }

  /** An attempt adds one entry, under the state it ran in, exactly when it failed or timed out. */
  lemma ClassifyAppends(j: Job, o: Outcome, timeout: Option<Timeout>, cancelled: bool)
    ensures var r := Classify(j, o, timeout, cancelled);
            r.id == j.id && OneAttempt(r.stateErrors, j.stateErrors, j.state, o.err.Error?)
  {
  }

  /**
   * The job's new fields, case by case: a timeout sends it to the fail state and names the duration, another
   * error sends it where Exec said and keeps the error's text, a success leaves no trace among the errors.
   */
  lemma ClassifyByCases(j: Job, o: Outcome, timeout: Option<Timeout>, cancelled: bool)
    ensures var r := Classify(j, o, timeout, cancelled);
            var late := timeout.Some? && o.err.Error? && o.err.deadline && !cancelled;
            var had := if j.state in j.stateErrors then j.stateErrors[j.state] else [];
            && r.id == j.id && r.c == o.c
            && r.state == (if late then timeout.value.failState else o.state)
            && (late ==> r.stateErrors == j.stateErrors[j.state := had + ["timed out after " + timeout.value.text]])
            && (o.err.Error? && !late ==> r.stateErrors == j.stateErrors[j.state := had + [o.err.text]])
            && (o.err.NoError? ==> r.stateErrors == j.stateErrors)
  {
  }

  function KickedJob(id: string, k: Kick): Job {
    Job(id, k.c, k.state, map[])
  }
}
