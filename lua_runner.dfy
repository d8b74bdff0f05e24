/** The page side of Lua execution (src/runners/luaRunner.ts): the same worker and one-shot
    resolver lifecycle as the JavaScript runner, with input requests answered by `resume`
    messages. `cancel` here returns at once without a worker and leaves `pendingDone` set. */
module LuaRunner {
  import opened Common
  import opened Messages

  /** A message from the Lua worker as the handler tells them apart. Payloads are their
      `String` renderings; a log payload is `None` for null and undefined. */
  datatype FromWorker =
    | LogMsg(payload: Option<string>)
    | RequestInput
    | ErrorMsg(text: string)
    | DoneMsg
    | Unlisted          // no `type`, or a type the switch does not list

  /** The runner's fields, the number of input requests whose `onInput` is still awaited, the
      number of workers made so far, and the trace of effects. */
  datatype RunnerState = RunnerState(
    worker: Option<WorkerRef>,
    pendingDone: Option<nat>,
    doneResolver: Option<nat>,
    awaiting: nat,
    created: nat,
    effects: seq<Effect>)

  const Initial := RunnerState(None, None, None, 0, 0, [])

  /** `cleanup()`. */
  function AfterCleanup(s: RunnerState): RunnerState {
    s.(worker := None, doneResolver := None, pendingDone := None,
       effects := s.effects + Stop(s.worker) + Fire(s.doneResolver))
  }

  /** `cleanup(); this.doneResolver && this.doneResolver()`. */
  function Finish(s: RunnerState): RunnerState {
    var c := AfterCleanup(s);
    c.(effects := c.effects + Fire(c.doneResolver))
  }

  /** `cancel()`: nothing without a worker; otherwise post `cancel`, terminate, and fire the
      resolver. `pendingDone` is not touched. */
  function AfterCancel(s: RunnerState): RunnerState {
    if s.worker.None? then s
    else
      var w := s.worker.value;
      s.(worker := None, doneResolver := None,
         effects := s.effects + [Post(w, CancelRun), Terminate(w)] + Fire(s.doneResolver))
  }

  /** `execute(code, …)` up to the returned promise. */
  function AfterExecute(s: RunnerState, code: string): RunnerState {
    var c := AfterCleanup(s);
    var w := WorkerRef(c.created);
    c.(worker := Some(w), pendingDone := Some(w.id), doneResolver := Some(w.id),
       created := c.created + 1, effects := c.effects + [Spawn(w), Post(w, RunLua(code))])
  }

  /** `worker.onmessage`, up to the `await` of an input request. */
  function AfterMessage(s: RunnerState, msg: FromWorker): RunnerState {
    match msg
    case LogMsg(p) => s.(effects := s.effects + [Log(if p.Some? then p.value else "")])
    case RequestInput => s.(effects := s.effects + [AskInput(Some(""))], awaiting := s.awaiting + 1)
    case ErrorMsg(p) => s.(effects := s.effects + [Log("Worker Error: " + p + "\n")])
    case DoneMsg => Finish(s.(effects := s.effects + [Log("")]))
    case Unlisted => s
  }

  /** `worker.onerror` with the event's message. */
  function AfterWorkerError(s: RunnerState, message: string): RunnerState {
    Finish(s.(effects := s.effects + [Log("Worker uncaught error: " + message + "\n")]))
  }

  /** The arguments a settled input resumes the coroutine with. */
  function ResumeArgs(answer: Answer): seq<string> {
    if answer.Answered? then [answer.text] else []
  }

  /** The rest of the handler once an awaited `onInput` settles: a rejection is logged, and
      whatever worker `this.worker` is now, if any, is sent one `resume`. */
  function AfterInputAnswered(s: RunnerState, answer: Answer): RunnerState
    requires s.awaiting > 0
  {
    var logged := if answer.Rejected? then [Log("Input Error: " + answer.reason + "\n")] else [];
    var post := if s.worker.Some? then [Post(s.worker.value, Resume(ResumeArgs(answer)))] else [];
    s.(awaiting := s.awaiting - 1, effects := s.effects + logged + post)
  }

  /** Everything that can happen to a runner; worker messages come only from the live worker. */
  datatype Event =
    | Execute(code: string)
    | Message(msg: FromWorker)
    | WorkerError(message: string)
    | InputSettled(answer: Answer)
    | CancelCall
    | CleanupCall

  predicate Enabled(s: RunnerState, e: Event) {
    match e
    case Message(_) => s.worker.Some?
    case WorkerError(_) => s.worker.Some?
    case InputSettled(_) => s.awaiting > 0
    case _ => true
  }

  function Step(s: RunnerState, e: Event): RunnerState
    requires Enabled(s, e)
  {
    match e
    case Execute(code) => AfterExecute(s, code)
    case Message(msg) => AfterMessage(s, msg)
    case WorkerError(message) => AfterWorkerError(s, message)
    case InputSettled(answer) => AfterInputAnswered(s, answer)
    case CancelCall => AfterCancel(s)
    case CleanupCall => AfterCleanup(s)
  }

  predicate Trace(s: RunnerState, events: seq<Event>)
    decreases |events|
  {
    events == [] || (Enabled(s, events[0]) && Trace(Step(s, events[0]), events[1..]))
  }

  function Final(s: RunnerState, events: seq<Event>): RunnerState
    requires Trace(s, events)
    decreases |events|
  {
    if events == [] then s else Final(Step(s, events[0]), events[1..])
  }

  /** The runner's invariant: the resolver is one-shot, a worker exists exactly while its
      run's resolver is live, and a live resolver settles the pending promise. After `cancel`
      `pendingDone` may still name a run whose resolver is gone. */
  predicate Inv(s: RunnerState) {
    && OneShot(s.effects, s.doneResolver, s.created)
    && (s.worker.Some? ==> s.doneResolver == Some(s.worker.value.id))
    && (s.worker.None? ==> s.doneResolver.None?)
    && (s.doneResolver.Some? ==> s.pendingDone == s.doneResolver)
  }

  lemma FinishIsCleanup(s: RunnerState)
    ensures Finish(s) == AfterCleanup(s)
  {
    var c := AfterCleanup(s);
    assert c.effects + Fire(c.doneResolver) == c.effects;
  }

  lemma CleanupKeepsInv(s: RunnerState)
    requires OneShot(s.effects, s.doneResolver, s.created)
    ensures Inv(AfterCleanup(s)) && Inv(Finish(s))
  {
    OneShotQuiet(s.effects, Stop(s.worker), s.doneResolver, s.created);
    OneShotFire(s.effects + Stop(s.worker), s.doneResolver, s.created);
    FinishIsCleanup(s);
  }

  /** Every event keeps the invariant. */
  lemma StepKeepsInv(s: RunnerState, e: Event)
    requires Inv(s) && Enabled(s, e)
    ensures Inv(Step(s, e))
  {
    match e
    case Execute(code) => ExecuteKeepsInv(s, code);
    case Message(msg) => MessageKeepsInv(s, msg);
    case WorkerError(message) =>
      var line := [Log("Worker uncaught error: " + message + "\n")];
      OneShotQuiet(s.effects, line, s.doneResolver, s.created);
      CleanupKeepsInv(s.(effects := s.effects + line));
    case InputSettled(answer) =>
      var t := AfterInputAnswered(s, answer);
      assert t.effects == s.effects + t.effects[|s.effects|..];
      OneShotQuiet(s.effects, t.effects[|s.effects|..], s.doneResolver, s.created);
    case CancelCall => CancelKeepsInv(s);
    case CleanupCall =>
      CleanupKeepsInv(s);
  }

  lemma ExecuteKeepsInv(s: RunnerState, code: string)
    requires Inv(s)
    ensures Inv(AfterExecute(s, code))
  {
    CleanupKeepsInv(s);
    var c := AfterCleanup(s);
    OneShotFresh(c.effects, c.created);
    var w := WorkerRef(c.created);
    OneShotQuiet(c.effects, [Spawn(w), Post(w, RunLua(code))], Some(c.created), c.created + 1);
  }

  lemma CancelKeepsInv(s: RunnerState)
    requires Inv(s)
    ensures Inv(AfterCancel(s))
  {
    if s.worker.Some? {
      var stop := [Post(s.worker.value, CancelRun), Terminate(s.worker.value)];
      OneShotQuiet(s.effects, stop, s.doneResolver, s.created);
      OneShotFire(s.effects + stop, s.doneResolver, s.created);
    }
  }

  lemma MessageKeepsInv(s: RunnerState, msg: FromWorker)
    requires Inv(s) && s.worker.Some?
    ensures Inv(AfterMessage(s, msg))
  {
    var t := AfterMessage(s, msg);
    match msg {
      case DoneMsg =>
        OneShotQuiet(s.effects, [Log("")], s.doneResolver, s.created);
        CleanupKeepsInv(s.(effects := s.effects + [Log("")]));
      case _ =>
        assert t.effects == s.effects + t.effects[|s.effects|..];
        OneShotQuiet(s.effects, t.effects[|s.effects|..], s.doneResolver, s.created);
    }
  }

  lemma {:induction false} TraceKeepsInv(s: RunnerState, events: seq<Event>)
    requires Inv(s) && Trace(s, events)
    ensures Inv(Final(s, events))
    decreases |events|
  {
    if events != [] {
      StepKeepsInv(s, events[0]);
      TraceKeepsInv(Step(s, events[0]), events[1..]);
    }
  }

  /** Each run's done promise is resolved at most once, whatever happens. */
  lemma ResolvesAtMostOnce(events: seq<Event>)
    requires Trace(Initial, events)
    ensures Distinct(Resolved(Final(Initial, events).effects))
  {
    TraceKeepsInv(Initial, events);
  }

  /** `cleanup` leaves nothing live and is idempotent. */
  lemma CleanupIdempotent(s: RunnerState)
    ensures var c := AfterCleanup(s);
      c.worker.None? && c.doneResolver.None? && c.pendingDone.None? && AfterCleanup(c) == c
  {
  }

  /** `cancel` without a worker changes nothing; with one it posts `cancel`, terminates it and
      fires the live resolver exactly once, keeps `pendingDone`, and a second `cancel` changes
      nothing. */
  lemma CancelOnce(s: RunnerState)
    requires Inv(s)
    ensures s.worker.None? ==> AfterCancel(s) == s
    ensures s.worker.Some? ==>
      var w := s.worker.value; var c := AfterCancel(s);
      && c.effects == s.effects + [Post(w, CancelRun), Terminate(w), Resolve(w.id)]
      && c.worker.None? && c.doneResolver.None? && c.pendingDone == s.pendingDone
    ensures AfterCancel(AfterCancel(s)) == AfterCancel(s)
  {
  }

  /** `execute` first terminates the previous worker and resolves the previous run, and only
      then makes a worker no earlier run used and posts `run` to it. */
  lemma ExecuteCleansUpFirst(s: RunnerState, code: string)
    requires Inv(s)
    ensures var r := AfterExecute(s, code); var w := WorkerRef(s.created);
      && r.effects == s.effects + Stop(s.worker) + Fire(s.doneResolver) + [Spawn(w), Post(w, RunLua(code))]
      && (s.worker.Some? ==> s.worker.value != w)
      && (s.doneResolver.Some? ==> s.doneResolver.value != w.id)
      && r.worker == Some(w) && r.doneResolver == Some(w.id) && r.pendingDone == Some(w.id)
  {
  }

  /** A worker `error` message only logs; the run goes on, with worker and resolver as they
      were. */
  lemma ErrorOnlyLogs(s: RunnerState, p: string)
    ensures AfterMessage(s, ErrorMsg(p)) == s.(effects := s.effects + [Log("Worker Error: " + p + "\n")])
  {
  }

  /** `done` logs the empty string, then ends the run as `cleanup` does; the resolver call
      after `cleanup` finds nothing left to call. */
  lemma DoneLogsThenCleansUp(s: RunnerState)
    ensures AfterMessage(s, DoneMsg) == AfterCleanup(s.(effects := s.effects + [Log("")]))
  {
    FinishIsCleanup(s.(effects := s.effects + [Log("")]));
  }

  /** Each `request_input` is answered by exactly one `resume` (to the live worker, if any):
      with the user's text, or with no arguments after logging the rejection. */
  lemma OneResumePerRequest(s: RunnerState, answer: Answer)
    requires s.awaiting > 0
    ensures var r := AfterInputAnswered(s, answer);
      && r.awaiting == s.awaiting - 1
      && (answer.Answered? && s.worker.Some? ==>
            r.effects == s.effects + [Post(s.worker.value, Resume([answer.text]))])
      && (answer.Rejected? && s.worker.Some? ==>
            r.effects == s.effects + [Log("Input Error: " + answer.reason + "\n"), Post(s.worker.value, Resume([]))])
      && (s.worker.None? ==> forall k :: |s.effects| <= k < |r.effects| ==> !r.effects[k].Post?)
  {
  }

  /** The runner of src/runners/luaRunner.ts. */
  class LuaRunner {
    var worker: Option<WorkerRef>
    var pendingDone: Option<nat>
    var doneResolver: Option<nat>
    var awaiting: nat
    var created: nat
    var effects: seq<Effect>

    function State(): RunnerState
      reads this
    {
      RunnerState(worker, pendingDone, doneResolver, awaiting, created, effects)
    }

    constructor ()
      ensures State() == Initial
    {
      worker := None;
      pendingDone := None;
      doneResolver := None;
      awaiting := 0;
      created := 0;
      effects := [];
    }

    method Cleanup()
      modifies this
      ensures State() == AfterCleanup(old(State()))
    {
      if worker.Some? {
        effects := effects + [Terminate(worker.value)];
        worker := None;
      }
      if doneResolver.Some? {
        effects := effects + [Resolve(doneResolver.value)];
        doneResolver := None;
      }
      pendingDone := None;
    }

    method Cancel()
      modifies this
      ensures State() == AfterCancel(old(State()))
    {
      if worker.None? {
        return;
      }
      effects := effects + [Post(worker.value, CancelRun), Terminate(worker.value)];
      worker := None;
      if doneResolver.Some? {
        effects := effects + [Resolve(doneResolver.value)];
        doneResolver := None;
      }
    }

    /** Returns the run whose promise `execute` hands back. */
    method Execute(code: string) returns (run: nat)
      modifies this
      ensures State() == AfterExecute(old(State()), code)
      ensures pendingDone == Some(run) && worker == Some(WorkerRef(run))
    {
      Cleanup();
      var w := WorkerRef(created);
      created := created + 1;
      effects := effects + [Spawn(w)];
      worker := Some(w);
      pendingDone := Some(w.id);
      doneResolver := Some(w.id);
      effects := effects + [Post(w, RunLua(code))];
      run := w.id;
    }

    method OnMessage(msg: FromWorker)
      requires worker.Some?
      modifies this
      ensures State() == AfterMessage(old(State()), msg)
    {
      match msg
      case LogMsg(p) =>
        effects := effects + [Log(if p.Some? then p.value else "")];
      case RequestInput =>
        effects := effects + [AskInput(Some(""))];
        awaiting := awaiting + 1;
      case ErrorMsg(p) =>
        effects := effects + [Log("Worker Error: " + p + "\n")];
      case DoneMsg =>
        effects := effects + [Log("")];
        Cleanup();
        // `this.doneResolver && this.doneResolver()` finds the slot emptied by `cleanup`.
      case Unlisted =>
    }

    method OnWorkerError(message: string)
      requires worker.Some?
      modifies this
      ensures State() == AfterWorkerError(old(State()), message)
    {
      effects := effects + [Log("Worker uncaught error: " + message + "\n")];
      Cleanup();
      FinishIsCleanup(old(State()).(effects := old(effects) + [Log("Worker uncaught error: " + message + "\n")]));
    }

    /** The continuation of an awaited input request. */
    method OnInputSettled(answer: Answer)
      requires awaiting > 0
      modifies this
      ensures State() == AfterInputAnswered(old(State()), answer)
    {
      awaiting := awaiting - 1;
      match answer
      case Answered(text) =>
        if worker.Some? {
          effects := effects + [Post(worker.value, Resume([text]))];
        }
      case Rejected(reason) =>
        effects := effects + [Log("Input Error: " + reason + "\n")];
        if worker.Some? {
          effects := effects + [Post(worker.value, Resume([]))];
        }
    }
  }
}
