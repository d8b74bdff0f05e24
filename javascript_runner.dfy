/** The page side of JavaScript execution (src/runners/javascriptRunner.ts): one worker per
    run, a done promise settled through a one-shot resolver, and input requests answered by
    correlation id. The pure functions below give the state after each event; the class
    performs the same steps field by field. */
module JavaScriptRunner {
  import opened Common
  import opened Messages

  /** A message from the worker as the handler tells them apart. A payload is its `String`
      rendering, or `None` for null and undefined. */
  datatype FromWorker =
    | LogMsg(payload: Option<string>)
    | InputRequest(payload: Option<string>, id: string)
    | DoneMsg
    | ErrorMsg(payload: Option<string>)
    | Unlisted          // no `type`, or a type the switch does not list

  /** The runner's fields, plus what the model needs around them: the correlation ids of input
      requests whose `onInput` is still awaited, the number of workers made so far, and the
      trace of effects. A run is named by its worker's id. */
  datatype RunnerState = RunnerState(
    worker: Option<WorkerRef>,
    pendingDone: Option<nat>,
    doneResolver: Option<nat>,
    echoInput: bool,
    awaiting: seq<string>,
    created: nat,
    effects: seq<Effect>)

  function Initial(echoInput: bool): RunnerState {
    RunnerState(None, None, None, echoInput, [], 0, [])
  }

  /** `String(payload ?? fallback)`. */
  function TextOr(payload: Option<string>, fallback: string): string {
    if payload.Some? then payload.value else fallback
  }

  /** `cleanup()`. */
  function AfterCleanup(s: RunnerState): RunnerState {
    s.(worker := None, doneResolver := None, pendingDone := None,
       effects := s.effects + Stop(s.worker) + Fire(s.doneResolver))
  }

  /** `cleanup(); this.doneResolver?.()`, the ending shared by `done`, `error` and `onerror`. */
  function Finish(s: RunnerState): RunnerState {
    var c := AfterCleanup(s);
    c.(effects := c.effects + Fire(c.doneResolver))
  }

  /** `cancel()`. */
  function AfterCancel(s: RunnerState): RunnerState {
    var stop := if s.worker.Some? then [Post(s.worker.value, CancelRun), Terminate(s.worker.value)] else [];
    s.(worker := None, doneResolver := None, pendingDone := None,
       effects := s.effects + stop + Fire(s.doneResolver))
  }

  /** `execute(code, …)` up to the returned promise: clean up, make a worker, arm a fresh
      resolver, post `run`. */
  function AfterExecute(s: RunnerState, code: string): RunnerState {
    var c := AfterCleanup(s);
    var w := WorkerRef(c.created);
    c.(worker := Some(w), pendingDone := Some(w.id), doneResolver := Some(w.id),
       created := c.created + 1, effects := c.effects + [Spawn(w), Post(w, RunJs(code))])
  }

  /** `worker.onmessage`, up to the `await` of an input request. */
  function AfterMessage(s: RunnerState, msg: FromWorker): RunnerState {
    match msg
    case LogMsg(p) => s.(effects := s.effects + [Log(TextOr(p, ""))])
    case InputRequest(p, id) =>
      s.(effects := s.effects + (if p.Some? then [Log(p.value)] else []) + [AskInput(p)],
         awaiting := s.awaiting + [id])
    case DoneMsg => Finish(s)
    case ErrorMsg(p) => Finish(s.(effects := s.effects + [Log("Error: " + TextOr(p, "unknown") + "\n")]))
    case Unlisted => s
  }

  /** `worker.onerror` with the event's message (`""` when it has none). */
  function AfterWorkerError(s: RunnerState, message: string): RunnerState {
    var text := if message == "" then "unknown" else message;
    Finish(s.(effects := s.effects + [Log("Worker error: " + text + "\n")]))
  }

  /** The response to an input request, as posted after `onInput` settles. */
  function Response(answer: Answer): string {
    if answer.Answered? then answer.text else ""
  }

  /** The rest of the handler once the `i`-th awaited `onInput` settles: echo if asked to, and
      answer whatever worker `this.worker` is now, if any. */
  function AfterInputAnswered(s: RunnerState, i: nat, answer: Answer): RunnerState
    requires i < |s.awaiting|
  {
    var id := s.awaiting[i];
    var echo := if answer.Answered? && s.echoInput then [Log(Response(answer) + "\n")] else [];
    var post := if s.worker.Some? then [Post(s.worker.value, InputResponse(Response(answer), id))] else [];
    s.(awaiting := s.awaiting[..i] + s.awaiting[i + 1..], effects := s.effects + echo + post)
  }

  /** Everything that can happen to a runner. Worker messages and errors arrive only from the
      live worker, since a terminated worker delivers nothing. */
  datatype Event =
    | Execute(code: string)
    | Message(msg: FromWorker)
    | WorkerError(message: string)
    | InputSettled(index: nat, answer: Answer)
    | CancelCall
    | CleanupCall

  predicate Enabled(s: RunnerState, e: Event) {
    match e
    case Message(_) => s.worker.Some?
    case WorkerError(_) => s.worker.Some?
    case InputSettled(i, _) => i < |s.awaiting|
    case _ => true
  }

  function Step(s: RunnerState, e: Event): RunnerState
    requires Enabled(s, e)
  {
    match e
    case Execute(code) => AfterExecute(s, code)
    case Message(msg) => AfterMessage(s, msg)
    case WorkerError(message) => AfterWorkerError(s, message)
    case InputSettled(i, answer) => AfterInputAnswered(s, i, answer)
    case CancelCall => AfterCancel(s)
    case CleanupCall => AfterCleanup(s)
  }

  /** `events` can happen in order starting from `s`. */
  predicate Trace(s: RunnerState, events: seq<Event>)
    decreases |events|
  {
    events == [] || (Enabled(s, events[0]) && Trace(Step(s, events[0]), events[1..]))
  }

  function Final(s: RunnerState, events: seq<Event>): RunnerState
    requires Trace(s, events)
    decreases |events|
  {
    if events == [] then s else Final(Step(s, events[0]), events[1..])
  }

  /** The runner's invariant: the resolver is one-shot, the pending promise is the one the
      resolver settles, and a worker exists exactly while its run's resolver is live. */
  predicate Inv(s: RunnerState) {
    && OneShot(s.effects, s.doneResolver, s.created)
    && s.pendingDone == s.doneResolver
    && (s.worker.Some? ==> s.doneResolver == Some(s.worker.value.id))
    && (s.worker.None? ==> s.doneResolver.None?)
  }

  lemma CleanupKeepsInv(s: RunnerState)
    requires OneShot(s.effects, s.doneResolver, s.created)
    ensures Inv(AfterCleanup(s))
  {
    OneShotQuiet(s.effects, Stop(s.worker), s.doneResolver, s.created);
    OneShotFire(s.effects + Stop(s.worker), s.doneResolver, s.created);
  }

  /** Every event keeps the invariant. */
  lemma StepKeepsInv(s: RunnerState, e: Event)
    requires Inv(s) && Enabled(s, e)
    ensures Inv(Step(s, e))
  {
    match e
    case Execute(code) => ExecuteKeepsInv(s, code);
    case Message(msg) => MessageKeepsInv(s, msg);
    case WorkerError(message) => WorkerErrorKeepsInv(s, message);
    case InputSettled(i, answer) =>
      var t := AfterInputAnswered(s, i, answer);
      assert t.effects == s.effects + t.effects[|s.effects|..];
      OneShotQuiet(s.effects, t.effects[|s.effects|..], s.doneResolver, s.created);
    case CancelCall => CancelKeepsInv(s);
    case CleanupCall => CleanupKeepsInv(s);
  }

  lemma ExecuteKeepsInv(s: RunnerState, code: string)
    requires Inv(s)
    ensures Inv(AfterExecute(s, code))
  {
    CleanupKeepsInv(s);
    var c := AfterCleanup(s);
    OneShotFresh(c.effects, c.created);
    var w := WorkerRef(c.created);
    OneShotQuiet(c.effects, [Spawn(w), Post(w, RunJs(code))], Some(c.created), c.created + 1);
  }

  lemma MessageKeepsInv(s: RunnerState, msg: FromWorker)
    requires Inv(s) && s.worker.Some?
    ensures Inv(AfterMessage(s, msg))
  {
    match msg {
      case LogMsg(p) =>
        QuietKeepsInv(s, AfterMessage(s, msg), [Log(TextOr(p, ""))]);
      case InputRequest(p, id) =>
        var more := (if p.Some? then [Log(p.value)] else []) + [AskInput(p)];
        assert AfterMessage(s, msg).effects == s.effects + more;
        QuietKeepsInv(s, AfterMessage(s, msg), more);
      case DoneMsg =>
        FinishKeepsInv(s);
      case ErrorMsg(p) =>
        var line := [Log("Error: " + TextOr(p, "unknown") + "\n")];
        OneShotQuiet(s.effects, line, s.doneResolver, s.created);
        FinishKeepsInv(s.(effects := s.effects + line));
      case Unlisted =>
    }
  }

  /** Effects that resolve nothing, with the worker and resolver untouched, keep the invariant. */
  lemma QuietKeepsInv(s: RunnerState, t: RunnerState, more: seq<Effect>)
    requires Inv(s) && Quiet(more) && t.effects == s.effects + more
    requires t.worker == s.worker && t.pendingDone == s.pendingDone
    requires t.doneResolver == s.doneResolver && t.created == s.created
    ensures Inv(t)
  {
    OneShotQuiet(s.effects, more, s.doneResolver, s.created);
  }

  lemma FinishKeepsInv(s: RunnerState)
    requires OneShot(s.effects, s.doneResolver, s.created)
    ensures Inv(Finish(s))
  {
    FinishIsCleanup(s);
    CleanupKeepsInv(s);
  }

  lemma WorkerErrorKeepsInv(s: RunnerState, message: string)
    requires Inv(s) && s.worker.Some?
    ensures Inv(AfterWorkerError(s, message))
  {
    var line := [Log("Worker error: " + (if message == "" then "unknown" else message) + "\n")];
    OneShotQuiet(s.effects, line, s.doneResolver, s.created);
    FinishKeepsInv(s.(effects := s.effects + line));
  }

  lemma CancelKeepsInv(s: RunnerState)
    requires Inv(s)
    ensures Inv(AfterCancel(s))
  {
    var stop := if s.worker.Some? then [Post(s.worker.value, CancelRun), Terminate(s.worker.value)] else [];
    OneShotQuiet(s.effects, stop, s.doneResolver, s.created);
    OneShotFire(s.effects + stop, s.doneResolver, s.created);
  }

  /** Whatever happens, from any state satisfying the invariant, the invariant still holds. */
  lemma {:induction false} TraceKeepsInv(s: RunnerState, events: seq<Event>)
    requires Inv(s) && Trace(s, events)
    ensures Inv(Final(s, events))
    decreases |events|
  {
    if events != [] {
      StepKeepsInv(s, events[0]);
      TraceKeepsInv(Step(s, events[0]), events[1..]);
    }
  }

  /** Each run's done promise is resolved at most once, whatever sequence of executions,
      messages, errors, input answers, cancels and cleanups occurs. */
  lemma ResolvesAtMostOnce(echoInput: bool, events: seq<Event>)
    requires Trace(Initial(echoInput), events)
    ensures Distinct(Resolved(Final(Initial(echoInput), events).effects))
  {
    TraceKeepsInv(Initial(echoInput), events);
  }

  /** After `cleanup` nothing is live, and a second `cleanup` changes nothing. */
  lemma CleanupIdempotent(s: RunnerState)
    ensures var c := AfterCleanup(s);
      c.worker.None? && c.doneResolver.None? && c.pendingDone.None? && AfterCleanup(c) == c
  {
  }

  /** After `cancel` nothing is live, even if there was no worker, and a second `cancel`
      changes nothing. */
  lemma CancelIdempotent(s: RunnerState)
    ensures var c := AfterCancel(s);
      c.worker.None? && c.doneResolver.None? && c.pendingDone.None? && AfterCancel(c) == c
  {
  }

  /** `execute` first terminates the previous worker and resolves the previous run, then
      makes a worker no earlier run used and posts `run` to it; the new run's resolver is
      live and differs from the one just fired. */
  lemma ExecuteCleansUpFirst(s: RunnerState, code: string)
    requires Inv(s)
    ensures var r := AfterExecute(s, code); var w := WorkerRef(s.created);
      && r.effects == s.effects + Stop(s.worker) + Fire(s.doneResolver) + [Spawn(w), Post(w, RunJs(code))]
      && (s.worker.Some? ==> s.worker.value != w)
      && (s.doneResolver.Some? ==> s.doneResolver.value != w.id)
      && r.worker == Some(w) && r.doneResolver == Some(w.id) && r.pendingDone == Some(w.id)
  {
  }

  /** The `this.doneResolver?.()` after `cleanup()` in the `done`, `error` and `onerror`
      handlers never fires: `cleanup` already called and dropped the resolver. */
  lemma FinishIsCleanup(s: RunnerState)
    ensures Finish(s) == AfterCleanup(s)
  {
    var c := AfterCleanup(s);
    assert c.effects + Fire(c.doneResolver) == c.effects;
  }

  /** An `error` message logs `Error: <payload>` (or `unknown`) and then ends the run exactly
      as `done` does. */
  lemma ErrorEndsLikeDone(s: RunnerState, p: Option<string>)
    ensures AfterMessage(s, ErrorMsg(p))
         == AfterMessage(s.(effects := s.effects + [Log("Error: " + TextOr(p, "unknown") + "\n")]), DoneMsg)
    ensures AfterMessage(s, DoneMsg).worker.None? && AfterMessage(s, DoneMsg).doneResolver.None?
  {
  }

  /** An input request logs a present prompt, then awaits `onInput` with the same prompt, and
      remembers its id; nothing is posted yet. */
  lemma InputRequestAwaits(s: RunnerState, p: Option<string>, id: string)
    ensures var r := AfterMessage(s, InputRequest(p, id));
      && r.awaiting == s.awaiting + [id]
      && (p.Some? ==> r.effects == s.effects + [Log(p.value), AskInput(p)])
      && (p.None? ==> r.effects == s.effects + [AskInput(None)])
  {
  }

  /** When the awaited input settles, its request leaves the pending set and exactly one
      response carrying its id is posted (the user's text, or `''` after a rejection) if a
      worker is live, none otherwise; the text is echoed only when `echoInput` is on. */
  lemma InputAnsweredOnce(s: RunnerState, i: nat, answer: Answer)
    requires i < |s.awaiting|
    ensures var r := AfterInputAnswered(s, i, answer); var id := s.awaiting[i];
      var response := if answer.Answered? then answer.text else "";
      && multiset(r.awaiting) == multiset(s.awaiting) - multiset{id}
      && (s.worker.Some? ==> Last(r.effects) == Post(s.worker.value, InputResponse(response, id)))
      && |r.effects| - |s.effects|
         == (if s.worker.Some? then 1 else 0) + (if answer.Answered? && s.echoInput then 1 else 0)
      && (answer.Answered? && s.echoInput ==> r.effects[|s.effects|] == Log(response + "\n"))
  {
    assert s.awaiting == s.awaiting[..i] + [s.awaiting[i]] + s.awaiting[i + 1..];
  }

  /** The runner of src/runners/javascriptRunner.ts. */
  class JavaScriptRunner {
    var worker: Option<WorkerRef>
    var pendingDone: Option<nat>
    var doneResolver: Option<nat>
    var echoInput: bool
    var awaiting: seq<string>
    var created: nat
    var effects: seq<Effect>

    function State(): RunnerState
      reads this
    {
      RunnerState(worker, pendingDone, doneResolver, echoInput, awaiting, created, effects)
    }

    /** `new JavaScriptRunner({ echoInput })`: echoing is off unless asked for. */
    constructor (echoInput: Option<bool>)
      ensures State() == Initial(echoInput == Some(true))
      ensures Inv(State())
    {
      worker := None;
      pendingDone := None;
      doneResolver := None;
      this.echoInput := if echoInput.Some? then echoInput.value else false;
      awaiting := [];
      created := 0;
      effects := [];
    }

    method Cleanup()
      modifies this
      ensures State() == AfterCleanup(old(State()))
    {
      if worker.Some? {
        effects := effects + [Terminate(worker.value)];
        worker := None;
      }
      if doneResolver.Some? {
        effects := effects + [Resolve(doneResolver.value)];
        doneResolver := None;
      }
      pendingDone := None;
    }

    method Cancel()
      modifies this
      ensures State() == AfterCancel(old(State()))
    {
      if worker.Some? {
        effects := effects + [Post(worker.value, CancelRun), Terminate(worker.value)];
        worker := None;
      }
      if doneResolver.Some? {
        effects := effects + [Resolve(doneResolver.value)];
      }
      doneResolver := None;
      pendingDone := None;
    }

    /** Returns the run whose promise `execute` hands back. */
    method Execute(code: string) returns (run: nat)
      modifies this
      ensures State() == AfterExecute(old(State()), code)
      ensures pendingDone == Some(run) && worker == Some(WorkerRef(run))
    {
      Cleanup();
      var w := WorkerRef(created);
      created := created + 1;
      effects := effects + [Spawn(w)];
      worker := Some(w);
      pendingDone := Some(w.id);
      doneResolver := Some(w.id);
      effects := effects + [Post(w, RunJs(code))];
      run := w.id;
    }

    method EndRun()
      modifies this
      ensures State() == Finish(old(State()))
    {
      Cleanup();
      // The `doneResolver?.()` that follows finds the slot already emptied by `cleanup`.
    }

    method OnMessage(msg: FromWorker)
      requires worker.Some?
      modifies this
      ensures State() == AfterMessage(old(State()), msg)
    {
      match msg
      case LogMsg(p) =>
        effects := effects + [Log(TextOr(p, ""))];
      case InputRequest(p, id) =>
        if p.Some? {
          effects := effects + [Log(p.value)];
        }
        effects := effects + [AskInput(p)];
        awaiting := awaiting + [id];
      case DoneMsg =>
        EndRun();
      case ErrorMsg(p) =>
        effects := effects + [Log("Error: " + TextOr(p, "unknown") + "\n")];
        EndRun();
      case Unlisted =>
    }

    method OnWorkerError(message: string)
      requires worker.Some?
      modifies this
      ensures State() == AfterWorkerError(old(State()), message)
    {
      effects := effects + [Log("Worker error: " + (if message == "" then "unknown" else message) + "\n")];
      EndRun();
    }

    /** The continuation of the `i`-th awaited input request. */
    method OnInputSettled(i: nat, answer: Answer)
      requires i < |awaiting|
      modifies this
      ensures State() == AfterInputAnswered(old(State()), i, answer)
    {
      var id := awaiting[i];
      awaiting := awaiting[..i] + awaiting[i + 1..];
      var response := if answer.Answered? then answer.text else "";
      if answer.Answered? && echoInput {
        effects := effects + [Log(response + "\n")];
      }
      if worker.Some? {
        effects := effects + [Post(worker.value, InputResponse(response, id))];
      }
    }
  }
}
