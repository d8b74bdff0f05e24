/** The dispatcher of src/lib/evalCode.ts: one runner per language, created once, and the
    runner of the current run. `safeEval` is split at its one `await`: the start (lookup, cancel
    of the previous runner, `execute`) and the settling of `execute`'s promise. Which of the
    runner's resolutions settles that promise is left to the caller of `Settle`. */
module EvalCode {
  import opened Common
  import opened Messages
  import Languages
  import JS = JavaScriptRunner
  import Lua = LuaRunner
  import Py = PythonRunner

  /** The three entries of the `runners` table. */
  datatype RunnerKind = JsKind | LuaKind | PyKind

  /** `runners[languageId]`: an own key of the table, or nothing. */
  function RunnerFor(languageId: string): (r: Option<RunnerKind>)
    ensures r == Some(JsKind) <==> languageId == "javascript"
    ensures r == Some(LuaKind) <==> languageId == "lua"
    ensures r == Some(PyKind) <==> languageId == "python"
  {
    if languageId == "javascript" then Some(JsKind)
    else if languageId == "lua" then Some(LuaKind)
    else if languageId == "python" then Some(PyKind)
    else None
  }

  /** The runners table and the language table have the same keys: every language the page
      offers has a runner, and every runner belongs to a language the page offers. */
  lemma RunnersMatchLanguages(languageId: string)
    ensures RunnerFor(languageId).Some? <==> Languages.IsKnownId(languageId)
  {
    if RunnerFor(languageId).Some? {
      var k := if languageId == "javascript" then 0 else if languageId == "python" then 1 else 2;
      assert Languages.LANGUAGES[k].id == languageId;
    }
  }

  /** How the awaited `execute` promise settles: fulfilled, or rejected with an error that
      is or is not an `AbortError`, its `message` and its string form. */
  datatype Outcome = Fulfilled | Threw(isAbort: bool, message: string, text: string)

  /** The module's state: the current runner, the lines `safeEval` itself logs, and the three
      runners. */
  datatype DState = DState(
    current: Option<RunnerKind>,
    logs: seq<string>,
    js: JS.RunnerState,
    lua: Lua.RunnerState,
    py: Py.RunnerState)

  const Initial := DState(None, [], JS.Initial(false), Lua.Initial, Py.Initial)

  /** The runners' own invariants and a well-formed shared region. */
  predicate Inv(d: DState) {
    JS.Inv(d.js) && Lua.Inv(d.lua) && Py.RegionOk(d.py)
  }

  function CancelRunner(d: DState, k: RunnerKind): DState {
    match k
    case JsKind => d.(js := JS.AfterCancel(d.js))
    case LuaKind => d.(lua := Lua.AfterCancel(d.lua))
    case PyKind => d.(py := Py.AfterCancel(d.py))
  }

  function ExecuteRunner(d: DState, k: RunnerKind, code: string): DState {
    match k
    case JsKind => d.(js := JS.AfterExecute(d.js, code))
    case LuaKind => d.(lua := Lua.AfterExecute(d.lua, code))
    case PyKind => d.(py := Py.AfterExecute(d.py, code))
  }

  /** `safeEval` up to its `await`: an unknown language is logged and nothing else happens;
      otherwise the current runner, if any, is cancelled, the new one becomes current and its
      `execute` starts. */
  function AfterSafeEvalStart(d: DState, languageId: string, code: string): DState {
    match RunnerFor(languageId)
    case None => d.(logs := d.logs + ["Unsupported language: " + languageId + "\n"])
    case Some(k) =>
      var c := if d.current.Some? then CancelRunner(d, d.current.value) else d;
      ExecuteRunner(c.(current := Some(k)), k, code)
  }

  /** `err.message || err`. */
  function ErrorText(o: Outcome): string
    requires o.Threw?
  {
    if o.message != "" then o.message else o.text
  }

  /** `safeEval` after its `await`: a rejection is logged unless it is an `AbortError` while a
      runner is current; `finally` then clears the current runner, whoever it is by now. */
  function AfterSettle(d: DState, o: Outcome): DState {
    var logged := o.Threw? && !(d.current.Some? && o.isAbort);
    d.(logs := d.logs + (if logged then ["Runner error: " + ErrorText(o) + "\n"] else []),
       current := None)
  }

  /** `cancelExecution`. */
  function AfterCancelExecution(d: DState): DState {
    (if d.current.Some? then CancelRunner(d, d.current.value) else d).(current := None)
  }

  /** `cleanupAllRunners`: `cancelExecution`, then every runner's `cleanup` in table order. */
  function AfterCleanupAll(d: DState): DState {
    var c := AfterCancelExecution(d);
    c.(js := JS.AfterCleanup(c.js), lua := Lua.AfterCleanup(c.lua), py := Py.AfterCleanup(c.py))
  }

  /** Cancelling a runner keeps every invariant. */
  lemma CancelKeepsInv(d: DState, k: RunnerKind)
    requires Inv(d)
    ensures Inv(CancelRunner(d, k))
  {
    match k
    case JsKind => JS.StepKeepsInv(d.js, JS.CancelCall);
    case LuaKind => Lua.StepKeepsInv(d.lua, Lua.CancelCall);
    case PyKind =>
  }

  /** Every operation of the module keeps the runners' invariants, so each runner's promise
      is resolved at most once whatever the page does. */
  lemma OperationsKeepInv(d: DState, languageId: string, code: string, o: Outcome)
    requires Inv(d)
    ensures Inv(AfterSafeEvalStart(d, languageId, code))
    ensures Inv(AfterSettle(d, o))
    ensures Inv(AfterCancelExecution(d))
    ensures Inv(AfterCleanupAll(d))
  {
    var c := if d.current.Some? then CancelRunner(d, d.current.value) else d;
    if d.current.Some? {
      CancelKeepsInv(d, d.current.value);
    }
    assert Inv(c);
    JS.StepKeepsInv(c.js, JS.CleanupCall);
    Lua.StepKeepsInv(c.lua, Lua.CleanupCall);
    match RunnerFor(languageId) {
      case None =>
      case Some(JsKind) => JS.StepKeepsInv(c.js, JS.Execute(code));
      case Some(LuaKind) => Lua.StepKeepsInv(c.lua, Lua.Execute(code));
      case Some(PyKind) =>
    }
  }

  /** An unknown language only logs `Unsupported language: <id>`: no runner is touched and the
      current runner stays current. */
  lemma UnsupportedOnlyLogs(d: DState, languageId: string, code: string)
    requires !Languages.IsKnownId(languageId)
    ensures var r := AfterSafeEvalStart(d, languageId, code);
      && r.logs == d.logs + ["Unsupported language: " + languageId + "\n"]
      && r.current == d.current && r.js == d.js && r.lua == d.lua && r.py == d.py
  {
    RunnersMatchLanguages(languageId);
  }

  /** Starting a run on a known language makes its runner current and leaves the dispatcher's
      own log alone; the previously current runner is cancelled first (and only it), then the
      new runner executes, so a run of another language is stopped before the new one starts.
      A runner that is neither is untouched. */
  lemma SafeEvalCancelsPrevious(d: DState, languageId: string, code: string)
    requires Languages.IsKnownId(languageId)
    ensures var r := AfterSafeEvalStart(d, languageId, code); var k := RunnerFor(languageId).value;
      && r.current == Some(k) && r.logs == d.logs
      && r.js == (if k == JsKind then JS.AfterExecute(if d.current == Some(JsKind) then JS.AfterCancel(d.js) else d.js, code)
                  else if d.current == Some(JsKind) then JS.AfterCancel(d.js) else d.js)
      && r.lua == (if k == LuaKind then Lua.AfterExecute(if d.current == Some(LuaKind) then Lua.AfterCancel(d.lua) else d.lua, code)
                   else if d.current == Some(LuaKind) then Lua.AfterCancel(d.lua) else d.lua)
      && r.py == (if k == PyKind then Py.AfterExecute(if d.current == Some(PyKind) then Py.AfterCancel(d.py) else d.py, code)
                  else if d.current == Some(PyKind) then Py.AfterCancel(d.py) else d.py)
  {
    RunnersMatchLanguages(languageId);
  }

  /** However `execute` settles, no runner is current afterwards and no runner is touched;
      a fulfilment logs nothing, an `AbortError` while a runner is current logs nothing, and
      any other rejection logs exactly `Runner error: <message or string form>`. */
  lemma SettleClearsCurrent(d: DState, o: Outcome)
    ensures var r := AfterSettle(d, o);
      && r.current.None? && r.js == d.js && r.lua == d.lua && r.py == d.py
      && (o.Fulfilled? || (o.isAbort && d.current.Some?) <==> r.logs == d.logs)
      && (o.Threw? && !(o.isAbort && d.current.Some?) ==>
            r.logs == d.logs + ["Runner error: " + ErrorText(o) + "\n"])
  {
  }

  /** The `finally` of an earlier `safeEval` that settles after a later one started clears
      the current runner even though the later run goes on: a JavaScript run followed by a Lua
      run, then the JavaScript promise settling, leaves the Lua worker alive with no runner
      current, and `cancelExecution` then no longer reaches it. */
  lemma StaleSettleForgetsLaterRun(d: DState, js: string, lua: string)
    requires Inv(d)
    ensures var d1 := AfterSafeEvalStart(d, "javascript", js);
      var d2 := AfterSafeEvalStart(d1, "lua", lua);
      var d3 := AfterSettle(d2, Fulfilled);
      && d2.current == Some(LuaKind)
      && d3.current.None? && d3.lua.worker.Some?
      && AfterCancelExecution(d3) == d3
  {
  }

  /** `cancelExecution` cancels the current runner once and forgets it; a second call
      changes nothing. */
  lemma CancelExecutionIdempotent(d: DState)
    requires Inv(d)
    ensures var c := AfterCancelExecution(d);
      && c.current.None? && c.logs == d.logs
      && AfterCancelExecution(c) == c
      && (d.current.None? ==> c == d.(current := None))
  {
  }

  /** After `cleanupAllRunners` no worker is alive, no resolver is live, no runner is current,
      the stdin flag word is 0, and a second call changes nothing. */
  lemma CleanupAllQuiesces(d: DState)
    ensures var c := AfterCleanupAll(d);
      && c.current.None? && c.logs == d.logs
      && c.js.worker.None? && c.js.doneResolver.None?
      && c.lua.worker.None? && c.lua.doneResolver.None?
      && c.py.worker.None? && c.py.flag == 0
      && AfterCleanupAll(c) == c
  {
    var e := AfterCancelExecution(d);
    JS.CleanupIdempotent(e.js);
    Lua.CleanupIdempotent(e.lua);
    Py.CleanupIdempotent(e.py);
  }

  /** The module's three runners and the current-runner variable. */
  class Dispatcher {
    var current: Option<RunnerKind>
    var logs: seq<string>
    const js: JS.JavaScriptRunner
    const lua: Lua.LuaRunner
    const py: Py.PythonRunner

    predicate Valid()
      reads this, py, py.region
    {
      py.Valid()
    }

    function State(): DState
      reads this, js, lua, py, py.region, py.region.data
    {
      DState(current, logs, js.State(), lua.State(), py.State())
    }

    /** The `runners` table: `new JavaScriptRunner()`, `new LuaRunner()`, `new PythonRunner()`. */
    constructor ()
      ensures Valid() && State() == Initial
      ensures fresh(js) && fresh(lua) && fresh(py) && fresh(py.region) && fresh(py.region.data)
    {
      current := None;
      logs := [];
      js := new JS.JavaScriptRunner(None);
      lua := new Lua.LuaRunner();
      py := new Py.PythonRunner();
    }

    method CancelCurrent()
      modifies this, js, lua, py
      ensures State() == AfterCancelExecution(old(State()))
      ensures unchanged(py.region) && unchanged(py.region.data)
    {
      if current.Some? {
        match current.value {
          case JsKind => js.Cancel();
          case LuaKind => lua.Cancel();
          case PyKind => py.Cancel();
        }
      }
      current := None;
    }

    /** `safeEval` up to its `await`; returns the run whose promise is awaited. */
    method SafeEvalStart(languageId: string, code: string) returns (run: Option<nat>)
      requires Valid()
      modifies this, js, lua, py, py.region
      ensures Valid()
      ensures State() == AfterSafeEvalStart(old(State()), languageId, code)
      ensures run.Some? <==> RunnerFor(languageId).Some?
    {
      var k := RunnerFor(languageId);
      if k.None? {
        logs := logs + ["Unsupported language: " + languageId + "\n"];
        return None;
      }
      CancelCurrent();
      current := k;
      var id: nat;
      match k.value {
        case JsKind => id := js.Execute(code);
        case LuaKind => id := lua.Execute(code);
        case PyKind => id := py.Execute(code);
      }
      run := Some(id);
    }

    /** The rest of `safeEval` once `execute`'s promise settles. */
    method Settle(o: Outcome)
      modifies this
      ensures State() == AfterSettle(old(State()), o)
    {
      if o.Threw? && !(current.Some? && o.isAbort) {
        logs := logs + ["Runner error: " + ErrorText(o) + "\n"];
      }
      current := None;
    }

    method CancelExecution()
      modifies this, js, lua, py
      ensures State() == AfterCancelExecution(old(State()))
    {
      CancelCurrent();
    }

    method CleanupAllRunners()
      requires Valid()
      modifies this, js, lua, py, py.region
      ensures Valid()
      ensures State() == AfterCleanupAll(old(State()))
    {
      CancelCurrent();
      js.Cleanup();
      lua.Cleanup();
      py.Cleanup();
    }
  }
}
