/** The JavaScript worker (src/runners/workers/js-worker.ts). User code is an oracle: its
    `console.log` and `input` calls, and how its two possible executions end, are events. The
    worker keeps an abort flag, one message listener per outstanding `input`, and posts the
    messages the page-side runner handles. */
module JsWorker {
  import opened Common
  import opened Messages
  import JavaScriptRunner

  type Out = JavaScriptRunner.FromWorker

  /** An argument of `console.log`, as far as its rendering depends on it: `Other` carries what
      `JSON.stringify` does with the value and the value's `String` text. */
  datatype JsValue = Null | Undefined | Str(s: string) | Other(json: JsonResult, text: string)

  /** The text of one argument. An `undefined` from `JSON.stringify` becomes the empty string
      in the `join`; a throw falls back to `String`. */
  function Render(a: JsValue): string {
    match a
    case Null => "null/undefined"
    case Undefined => "null/undefined"
    case Str(s) => s
    case Other(Stringified(t), _) => t
    case Other(Unrepresentable, _) => ""
    case Other(Throws, text) => text
  }

  function Rendered(args: seq<JsValue>): (r: seq<string>)
    ensures |r| == |args|
  {
    seq(|args|, i requires 0 <= i < |args| => Render(args[i]))
  }

  /** The line `console.log(...args)` sends. */
  function LogLine(args: seq<JsValue>): string {
    JoinWith(" ", Rendered(args)) + "\n"
  }

  /** A logged line ends in a line feed, holds the rendered arguments with one space between
      neighbours, and starts with the first argument's text followed by a space and the line
      of the rest. */
  lemma LogLineShape(args: seq<JsValue>)
    ensures |LogLine(args)| > 0 && LogLine(args)[|LogLine(args)| - 1] == '\n'
    ensures |args| > 0 ==> |LogLine(args)| == TotalLength(Rendered(args)) + |args|
    ensures |args| >= 2 ==> LogLine(args) == Render(args[0]) + " " + LogLine(args[1..])
    ensures |args| == 1 ==> LogLine(args) == Render(args[0]) + "\n"
    ensures args == [] ==> LogLine(args) == "\n"
  {
    if |args| > 0 {
      JoinWithLength(" ", Rendered(args));
    }
    if |args| >= 2 {
      assert Rendered(args)[1..] == Rendered(args[1..]);
    }
  }

  /** `null` and `undefined` print as `null/undefined`, strings verbatim. */
  lemma RenderCases(s: string)
    ensures LogLine([Null]) == "null/undefined\n" && LogLine([Undefined]) == "null/undefined\n"
    ensures LogLine([Str(s)]) == s + "\n"
  {
    LogLineShape([Null]);
    LogLineShape([Undefined]);
    LogLineShape([Str(s)]);
  }

  /** The listeners left after one response with `id`: every listener waiting for `id`
      removes itself. */
  function Remove(listeners: seq<string>, id: string): (r: seq<string>)
    ensures |r| <= |listeners|
    ensures forall k :: 0 <= k < |r| ==> r[k] != id && r[k] in listeners
  {
    if listeners == [] then []
    else (if listeners[0] == id then [] else [listeners[0]]) + Remove(listeners[1..], id)
  }

  /** With distinct ids, a response whose id is awaited removes exactly that one listener; a
      response with any other id, including a repeat of one already answered, changes nothing. */
  lemma {:induction false} RemoveOnce(listeners: seq<string>, id: string)
    requires Distinct(listeners)
    ensures id in listeners ==> |Remove(listeners, id)| == |listeners| - 1
    ensures id !in listeners ==> Remove(listeners, id) == listeners
    ensures Distinct(Remove(listeners, id))
    ensures forall x :: x in listeners && x != id ==> x in Remove(listeners, id)
  {
    if listeners != [] {
      assert Distinct(listeners[1..]);
      RemoveOnce(listeners[1..], id);
      if listeners[0] == id {
        assert id !in listeners[1..];
      }
      var r := Remove(listeners, id);
      var tail := Remove(listeners[1..], id);
      if listeners[0] != id {
        assert r == [listeners[0]] + tail;
        assert listeners[0] !in tail;
      }
    }
  }

  /** A message the page posts, as the worker reads it; payloads are `None` when missing. */
  datatype Incoming =
    | Run(payload: Option<string>)
    | Cancel
    | Response(payload: Option<string>, id: string)
    | Ignored            // any other type

  /** The page's messages to this worker (the others go to the Lua and Python workers). */
  function FromPage(m: ToWorker): Incoming {
    match m
    case RunJs(code) => Run(Some(code))
    case CancelRun => Cancel
    case InputResponse(payload, id) => Response(Some(payload), id)
    case _ => Ignored
  }

  /** Where the run is: not started, executing the code, re-executing it inside a
      try/catch after it threw, or over. */
  datatype Phase = Idle | Running | Recovering | Ended

  /** How the re-execution ends: normally, after its own catch logged an error, or by throwing
      (the wrapped code does not compile). */
  datatype Recovery = Completed | Caught(message: string) | Failed(error: string)

  /** Posted messages that end a run. */
  function Endings(posted: seq<Out>): nat {
    if posted == [] then 0
    else
      var m := posted[|posted| - 1];
      Endings(posted[..|posted| - 1]) + (if m.DoneMsg? || m.ErrorMsg? then 1 else 0)
  }

  lemma EndingsSnoc(posted: seq<Out>, m: Out)
    ensures Endings(posted + [m]) == Endings(posted) + (if m.DoneMsg? || m.ErrorMsg? then 1 else 0)
  {
    assert (posted + [m])[..|posted|] == posted;
  }

  /** The worker's globals and the state of its one run. */
  class JsWorker {
    var abortFlag: bool
    var listeners: seq<string>
    ghost var issued: set<string>
    var code: string
    var phase: Phase
    var posted: seq<Out>

    /** Listener ids are distinct ids handed out by `input`, and a run has posted no ending
      until it is over, and at most one then. */
    ghost predicate Valid()
      reads this
    {
      && Distinct(listeners)
      && (forall k :: 0 <= k < |listeners| ==> listeners[k] in issued)
      && Endings(posted) <= (if phase == Ended then 1 else 0)
    }

    constructor ()
      ensures Valid()
      ensures !abortFlag && listeners == [] && phase == Idle && posted == []
    {
      abortFlag := false;
      listeners := [];
      issued := {};
      code := "";
      phase := Idle;
      posted := [];
    }

    /** A message from the page. `cancel` only raises the abort flag; `run` lowers it and
      starts the code; a response wakes the `input` waiting for its id and nothing else;
      every other message is ignored. Returns the values handed to waiting `input` calls. The
      page posts `run` once per worker. */
    method OnMessage(msg: Incoming) returns (woken: seq<string>)
      requires Valid()
      requires msg.Run? ==> phase == Idle
      modifies this
      ensures Valid()
      ensures posted == old(posted)
      ensures msg.Cancel? ==> abortFlag && listeners == old(listeners) && phase == old(phase) && woken == []
      ensures msg.Run? ==>
        && !abortFlag && phase == Running && code == (if msg.payload.Some? then msg.payload.value else "")
        && listeners == old(listeners) && woken == []
      ensures msg.Response? ==>
        && listeners == Remove(old(listeners), msg.id)
        && woken == (if msg.id in old(listeners) then [if msg.payload.Some? then msg.payload.value else ""] else [])
        && abortFlag == old(abortFlag) && phase == old(phase)
      ensures msg.Ignored? ==> listeners == old(listeners) && abortFlag == old(abortFlag) && phase == old(phase) && woken == []
    {
      woken := [];
      match msg
      case Cancel =>
        abortFlag := true;
      case Run(payload) =>
        code := if payload.Some? then payload.value else "";
        abortFlag := false;
        phase := Running;
      case Response(payload, id) =>
        RemoveOnce(listeners, id);
        if id in listeners {
          woken := [if payload.Some? then payload.value else ""];
        }
        listeners := Remove(listeners, id);
        forall k | 0 <= k < |listeners|
          ensures listeners[k] in issued
        {
        }
      case Ignored =>
    }

    /** `console.log(...args)` from the running code. */
    method ConsoleLog(args: seq<JsValue>)
      requires Valid() && phase != Idle
      modifies this
      ensures Valid()
      ensures posted == old(posted) + [JavaScriptRunner.LogMsg(Some(LogLine(args)))]
      ensures abortFlag == old(abortFlag) && listeners == old(listeners) && phase == old(phase)
    {
      EndingsSnoc(posted, JavaScriptRunner.LogMsg(Some(LogLine(args))));
      posted := posted + [JavaScriptRunner.LogMsg(Some(LogLine(args)))];
    }

    /** `input(prompt)` from the running code, with `id` the fresh random id it would draw.
      After a cancel it settles at once with `''` and sends nothing; otherwise it registers a
      listener for `id` and sends one request carrying the prompt (or null). */
    method Input(prompt: Option<string>, id: string) returns (immediate: Option<string>)
      requires Valid() && phase != Idle
      requires id !in issued
      modifies this
      ensures Valid()
      ensures abortFlag ==> immediate == Some("") && posted == old(posted) && listeners == old(listeners)
      ensures !abortFlag ==>
        && immediate.None? && listeners == old(listeners) + [id]
        && posted == old(posted) + [JavaScriptRunner.InputRequest(prompt, id)]
      ensures abortFlag == old(abortFlag) && phase == old(phase)
    {
      if abortFlag {
        return Some("");
      }
      issued := issued + {id};
      listeners := listeners + [id];
      EndingsSnoc(posted, JavaScriptRunner.InputRequest(prompt, id));
      posted := posted + [JavaScriptRunner.InputRequest(prompt, id)];
      immediate := None;
    }

    /** The first execution settles. Success sends `done` unless aborted; a throw starts the
      re-execution. */
    method RunSettled(threw: bool)
      requires Valid() && phase == Running
      modifies this
      ensures Valid()
      ensures !threw ==> phase == Ended && posted == old(posted) + (if abortFlag then [] else [JavaScriptRunner.DoneMsg])
      ensures threw ==> phase == Recovering && posted == old(posted)
      ensures abortFlag == old(abortFlag) && listeners == old(listeners)
    {
      if !threw {
        if !abortFlag {
          EndingsSnoc(posted, JavaScriptRunner.DoneMsg);
          posted := posted + [JavaScriptRunner.DoneMsg];
        }
        phase := Ended;
      } else {
        phase := Recovering;
      }
    }

    /** The re-execution settles. An error its catch absorbed is logged as `Runtime error: …`;
      then `done` follows unless aborted. If it throws, `error` is sent instead of `done`. */
    method RecoverySettled(outcome: Recovery)
      requires Valid() && phase == Recovering
      modifies this
      ensures Valid()
      ensures phase == Ended && abortFlag == old(abortFlag) && listeners == old(listeners)
      ensures var done := if abortFlag then [] else [JavaScriptRunner.DoneMsg];
        match outcome
        case Completed => posted == old(posted) + done
        case Caught(m) => posted == old(posted) + [JavaScriptRunner.LogMsg(Some(LogLine([Str("Runtime error: " + m)])))] + done
        case Failed(e) => posted == old(posted) + [JavaScriptRunner.ErrorMsg(Some(e))]
    {
      match outcome {
        case Completed =>
        case Caught(m) =>
          ConsoleLog([Str("Runtime error: " + m)]);
        case Failed(e) =>
          EndingsSnoc(posted, JavaScriptRunner.ErrorMsg(Some(e)));
          posted := posted + [JavaScriptRunner.ErrorMsg(Some(e))];
      }
      if !outcome.Failed? && !abortFlag {
        EndingsSnoc(posted, JavaScriptRunner.DoneMsg);
        posted := posted + [JavaScriptRunner.DoneMsg];
      }
      phase := Ended;
    }
  }
}
