/** The Lua worker (src/runners/workers/lua-worker.ts). The interpreter is an oracle: loading
    the chunk, the calls of `print` and `io.write`, the count hook, yields from `io.read` and
    the final status of each resume are events. The worker keeps the abort flag and a
    one-slot resume resolver, and posts the messages the page-side runner handles. */
module LuaWorker {
  import opened Common
  import opened Messages
  import LuaRunner

  type Out = LuaRunner.FromWorker

  /** A value on the Lua stack as `stackValueToString` sees it after `tojs`: nil, an object
      (with what `JSON.stringify` does with it and its `String` text), any other value (its
      `String` text), or a value `tojs` cannot convert (with the non-null result of
      `lua_tojsstring`, if that function exists and returns one). */
  datatype StackValue =
    | Nil
    | Object(json: JsonResult, text: string)
    | Plain(text: string)
    | Unconvertible(fallback: Option<string>)

  /** `stackValueToString`. An `undefined` from `JSON.stringify` is returned as is and shows
      as the empty string once joined. */
  function StackValueToString(v: StackValue): string {
    match v
    case Nil => "nil"
    case Object(Stringified(t), _) => t
    case Object(Unrepresentable, _) => ""
    case Object(Throws, text) => text
    case Plain(text) => text
    case Unconvertible(fallback) => if fallback.Some? then fallback.value else "<unprintable>"
  }

  function Texts(vs: seq<StackValue>): (r: seq<string>)
    ensures |r| == |vs|
  {
    seq(|vs|, i requires 0 <= i < |vs| => StackValueToString(vs[i]))
  }

  /** The text the `print` override sends. */
  function PrintLine(vs: seq<StackValue>): string {
    JoinWith("\t", Texts(vs)) + "\n"
  }

  /** The text the `io.write` override sends. */
  function WriteText(vs: seq<StackValue>): string {
    JoinWith("", Texts(vs))
  }

  /** `print` puts one tab between neighbouring values and ends the line; `io.write` puts the
      values side by side and adds nothing. */
  lemma PrintAndWrite(vs: seq<StackValue>)
    ensures PrintLine(vs)[|PrintLine(vs)| - 1] == '\n'
    ensures |vs| > 0 ==> |PrintLine(vs)| == TotalLength(Texts(vs)) + |vs|
    ensures |vs| >= 2 ==> PrintLine(vs) == StackValueToString(vs[0]) + "\t" + PrintLine(vs[1..])
    ensures |vs| > 0 ==> |WriteText(vs)| == TotalLength(Texts(vs))
    ensures |vs| >= 2 ==> WriteText(vs) == StackValueToString(vs[0]) + WriteText(vs[1..])
    ensures vs == [] ==> PrintLine(vs) == "\n" && WriteText(vs) == ""
  {
    if |vs| > 0 {
      JoinWithLength("\t", Texts(vs));
      JoinWithLength("", Texts(vs));
    }
    if |vs| >= 2 {
      assert Texts(vs)[1..] == Texts(vs[1..]);
    }
  }

  /** Nil prints as `nil`, a value nothing can convert as `<unprintable>`. */
  lemma NilAndUnprintable()
    ensures PrintLine([Nil]) == "nil\n"
    ensures PrintLine([Unconvertible(None)]) == "<unprintable>\n"
  {
    PrintAndWrite([Nil]);
    PrintAndWrite([Unconvertible(None)]);
  }

  /** A message the page posts, as the worker reads it. `Resume` carries `payload.args`,
      `None` when missing. */
  datatype Incoming =
    | Run(code: string)
    | ResumeWith(args: Option<seq<string>>)
    | Cancel
    | Terminate
    | Ignored              // no type, or a type the switch does not list

  /** The page's messages to this worker (the others go to the other workers). */
  function FromPage(m: ToWorker): Incoming {
    match m
    case RunLua(code) => Run(code)
    case Resume(args) => ResumeWith(Some(args))
    case CancelRun => Cancel
    case _ => Ignored
  }

  /** How `runCode` gets going: setup throws (the promise's `.catch` reports it), the chunk
      does not load (with the error value on the stack), or the coroutine starts. */
  datatype Start = SetupThrew(error: string) | LoadFailed(message: StackValue) | Loaded

  /** How the resume loop ends: status OK, another status (with the error value on the
      thread's stack), or an exception out of the interpreter. */
  datatype Status = Ok | ErrStatus(value: StackValue) | Threw(message: string)

  /** Where `runCode` is: not running, inside a synchronous `lua_resume`, or awaiting the
      resume resolver after a yield. */
  datatype Phase = Idle | Resuming | Yielded

  /** `done` messages in a trace. */
  function DoneCount(posted: seq<Out>): nat {
    if posted == [] then 0
    else DoneCount(posted[..|posted| - 1]) + (if posted[|posted| - 1].DoneMsg? then 1 else 0)
  }

  lemma DoneCountAppend(posted: seq<Out>, more: seq<Out>)
    ensures DoneCount(posted + more) == DoneCount(posted) + DoneCount(more)
    decreases |more|
  {
    if more != [] {
      var m' := more[..|more| - 1];
      assert (posted + more)[..|posted + more| - 1] == posted + m';
      DoneCountAppend(posted, m');
    } else {
      assert posted + more == posted;
    }
  }

  lemma DoneCountSmall(a: Out, b: Out)
    ensures DoneCount([a]) == (if a.DoneMsg? then 1 else 0)
    ensures DoneCount([a, b]) == DoneCount([a]) + (if b.DoneMsg? then 1 else 0)
  {
    assert [a, b][..1] == [a];
    assert [a][..0] == [];
  }

  /** The worker's globals. `runs` counts the `run` messages handled. */
  class LuaWorker {
    var abortFlag: bool
    var resumePending: bool
    var phase: Phase
    var closed: bool
    var posted: seq<Out>
    ghost var runs: nat

    /** A yield is outstanding exactly while the resolver slot is full, and every run that
      is not in progress has sent `done` exactly once. */
    ghost predicate Valid()
      reads this
    {
      && (resumePending <==> phase == Yielded)
      && DoneCount(posted) + (if phase == Idle then 0 else 1) == runs
    }

    constructor ()
      ensures Valid()
      ensures !abortFlag && !resumePending && phase == Idle && !closed && posted == []
    {
      abortFlag := false;
      resumePending := false;
      phase := Idle;
      closed := false;
      posted := [];
      runs := 0;
    }

    method Send(more: seq<Out>)
      modifies this
      ensures posted == old(posted) + more
      ensures DoneCount(posted) == DoneCount(old(posted)) + DoneCount(more)
      ensures |more| == 1 ==> DoneCount(more) == (if more[0].DoneMsg? then 1 else 0)
      ensures |more| == 2 ==> DoneCount(more) == (if more[0].DoneMsg? then 1 else 0) + (if more[1].DoneMsg? then 1 else 0)
      ensures abortFlag == old(abortFlag) && resumePending == old(resumePending)
      ensures phase == old(phase) && closed == old(closed) && runs == old(runs)
    {
      DoneCountAppend(posted, more);
      if |more| == 1 {
        DoneCountSmall(more[0], more[0]);
        assert more == [more[0]];
      } else if |more| == 2 {
        DoneCountSmall(more[0], more[1]);
        assert more == [more[0], more[1]];
      }
      posted := posted + more;
    }

    /** A message from the page; none is delivered during a synchronous resume or after
      `close`. `run` starts `runCode` (the page sends one per worker), `resume` is honoured
      only while a yield waits and empties the slot, `cancel` raises the abort flag and
      `terminate` closes the worker. Returns the `narg` of the resume it triggered, if any. */
    method OnMessage(msg: Incoming, start: Start) returns (narg: Option<nat>)
      requires Valid() && phase != Resuming && !closed
      requires msg.Run? ==> phase == Idle
      modifies this
      ensures Valid()
      ensures !msg.Run? ==> runs == old(runs)
      ensures !msg.Cancel? ==> abortFlag == old(abortFlag)
      ensures !msg.Terminate? ==> closed == old(closed)
      ensures msg.ResumeWith? ==>
        && (old(resumePending) ==>
              narg == Some(if msg.args.Some? then |msg.args.value| else 0)
              && !resumePending && phase == Resuming && posted == old(posted))
        && (!old(resumePending) ==> narg.None? && phase == old(phase) && posted == old(posted))
      ensures msg.Cancel? ==> abortFlag && phase == old(phase) && posted == old(posted) && narg.None?
      ensures msg.Terminate? ==> closed && phase == old(phase) && posted == old(posted) && narg.None?
      ensures msg.Ignored? ==> posted == old(posted) && phase == old(phase) && abortFlag == old(abortFlag) && narg.None?
      ensures msg.Run? ==> narg.None? && match start
        case SetupThrew(e) =>
          phase == Idle && posted == old(posted) + [LuaRunner.ErrorMsg(e), LuaRunner.DoneMsg]
        case LoadFailed(m) =>
          phase == Idle
          && posted == old(posted) + [LuaRunner.LogMsg(Some("Syntax Error: " + StackValueToString(m) + "\n")), LuaRunner.DoneMsg]
        case Loaded => phase == Resuming && posted == old(posted)
    {
      narg := None;
      match msg
      case Run(_) =>
        runs := runs + 1;
        match start {
          case SetupThrew(e) =>
            Send([LuaRunner.ErrorMsg(e), LuaRunner.DoneMsg]);
          case LoadFailed(m) =>
            Send([LuaRunner.LogMsg(Some("Syntax Error: " + StackValueToString(m) + "\n")), LuaRunner.DoneMsg]);
          case Loaded =>
            phase := Resuming;
        }
      case ResumeWith(args) =>
        if resumePending {
          resumePending := false;
          narg := Some(if args.Some? then |args.value| else 0);
          phase := Resuming;
        }
      case Cancel =>
        abortFlag := true;
      case Terminate =>
        closed := true;
      case Ignored =>
    }

    /** The count hook, every 10000 instructions: it raises `execution cancelled` exactly when
      the abort flag is up, and changes nothing itself. The raise is an ordinary Lua error:
      the user code may catch it (`pcall`, an inner `coroutine.resume`) and run on, or it
      unwinds to `lua_resume`, whose error status then reaches `Finish`. */
    method Hook() returns (raised: bool)
      requires Valid() && phase == Resuming
      ensures raised <==> abortFlag
    {
      raised := abortFlag;
    }

    /** A `cancel` that reaches the worker while its run waits for input, then the resume: the
      abort flag stays up, so the next count hook raises. When that raise is not caught and
      unwinds to `lua_resume`, the run ends with one `Runtime Error` log naming the
      cancellation (`where` is the position `luaL_where` prefixes) and exactly one `done`. */
    method CancelWhileWaiting(args: Option<seq<string>>, where: string) returns (raised: bool)
      requires Valid() && phase == Yielded && !closed
      modifies this
      ensures raised
      ensures Valid() && phase == Idle && abortFlag
      ensures posted == old(posted) + [LuaRunner.LogMsg(Some("Runtime Error: " + where + "execution cancelled\n")), LuaRunner.DoneMsg]
      ensures DoneCount(posted) == DoneCount(old(posted)) + 1
    {
      var none := OnMessage(Cancel, Loaded);
      var narg := OnMessage(ResumeWith(args), Loaded);
      raised := Hook();
      var cause := where + "execution cancelled";
      Finish(ErrStatus(Plain(cause)));
      assert "Runtime Error: " + cause + "\n" == "Runtime Error: " + where + "execution cancelled\n";
    }

    method Print(vs: seq<StackValue>)
      requires Valid() && phase == Resuming
      modifies this
      ensures Valid()
      ensures posted == old(posted) + [LuaRunner.LogMsg(Some(PrintLine(vs)))] && phase == old(phase)
      ensures abortFlag == old(abortFlag) && runs == old(runs)
    {
      Send([LuaRunner.LogMsg(Some(PrintLine(vs)))]);
    }

    /** `io.write(...)` from Lua code. */
    method Write(vs: seq<StackValue>)
      requires Valid() && phase == Resuming
      modifies this
      ensures Valid()
      ensures posted == old(posted) + [LuaRunner.LogMsg(Some(WriteText(vs)))] && phase == old(phase)
      ensures abortFlag == old(abortFlag) && runs == old(runs)
    {
      Send([LuaRunner.LogMsg(Some(WriteText(vs)))]);
    }

    /** `lua_resume` returned `LUA_YIELD` (from `io.read`): fill the resolver slot and send
      exactly one `request_input`. */
    method Yield()
      requires Valid() && phase == Resuming
      modifies this
      ensures Valid()
      ensures posted == old(posted) + [LuaRunner.RequestInput]
      ensures resumePending && phase == Yielded
      ensures abortFlag == old(abortFlag) && runs == old(runs)
    {
      Send([LuaRunner.RequestInput]);
      resumePending := true;
      phase := Yielded;
    }

    /** `lua_resume` returned a final status, or the interpreter threw. Anything but OK is
      logged as `Runtime Error: …`; every path then sends `done`. */
    method Finish(status: Status)
      requires Valid() && phase == Resuming
      modifies this
      ensures Valid()
      ensures phase == Idle && runs == old(runs) && abortFlag == old(abortFlag) && closed == old(closed)
      ensures match status
        case Ok => posted == old(posted) + [LuaRunner.DoneMsg]
        case ErrStatus(v) =>
          posted == old(posted) + [LuaRunner.LogMsg(Some("Runtime Error: " + StackValueToString(v) + "\n")), LuaRunner.DoneMsg]
        case Threw(m) =>
          posted == old(posted) + [LuaRunner.LogMsg(Some("Runtime Error: " + m + "\n")), LuaRunner.DoneMsg]
    {
      match status {
        case Ok =>
          Send([LuaRunner.DoneMsg]);
        case ErrStatus(v) =>
          Send([LuaRunner.LogMsg(Some("Runtime Error: " + StackValueToString(v) + "\n")), LuaRunner.DoneMsg]);
        case Threw(m) =>
          Send([LuaRunner.LogMsg(Some("Runtime Error: " + m + "\n")), LuaRunner.DoneMsg]);
      }
      phase := Idle;
    }
  }
}
