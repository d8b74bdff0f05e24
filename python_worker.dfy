/** The Python worker (src/runners/workers/python-worker.ts). The interpreter is an oracle:
    the bytes it writes to stdout and stderr, its reads of stdin and how a run ends are
    events. Output is line-buffered per stream; input is read from the shared region the
    page-side runner writes. Posted text is abstracted to the bytes it decodes from. */
module PythonWorker {
  import opened Common
  import opened Messages
  import PythonRunner

  /** What the worker posts. */
  datatype Out =
    | ReadyOut
    | StdoutOut(bytes: seq<byte>)
    | StderrOut(bytes: seq<byte>)
    | StdinOut
    | FinishedOut
    | ErrorOut(message: string)

  datatype Stream = Stdout | Stderr

  /** The bytes of the chunks posted for one stream, in order. */
  function Emitted(posted: seq<Out>, stream: Stream): seq<byte> {
    if posted == [] then []
    else
      var m := posted[|posted| - 1];
      Emitted(posted[..|posted| - 1], stream)
        + (if stream == Stdout && m.StdoutOut? then m.bytes
           else if stream == Stderr && m.StderrOut? then m.bytes
           else [])
  }

  lemma EmittedSnoc(posted: seq<Out>, m: Out, stream: Stream)
    ensures Emitted(posted + [m], stream) == Emitted(posted, stream)
      + (if stream == Stdout && m.StdoutOut? then m.bytes
         else if stream == Stderr && m.StderrOut? then m.bytes
         else [])
  {
    assert (posted + [m])[..|posted|] == posted;
  }

  /** One more byte at the end of the buffer and of the bytes written keeps them in step. */
  lemma AppendByte(emitted: seq<byte>, buf: seq<byte>, base: seq<byte>, written: seq<byte>, b: byte)
    requires emitted + buf == base + written
    ensures emitted + (buf + [b]) == base + (written + [b])
  {
    calc {
      emitted + (buf + [b]);
      (emitted + buf) + [b];
      (base + written) + [b];
      base + (written + [b]);
    }
  }

  /** The message that posts `bytes` on `stream`. */
  function Chunk(stream: Stream, bytes: seq<byte>): Out {
    if stream == Stdout then StdoutOut(bytes) else StderrOut(bytes)
  }

  /** Posting a stream's whole buffer moves its bytes from the buffer to the posted chunks and
      leaves the other stream's bytes where they were. */
  lemma SendKeepsWritten(p: seq<Out>, stream: Stream, outBuf: seq<byte>, errBuf: seq<byte>)
    ensures var m := Chunk(stream, if stream == Stdout then outBuf else errBuf);
      && Emitted(p + [m], Stdout) + (if stream == Stdout then [] else outBuf) == Emitted(p, Stdout) + outBuf
      && Emitted(p + [m], Stderr) + (if stream == Stderr then [] else errBuf) == Emitted(p, Stderr) + errBuf
  {
    var m := Chunk(stream, if stream == Stdout then outBuf else errBuf);
    EmittedSnoc(p, m, Stdout);
    EmittedSnoc(p, m, Stderr);
  }

  /** The text `stdin` returns, as bytes: nothing when word 1 is 0, else the first word-1
      bytes of the data area. */
  function ReadStdin(length: int, data: seq<byte>): (r: seq<byte>)
    requires 0 <= length <= |data|
    ensures |r| == length
  {
    if length == 0 then [] else data[..length]
  }

  /** The stdin handshake end to end: once the page has handled a `stdin` request, the waiting
      worker is released and reads exactly the UTF-8 bytes of the answer and a line feed when
      they fit the data area, and nothing at all when they do not or the input was rejected. */
  lemma StdinRoundTrip(s: PythonRunner.RunnerState, answer: Answer)
    requires s.awaiting > 0 && PythonRunner.RegionOk(s)
    ensures var r := PythonRunner.AfterStdinAnswered(s, answer);
      && r.flag == 1 && PythonRunner.RegionOk(r)
      && ReadStdin(r.length, r.data)
         == (if answer.Answered? && |Utf8(answer.text)| < PythonRunner.DataCapacity
             then Utf8(answer.text) + [10] else [])
  {
    match answer
    case Answered(u) =>
      if |Utf8(u)| < PythonRunner.DataCapacity {
        PythonRunner.StdinAnswerFits(s, u);
      } else {
        PythonRunner.StdinAnswerTooLong(s, u);
      }
    case Rejected(_) =>
  }

  /** Where the worker is: no run, running Python, or blocked in `stdin` on word 0. */
  datatype Phase = Idle | Running | Waiting

  /** The worker's globals and the buffers `initPyodide` sets up. `stdoutBase` and
      `stderrBase` are the bytes posted on each stream before the buffers were made;
      `stdoutWritten` and `stderrWritten` are the bytes the interpreter wrote since then. */
  class PythonWorker {
    var loaded: bool
    var region: PythonRunner.SharedRegion?
    var stdoutBuf: seq<byte>
    var stderrBuf: seq<byte>
    var phase: Phase
    var posted: seq<Out>
    ghost var stdoutBase: seq<byte>
    ghost var stderrBase: seq<byte>
    ghost var stdoutWritten: seq<byte>
    ghost var stderrWritten: seq<byte>

    /** The chunks posted for each stream, followed by its pending buffer, are exactly the
      bytes written to it, in order. */
    ghost predicate Valid()
      reads this, region
    {
      && Emitted(posted, Stdout) + stdoutBuf == stdoutBase + stdoutWritten
      && Emitted(posted, Stderr) + stderrBuf == stderrBase + stderrWritten
      && (region != null ==> region.Valid())
      && (phase == Waiting ==> region != null)
    }

    constructor ()
      ensures Valid()
      ensures !loaded && region == null && phase == Idle && posted == []
    {
      loaded := false;
      region := null;
      stdoutBuf := [];
      stderrBuf := [];
      phase := Idle;
      posted := [];
      stdoutBase := [];
      stderrBase := [];
      stdoutWritten := [];
      stderrWritten := [];
    }

    /** `initPyodide` once `loadPyodide` has succeeded: fresh, empty buffers. */
    method InitInterpreter()
      modifies this
      ensures loaded && stdoutBuf == [] && stderrBuf == [] && posted == old(posted)
      ensures stdoutBase == Emitted(posted, Stdout) && stderrBase == Emitted(posted, Stderr)
      ensures stdoutWritten == [] && stderrWritten == []
      ensures region == old(region) && phase == old(phase)
    {
      loaded := true;
      stdoutBuf := [];
      stderrBuf := [];
      stdoutBase := Emitted(posted, Stdout);
      stderrBase := Emitted(posted, Stderr);
      stdoutWritten := [];
      stderrWritten := [];
    }

    method Post(m: Out)
      requires Valid()
      requires !m.StdoutOut? && !m.StderrOut?
      modifies this
      ensures Valid()
      ensures posted == old(posted) + [m]
      ensures stdoutBuf == old(stdoutBuf) && stderrBuf == old(stderrBuf) && loaded == old(loaded)
      ensures region == old(region) && phase == old(phase)
      ensures stdoutBase == old(stdoutBase) && stderrBase == old(stderrBase)
      ensures stdoutWritten == old(stdoutWritten) && stderrWritten == old(stderrWritten)
    {
      EmittedSnoc(posted, m, Stdout);
      EmittedSnoc(posted, m, Stderr);
      posted := posted + [m];
    }

    /** The `init` message: keep the region, load the interpreter, then post `ready`. If
      loading fails nothing is posted. A blocked worker receives no messages. */
    method OnInit(r: PythonRunner.SharedRegion, loadOk: bool)
      requires Valid() && r.Valid() && phase != Waiting
      modifies this
      ensures Valid()
      ensures region == r && phase == old(phase)
      ensures loadOk ==> loaded && posted == old(posted) + [ReadyOut] && stdoutBuf == [] && stderrBuf == []
      ensures !loadOk ==> posted == old(posted) && loaded == old(loaded)
    {
      region := r;
      if loadOk {
        InitInterpreter();
        Post(ReadyOut);
      }
    }

    /** The `run` message: load the interpreter first if that has not happened, then run. If
      that loading fails, the handler rejects and nothing runs. */
    method OnRun(loadOk: bool) returns (started: bool)
      requires Valid() && phase == Idle
      modifies this
      ensures Valid()
      ensures started <==> old(loaded) || loadOk
      ensures started ==> phase == Running && loaded
      ensures !started ==> phase == Idle
      ensures posted == old(posted) && region == old(region)
    {
      if !loaded {
        if !loadOk {
          return false;
        }
        InitInterpreter();
      }
      phase := Running;
      started := true;
    }

    /** Posts the whole buffer of `stream` as one chunk and empties it. */
    method SendBuffer(stream: Stream)
      requires Valid()
      modifies this
      ensures Valid()
      ensures stream == Stdout ==>
        posted == old(posted) + [StdoutOut(old(stdoutBuf))] && stdoutBuf == [] && stderrBuf == old(stderrBuf)
      ensures stream == Stderr ==>
        posted == old(posted) + [StderrOut(old(stderrBuf))] && stderrBuf == [] && stdoutBuf == old(stdoutBuf)
      ensures phase == old(phase) && region == old(region) && loaded == old(loaded)
      ensures stdoutWritten == old(stdoutWritten) && stderrWritten == old(stderrWritten)
      ensures stdoutBase == old(stdoutBase) && stderrBase == old(stderrBase)
    {
      var m := Chunk(stream, if stream == Stdout then stdoutBuf else stderrBuf);
      SendKeepsWritten(posted, stream, stdoutBuf, stderrBuf);
      posted := posted + [m];
      if stream == Stdout {
        stdoutBuf := [];
      } else {
        stderrBuf := [];
      }
    }

    /** One byte from Python's stdout (`stderr` selects the other stream): it is buffered,
      and a line feed posts the buffer, itself included, and empties it. */
    method Write(stream: Stream, b: byte)
      requires Valid() && phase == Running
      modifies this
      ensures Valid()
      ensures stream == Stdout ==>
        && stderrBuf == old(stderrBuf)
        && (b == 10 ==> posted == old(posted) + [StdoutOut(old(stdoutBuf) + [b])] && stdoutBuf == [])
        && (b != 10 ==> posted == old(posted) && stdoutBuf == old(stdoutBuf) + [b])
      ensures stream == Stderr ==>
        && stdoutBuf == old(stdoutBuf)
        && (b == 10 ==> posted == old(posted) + [StderrOut(old(stderrBuf) + [b])] && stderrBuf == [])
        && (b != 10 ==> posted == old(posted) && stderrBuf == old(stderrBuf) + [b])
      ensures phase == old(phase) && region == old(region)
      ensures stream == Stdout ==>
        stdoutWritten == old(stdoutWritten) + [b] && stderrWritten == old(stderrWritten)
      ensures stream == Stderr ==>
        stderrWritten == old(stderrWritten) + [b] && stdoutWritten == old(stdoutWritten)
      ensures stdoutBase == old(stdoutBase) && stderrBase == old(stderrBase)
      ensures stream == Stdout ==>
        && Emitted(posted, Stdout) + stdoutBuf == old(Emitted(posted, Stdout) + stdoutBuf) + [b]
        && Emitted(posted, Stderr) + stderrBuf == old(Emitted(posted, Stderr) + stderrBuf)
      ensures stream == Stderr ==>
        && Emitted(posted, Stderr) + stderrBuf == old(Emitted(posted, Stderr) + stderrBuf) + [b]
        && Emitted(posted, Stdout) + stdoutBuf == old(Emitted(posted, Stdout) + stdoutBuf)
    {
      if stream == Stdout {
        AppendByte(Emitted(posted, Stdout), stdoutBuf, stdoutBase, stdoutWritten, b);
        stdoutWritten := stdoutWritten + [b];
        stdoutBuf := stdoutBuf + [b];
      } else {
        AppendByte(Emitted(posted, Stderr), stderrBuf, stderrBase, stderrWritten, b);
        stderrWritten := stderrWritten + [b];
        stderrBuf := stderrBuf + [b];
      }
      if b == 10 {
        SendBuffer(stream);
      }
    }

    /** `flushStdoutBuf` / `flushStderrBuf`: an empty buffer posts nothing; otherwise the
      buffer is posted once and emptied. */
    method Flush(stream: Stream)
      requires Valid()
      modifies this
      ensures Valid()
      ensures stream == Stdout ==>
        && stdoutBuf == [] && stderrBuf == old(stderrBuf)
        && posted == old(posted) + (if old(stdoutBuf) == [] then [] else [StdoutOut(old(stdoutBuf))])
      ensures stream == Stderr ==>
        && stderrBuf == [] && stdoutBuf == old(stdoutBuf)
        && posted == old(posted) + (if old(stderrBuf) == [] then [] else [StderrOut(old(stderrBuf))])
      ensures phase == old(phase) && region == old(region) && loaded == old(loaded)
      ensures stdoutBase == old(stdoutBase) && stderrBase == old(stderrBase)
      ensures stdoutWritten == old(stdoutWritten) && stderrWritten == old(stderrWritten)
    {
      if (stream == Stdout && stdoutBuf != []) || (stream == Stderr && stderrBuf != []) {
        SendBuffer(stream);
      }
    }

    /** Python reads stdin. Without a region it gets `''` at once; otherwise both partial
      buffers are posted, then one `stdin` request, and the worker blocks. */
    method Stdin() returns (immediate: Option<seq<byte>>)
      requires Valid() && phase == Running
      modifies this
      ensures Valid()
      ensures region == null ==> immediate == Some([]) && posted == old(posted) && phase == Running
      ensures region != null ==>
        && immediate.None? && phase == Waiting && stdoutBuf == [] && stderrBuf == []
        && posted == old(posted)
             + (if old(stdoutBuf) == [] then [] else [StdoutOut(old(stdoutBuf))])
             + (if old(stderrBuf) == [] then [] else [StderrOut(old(stderrBuf))])
             + [StdinOut]
      ensures region == old(region)
      ensures stdoutBase == old(stdoutBase) && stderrBase == old(stderrBase)
      ensures stdoutWritten == old(stdoutWritten) && stderrWritten == old(stderrWritten)
    {
      if region == null {
        return Some([]);
      }
      Flush(Stdout);
      Flush(Stderr);
      Post(StdinOut);
      phase := Waiting;
      immediate := None;
    }

    /** One look at word 0 while blocked. While it is 0 the worker stays blocked; otherwise
      it resets word 0 to 0 and returns what `ReadStdin` reads from word 1 and the data. */
    method Poll() returns (line: Option<seq<byte>>)
      requires Valid() && phase == Waiting
      modifies this, region
      ensures Valid()
      ensures region == old(region) && posted == old(posted)
      ensures old(region.flag) == 0 ==> line.None? && phase == Waiting && region.flag == 0
      ensures old(region.flag) != 0 ==>
        && phase == Running && region.flag == 0
        && line == Some(ReadStdin(region.length, region.data[..]))
      ensures region.length == old(region.length)
      ensures stdoutBase == old(stdoutBase) && stderrBase == old(stderrBase)
      ensures stdoutWritten == old(stdoutWritten) && stderrWritten == old(stderrWritten)
    {
      if region.flag == 0 {
        return None;
      }
      region.flag := 0;
      phase := Running;
      var size := region.length;
      if size == 0 {
        return Some([]);
      }
      line := Some(region.data[..size]);
    }

    /** `runPythonAsync` settles: `finished` on success, `error` with the message otherwise.
      Partial lines still buffered are not posted. */
    method FinishRun(error: Option<string>)
      requires Valid() && phase == Running
      modifies this
      ensures Valid()
      ensures phase == Idle
      ensures posted == old(posted) + [if error.Some? then ErrorOut(error.value) else FinishedOut]
      ensures stdoutBuf == old(stdoutBuf) && stderrBuf == old(stderrBuf)
      ensures stdoutBase == old(stdoutBase) && stderrBase == old(stderrBase)
      ensures stdoutWritten == old(stdoutWritten) && stderrWritten == old(stderrWritten)
    {
      Post(if error.Some? then ErrorOut(error.value) else FinishedOut);
      phase := Idle;
    }
  }
}
