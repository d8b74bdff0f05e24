/** The page side of Python execution (src/runners/pythonRunner.ts). Input is handed over
    through a shared memory region of 10240 bytes: 32-bit word 0 is the ready flag, word 1 the
    byte length, and the byte area starts at offset 8. There is no resolver field: the promise
    of each run settles from its worker's `finished` or `error` message, and `cancel` leaves it
    pending. */
module PythonRunner {
  import opened Common
  import opened Messages

  /** `new SharedArrayBuffer(1024 * 10)`. */
  const BufferBytes: nat := 1024 * 10
  /** `new Uint8Array(sharedBuffer, 8)`: the byte area follows the two 32-bit words. */
  const DataOffset: nat := 2 * 4
  const DataCapacity: nat := BufferBytes - DataOffset

  /** The shared region as both sides use it. The 32-bit words past word 1 alias the byte
      area and are never read or written as words. */
  class SharedRegion {
    var flag: int
    var length: int
    const data: array<byte>

    predicate Valid()
      reads this
    {
      data.Length == DataCapacity && 0 <= length <= data.Length
    }

    /** A fresh buffer is all zero bytes. */
    constructor ()
      ensures Valid() && fresh(data)
      ensures flag == 0 && length == 0 && data[..] == seq(DataCapacity, _ => 0)
    {
      flag := 0;
      length := 0;
      data := new byte[DataCapacity](_ => 0);
    }
  }

  /** A message from the Python worker as the handler tells them apart. */
  datatype FromWorker =
    | Ready
    | Stdout(content: string)
    | Stderr(content: string)
    | ErrorMsg(content: string)
    | Finished
    | StdinMsg
    | Unlisted          // a `type` the handler does not test for

  /** The runner's worker, the code captured by the live worker's handler, the number of
      `stdin` requests whose `onInput` is still awaited, the number of workers made so far, the
      trace of effects, and the region's words and bytes. */
  datatype RunnerState = RunnerState(
    worker: Option<WorkerRef>,
    code: string,
    awaiting: nat,
    created: nat,
    effects: seq<Effect>,
    flag: int,
    length: int,
    data: seq<byte>)

  const Initial := RunnerState(None, "", 0, 0, [], 0, 0, seq(DataCapacity, _ => 0))

  /** `cancel()`: terminate and forget the worker; nothing is resolved. */
  function AfterCancel(s: RunnerState): RunnerState {
    s.(worker := None, effects := s.effects + Stop(s.worker))
  }

  /** `cleanup()`: `cancel()`, then clear the flag word. */
  function AfterCleanup(s: RunnerState): RunnerState {
    AfterCancel(s).(flag := 0)
  }

  /** `execute(code, …)` up to the returned promise: clean up, make a worker whose handler
      captures `code`, and post `init` with the shared buffer. */
  function AfterExecute(s: RunnerState, code: string): RunnerState {
    var c := AfterCleanup(s);
    var w := WorkerRef(c.created);
    c.(worker := Some(w), code := code, created := c.created + 1,
       effects := c.effects + [Spawn(w), Post(w, InitPy)])
  }

  /** `worker.onmessage` of the live worker, up to the `await` of a `stdin` request. Its run is
      named by the worker's id. */
  function AfterMessage(s: RunnerState, msg: FromWorker): RunnerState
    requires s.worker.Some?
  {
    var w := s.worker.value;
    match msg
    case Ready => s.(effects := s.effects + [Post(w, RunPy(s.code))])
    case Stdout(c) => s.(effects := s.effects + [Log(c)])
    case Stderr(c) => s.(effects := s.effects + [Log(c)])
    case ErrorMsg(c) => s.(effects := s.effects + [Log("Runtime Error: " + c + "\n"), Resolve(w.id)])
    case Finished => s.(effects := s.effects + [Resolve(w.id)])
    case StdinMsg => s.(effects := s.effects + [AskInput(None)], awaiting := s.awaiting + 1)
    case Unlisted => s
  }

  /** The rest of a `stdin` handler once `onInput` settles, whichever worker is live now: the
      UTF-8 bytes of the answer and a line feed go to the start of the byte area with their
      count in word 1 when they fit; when they do not (the copy throws before writing) or the
      input was rejected, word 1 becomes 0. Word 0 becomes 1 either way. */
  function AfterStdinAnswered(s: RunnerState, answer: Answer): RunnerState
    requires s.awaiting > 0
  {
    var t := s.(awaiting := s.awaiting - 1, flag := 1);
    match answer
    case Answered(u) =>
      var bytes := Utf8(u + "\n");
      if |bytes| <= |s.data| then t.(data := bytes + s.data[|bytes|..], length := |bytes|)
      else t.(length := 0)
    case Rejected(_) => t.(length := 0)
  }

  /** The region's words are in range. */
  predicate RegionOk(s: RunnerState) {
    |s.data| == DataCapacity && 0 <= s.length <= |s.data|
  }

  /** Writing an answer that fits puts exactly its bytes, a line feed last, at the start of
      the byte area with its count in word 1 and leaves the remaining bytes alone. */
  lemma StdinAnswerFits(s: RunnerState, u: string)
    requires s.awaiting > 0 && RegionOk(s)
    requires |Utf8(u)| < DataCapacity
    ensures var r := AfterStdinAnswered(s, Answered(u)); var n := |Utf8(u)| + 1;
      && r.length == n && r.flag == 1 && RegionOk(r)
      && r.data[..n] == Utf8(u) + [10]
      && r.data[n..] == s.data[n..]
  {
    Utf8WithNewline(u);
  }

  /** An answer whose bytes do not fit is not truncated: word 1 becomes 0, so the worker
      reads the empty string, and the byte area is untouched. */
  lemma StdinAnswerTooLong(s: RunnerState, u: string)
    requires s.awaiting > 0 && RegionOk(s)
    requires |Utf8(u)| >= DataCapacity
    ensures var r := AfterStdinAnswered(s, Answered(u));
      r.length == 0 && r.flag == 1 && r.data == s.data
  {
    Utf8WithNewline(u);
  }

  /** Whatever the answer, the waiting worker is released (word 0 is 1), the words stay in
      range, and a rejected input reads as empty. */
  lemma StdinAlwaysReleases(s: RunnerState, answer: Answer)
    requires s.awaiting > 0 && RegionOk(s)
    ensures var r := AfterStdinAnswered(s, answer);
      && r.flag == 1 && RegionOk(r) && r.awaiting == s.awaiting - 1
      && (answer.Rejected? ==> r.length == 0 && r.data == s.data)
      && r.effects == s.effects && r.worker == s.worker
  {
  }

  /** `run` is posted only in reply to `ready`, and carries the code of the current
      execution; `execute` itself posts only `init`. */
  lemma RunOnlyAfterReady(s: RunnerState, msg: FromWorker, code: string)
    requires s.worker.Some?
    ensures var r := AfterMessage(s, msg);
      (exists k :: |s.effects| <= k < |r.effects| && r.effects[k].Post? && r.effects[k].msg.RunPy?)
      <==> msg == Ready
    ensures msg == Ready ==> AfterMessage(s, msg).effects == s.effects + [Post(s.worker.value, RunPy(s.code))]
    ensures var r := AfterExecute(s, code);
      forall k :: |s.effects| <= k < |r.effects| && r.effects[k].Post? ==> r.effects[k].msg == InitPy
  {
    var r := AfterMessage(s, msg);
    if msg == Ready {
      assert r.effects[|s.effects|].Post?;
    }
  }

  /** The run settles only on `finished`, or on `error` after logging `Runtime Error: …`; no
      other message resolves anything. */
  lemma ResolvesOnlyWhenFinished(s: RunnerState, msg: FromWorker)
    requires s.worker.Some?
    ensures var r := AfterMessage(s, msg);
      Resolved(r.effects) == Resolved(s.effects) + (if msg.Finished? || msg.ErrorMsg? then [s.worker.value.id] else [])
    ensures msg.ErrorMsg? ==> AfterMessage(s, msg).effects[|s.effects|] == Log("Runtime Error: " + msg.content + "\n")
  {
    if msg.ErrorMsg? {
      ErrorResolves(s, msg.content);
    } else {
      OtherResolves(s, msg);
    }
  }

  lemma OtherResolves(s: RunnerState, msg: FromWorker)
    requires s.worker.Some? && !msg.ErrorMsg?
    ensures Resolved(AfterMessage(s, msg).effects) == Resolved(s.effects) + (if msg.Finished? then [s.worker.value.id] else [])
  {
    if !msg.Unlisted? {
      var r := AfterMessage(s, msg);
      var e := r.effects[|s.effects|];
      assert r.effects == s.effects + [e];
      ResolvedSnoc(s.effects, e);
    }
  }

  lemma ErrorResolves(s: RunnerState, c: string)
    requires s.worker.Some?
    ensures var r := AfterMessage(s, ErrorMsg(c));
      Resolved(r.effects) == Resolved(s.effects) + [s.worker.value.id]
  {
    var w := s.worker.value;
    var line := Log("Runtime Error: " + c + "\n");
    assert AfterMessage(s, ErrorMsg(c)).effects == (s.effects + [line]) + [Resolve(w.id)];
    ResolvedSnoc(s.effects, line);
    ResolvedSnoc(s.effects + [line], Resolve(w.id));
  }

  /** `cancel` terminates and forgets the worker but resolves nothing: a pending run's
      promise stays pending. A second `cancel` changes nothing. */
  lemma CancelLeavesRunPending(s: RunnerState)
    ensures var c := AfterCancel(s);
      && c.worker.None? && Resolved(c.effects) == Resolved(s.effects)
      && AfterCancel(c) == c
  {
    var c := AfterCancel(s);
    if s.worker.Some? {
      ResolvedSnoc(s.effects, Terminate(s.worker.value));
    } else {
      assert c.effects == s.effects;
    }
    assert c.effects + Stop(c.worker) == c.effects;
  }

  /** `cleanup` is `cancel` plus a cleared flag word, and is idempotent. */
  lemma CleanupIdempotent(s: RunnerState)
    ensures var c := AfterCleanup(s);
      c.worker.None? && c.flag == 0 && AfterCleanup(c) == c
  {
    var c := AfterCleanup(s);
    assert c.effects + Stop(c.worker) == c.effects;
  }

  /** The runner of src/runners/pythonRunner.ts. */
  class PythonRunner {
    var worker: Option<WorkerRef>
    var code: string
    var awaiting: nat
    var created: nat
    var effects: seq<Effect>
    const region: SharedRegion

    predicate Valid()
      reads this, region
    {
      region.Valid()
    }

    function State(): RunnerState
      reads this, region, region.data
    {
      RunnerState(worker, code, awaiting, created, effects, region.flag, region.length, region.data[..])
    }

    constructor ()
      ensures Valid() && fresh(region) && fresh(region.data)
      ensures State() == Initial
    {
      worker := None;
      code := "";
      awaiting := 0;
      created := 0;
      effects := [];
      region := new SharedRegion();
    }

    method Cancel()
      modifies this
      ensures State() == AfterCancel(old(State()))
    {
      if worker.Some? {
        effects := effects + [Terminate(worker.value)];
        worker := None;
      }
    }

    method Cleanup()
      requires Valid()
      modifies this, region
      ensures Valid()
      ensures State() == AfterCleanup(old(State()))
    {
      Cancel();
      region.flag := 0;
    }

    /** Returns the run whose promise `execute` hands back. */
    method Execute(code: string) returns (run: nat)
      requires Valid()
      modifies this, region
      ensures Valid()
      ensures State() == AfterExecute(old(State()), code)
      ensures worker == Some(WorkerRef(run))
    {
      Cleanup();
      var w := WorkerRef(created);
      created := created + 1;
      effects := effects + [Spawn(w)];
      worker := Some(w);
      this.code := code;
      effects := effects + [Post(w, InitPy)];
      run := w.id;
    }

    method OnMessage(msg: FromWorker)
      requires worker.Some?
      modifies this
      ensures State() == AfterMessage(old(State()), msg)
    {
      var w := worker.value;
      match msg
      case Ready =>
        effects := effects + [Post(w, RunPy(code))];
      case Stdout(c) =>
        effects := effects + [Log(c)];
      case Stderr(c) =>
        effects := effects + [Log(c)];
      case ErrorMsg(c) =>
        effects := effects + [Log("Runtime Error: " + c + "\n")];
        effects := effects + [Resolve(w.id)];
      case Finished =>
        effects := effects + [Resolve(w.id)];
      case StdinMsg =>
        effects := effects + [AskInput(None)];
        awaiting := awaiting + 1;
      case Unlisted =>
    }

    /** The continuation of an awaited `stdin` request. */
    method OnStdinSettled(answer: Answer)
      requires Valid() && awaiting > 0
      modifies this, region, region.data
      ensures Valid()
      ensures State() == AfterStdinAnswered(old(State()), answer)
    {
      awaiting := awaiting - 1;
      match answer
      case Answered(u) =>
        var bytes := Utf8(u + "\n");
        if |bytes| <= region.data.Length {
          forall k | 0 <= k < |bytes| {
            region.data[k] := bytes[k];
          }
          assert region.data[..] == bytes + old(region.data[..])[|bytes|..];
          region.length := |bytes|;
        } else {
          // `set` throws before writing; the handler's catch clears the length.
          region.length := 0;
        }
        region.flag := 1;
      case Rejected(_) =>
        region.length := 0;
        region.flag := 1;
    }
  }
}
