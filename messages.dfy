/** What passes between the page and the language workers, and what a runner does to the
    world outside it. Worker transport is abstracted: a posted message is an effect in the
    poster's trace, and a delivered message is an event of the receiver. */
module Messages {
  import opened Common

  /** A handle to one `new Worker(...)`; every construction gets a fresh id. */
  datatype WorkerRef = WorkerRef(id: nat)

  /** What the page posts to a worker. */
  datatype ToWorker =
    | RunJs(code: string)                       // { type: 'run', payload: code }
    | RunLua(code: string)                      // { type: 'run', payload: { code } }
    | RunPy(code: string)                       // { type: 'run', code }
    | CancelRun                                 // { type: 'cancel' }
    | InputResponse(payload: string, id: string)
    | Resume(args: seq<string>)                 // { type: 'resume', payload: { args } }
    | InitPy                                    // { type: 'init', buffer }

  /** One observable step of a runner, in the order it happens. A run is named by the id of
      the worker created for it; `Resolve(run)` settles the promise `execute` returned. */
  datatype Effect =
    | Log(text: string)                         // onLog(text)
    | AskInput(prompt: Option<string>)          // onInput(prompt) is called and awaited
    | Spawn(w: WorkerRef)
    | Post(w: WorkerRef, msg: ToWorker)
    | Terminate(w: WorkerRef)
    | Resolve(run: nat)

  /** How an awaited `onInput` settles. */
  datatype Answer = Answered(text: string) | Rejected(reason: string)

  /** `worker.terminate()` when there is a worker. */
  function Stop(w: Option<WorkerRef>): seq<Effect> {
    if w.Some? then [Terminate(w.value)] else []
  }

  /** `doneResolver()` when there is a resolver. */
  function Fire(resolver: Option<nat>): seq<Effect> {
    if resolver.Some? then [Resolve(resolver.value)] else []
  }

  /** The runs resolved by a trace, in order. */
  function Resolved(effects: seq<Effect>): (r: seq<nat>)
    ensures |r| <= |effects|
  {
    if effects == [] then []
    else
      var e := effects[|effects| - 1];
      Resolved(effects[..|effects| - 1]) + (if e.Resolve? then [e.run] else [])
  }

  /** One more effect adds its run when it is a resolution. */
  lemma ResolvedSnoc(a: seq<Effect>, e: Effect)
    ensures Resolved(a + [e]) == Resolved(a) + (if e.Resolve? then [e.run] else [])
  {
    assert (a + [e])[..|a|] == a;
  }

  lemma {:induction false} ResolvedAppend(a: seq<Effect>, b: seq<Effect>)
    ensures Resolved(a + b) == Resolved(a) + Resolved(b)
  {
    if b != [] {
      var b' := b[..|b| - 1];
      assert (a + b)[..|a + b| - 1] == a + b';
      ResolvedAppend(a, b');
    } else {
      assert a + b == a;
    }
  }

  /** Every element occurs once. */
  predicate Distinct<T(==)>(s: seq<T>) {
    forall i, j :: 0 <= i < j < |s| ==> s[i] != s[j]
  }

  /** The one-shot discipline of a done resolver: no run has been resolved twice, every
      resolved run was created already, and the live resolver (if any) names a created run
      that has not been resolved yet. */
  predicate OneShot(effects: seq<Effect>, resolver: Option<nat>, created: nat) {
    && Distinct(Resolved(effects))
    && (forall k :: 0 <= k < |Resolved(effects)| ==> Resolved(effects)[k] < created)
    && (resolver.Some? ==> resolver.value < created && resolver.value !in Resolved(effects))
  }

  /** A stretch of effects that resolves nothing. */
  predicate Quiet(more: seq<Effect>) {
    forall k :: 0 <= k < |more| ==> !more[k].Resolve?
  }

  lemma {:induction false} QuietResolvesNothing(more: seq<Effect>)
    requires Quiet(more)
    ensures Resolved(more) == []
  {
    if more != [] {
      QuietResolvesNothing(more[..|more| - 1]);
    }
  }

  /** Effects that resolve nothing keep the discipline. */
  lemma OneShotQuiet(effects: seq<Effect>, more: seq<Effect>, resolver: Option<nat>, created: nat)
    requires OneShot(effects, resolver, created)
    requires Quiet(more)
    ensures OneShot(effects + more, resolver, created)
  {
    QuietResolvesNothing(more);
    ResolvedAppend(effects, more);
  }

  /** Calling the live resolver once and dropping it keeps the discipline. */
  lemma {:induction false} OneShotFire(effects: seq<Effect>, resolver: Option<nat>, created: nat)
    requires OneShot(effects, resolver, created)
    ensures OneShot(effects + Fire(resolver), None, created)
  {
    if resolver.Some? {
      ResolvedSnoc(effects, Resolve(resolver.value));
    } else {
      assert effects + Fire(resolver) == effects;
    }
  }

  /** A resolver for a run created next starts unresolved. */
  lemma OneShotFresh(effects: seq<Effect>, created: nat)
    requires OneShot(effects, None, created)
    ensures OneShot(effects, Some(created), created + 1)
  {
  }
}
