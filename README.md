# client-scripts-online, modelled in Dafny

client-scripts-online is a browser playground. The user writes JavaScript, Lua or Python in a
code editor with a line-number gutter and a syntax-highlight overlay, then runs it. The output
appears in a console, and the console also collects the code's reads from standard input. This
project models the playground's core and proves properties of that model.

- **The page** (`App`) holds the current language, the code, the console text, the running
  flag and a one-slot input resolver. The `Page` class has one method per handler. The pure
  `After*` functions specify those methods. Lemmas about the functions state what each handler
  promises. The page's calls into the dispatcher are recorded as a trace of `Call`s.
- **The dispatcher** (`EvalCode`) keeps one runner per language, created once, and remembers
  which runner is current. `safeEval`, `cancelExecution` and `cleanupAllRunners` are methods
  of `Dispatcher`. Each is proved against a function on the combined runner state.
- **The runners** (`JavaScriptRunner`, `LuaRunner`, `PythonRunner`) are classes whose methods
  mirror `execute`, `cancel`, `cleanup` and the worker callbacks. Every state change is a
  function on a `RunnerState` value. The value records an effect trace: log lines, posts,
  terminations and resolutions of each run's done promise.
  - Each runner has an `Event` type and a `Step` function over all events. An invariant is
    kept by every event.
  - For the JavaScript and Lua runners this yields the theorem that a run's done promise is
    resolved at most once, whatever happens.
  - The Python runner's shared-memory stdin handshake is modelled down to the bytes. The
    model covers the first two 32-bit words and the byte area that starts at offset 8 of the
    10240-byte buffer.
- **The workers** (`JsWorker`, `LuaWorker`, `PythonWorker`) are classes holding each worker's
  globals. The language interpreters are oracles; the model has:
  - JavaScript: whether the user code throws;
  - Lua: what `lua_resume` returns;
  - Python: the bytes the interpreter writes.

  Around those oracles the model follows the workers' message dispatch, abort flag, console
  rendering, input listeners, output buffering and stdin wait, within the limits listed under
  "Left out".
- **The editor** (`CodeEditor`) covers the text edits of Tab, Shift-Tab and Enter, the caret's
  line, and the gutter height. They are stated on `split('\n')` and `join('\n')` (`Common`).
- **The highlight overlay** (`HighlightOverlay`) has four parts:
  - the token colours;
  - the start offset of every line;
  - which tokens touch which line;
  - how a line is painted, shortest token last, and cut into spans.
- **The syntax worker** (`SyntaxWorker`) classifies node types. It walks the parse tree with a
  cursor; `GetTokens` is proved to emit the tokens of the tree's preorder. The worker's
  INIT/LOAD_LANG/PARSE protocol is the `Highlighter` class.
- **Saved codes and languages** (`SavedCodes`, `Languages`) cover the per-language code kept
  in session storage, the language table and its lookup.

## Model

| member | source | states |
|---|---|---|
| Languages.Find | src/data/languages.ts:48-50 | the result is the first table entry with the id, and is None exactly when no entry has it |
| Languages.GetLanguageById | src/data/languages.ts:48-50 | a found language is in LANGUAGES with the asked id; None exactly when no entry carries the id |
| Languages.IdsDistinct | src/data/languages.ts:13-46 | no two entries of the table share an id |
| Languages.LookupOfEntry | src/data/languages.ts:48-50 | looking up the id of any entry returns that very entry |
| Languages.FirstIsJavaScript | src/data/languages.ts:13-20 | the fallback language LANGUAGES[0] is JavaScript |
| Languages.EveryEntryHasDefaultCode | src/data/languages.ts:13-46 | every language carries starter code |
| SavedCodes.Saved | src/hooks/useSavedCodes.ts:28-35 | the new map holds the code under the current id and every other key exactly as before |
| SavedCodes.LookupFallback | src/hooks/useSavedCodes.ts:10-26 | the lookup returns the text saved for the language if any, else the language's starter code, else the empty string; with nothing stored no text is saved |
| SavedCodes.EmptyStorageGivesDefaults | src/hooks/useSavedCodes.ts:23-26 | with nothing stored each language loads its starter code |
| SavedCodes.SaveThenLoad | src/hooks/useSavedCodes.ts:23-35 | a lookup after a save returns the saved code |
| SavedCodes.SaveKeepsOthers | src/hooks/useSavedCodes.ts:23-35 | saving for one language leaves every other language's lookup unchanged |
| SavedCodes.SessionStore.SaveCodeForCurrentLanguage | src/hooks/useSavedCodes.ts:28-35 | the stored item becomes the old map with the current id set to the code |
| SavedCodes.InitialCodeIsCurrent | src/hooks/useSavedCodes.ts:37-47 | both branches of initialCode give the current language's stored or starter code |
| App.InitialLanguageChoice | src/App.tsx:18-20 | the page starts on the stored language when it names a table entry, otherwise on LANGUAGES[0] |
| App.InitialInv | src/App.tsx:18-36 | the first render satisfies the page invariant: prompt and slot agree, the language is a table entry and the stored one, and the editor holds that language's stored code |
| App.StepKeepsInv | src/App.tsx:43-103 | every handler keeps the invariant: an (empty) prompt is shown exactly while a request waits in the slot, the language is a stored table entry, and the editor's code is what storage holds for it |
| App.ResolveSlotOnce | src/App.tsx:59-63 | resolving settles only the waiting request, with the trimmed text; it clears prompt and slot, and a second resolve is a no-op |
| App.InputRoundTrip | src/App.tsx:56-65 | a request then a submission echoes the value and a line feed, delivers the trimmed value to that request and clears the prompt |
| App.LaterRequestTakesSlot | src/App.tsx:56-65 | a second request overwrites the slot: the next submission settles only the second request |
| App.RunWhileRunningInterrupts | src/App.tsx:68-75 | run while running calls cancelExecution once, appends the interruption marker, stops, and settles a waiting input with "" |
| App.BlankCodeDoesNothing | src/App.tsx:77 | run on whitespace-only code changes nothing |
| App.RunStarts | src/App.tsx:79-89 | run on real code resets the console to the two ready lines and calls safeEval once with the current language and code; running ends when it returns |
| App.CancelStops | src/App.tsx:92-98 | cancel calls cleanupAllRunners once, stops, clears the prompt, settles a waiting input with "" and appends the interrupt marker |
| App.LanguageChangeRules | src/App.tsx:43-50 | a change while running or to the current language is ignored; otherwise the page switches to that language's stored code and resets the console |
| App.SwitchBackRestoresCode | src/App.tsx:43-54 | edit, switch away and switch back returns the edited code |
| App.Page.constructor | src/App.tsx:18-41 | the page starts in the state the initial render and effects produce from session storage |
| App.Page.ResolveInput | src/App.tsx:59-63 | with a request waiting, that request settles with the trimmed value and prompt and slot clear; with none, nothing changes |
| App.Page.HandleInputRequest | src/App.tsx:56-65 | shows an empty prompt and puts this request in the slot, replacing any earlier one; nothing else changes |
| App.Page.RunCode | src/App.tsx:67-87 | while running: one cancelExecution, the interruption marker, stop, a waiting input settled with ""; on blank code nothing; otherwise running, the ready lines and one safeEval call |
| App.Page.RunReturned | src/App.tsx:89 | running ends and nothing else changes |
| App.Page.HandleCancel | src/App.tsx:92-98 | one cleanupAllRunners, stop, no prompt, a waiting input settled with "", and the interrupt marker appended |
| App.Page.HandleInputSubmit | src/App.tsx:100-103 | the value and a line feed are echoed, then the waiting request, if any, settles with the trimmed value |
| App.Page.OnLog | src/App.tsx:86 | the text is appended to the console and nothing else changes |
| App.Page.OnEdit | src/App.tsx:52-54 | a changed text becomes the code and is saved under the current language; the same text changes nothing |
| App.Page.HandleLanguageChange | src/App.tsx:43-50 | ignored while running or for the current language; otherwise the language switches, its stored or starter code is loaded (and saved), its id is stored and the console resets |
| EvalCode.RunnersMatchLanguages | src/lib/evalCode.ts:6-10 | a language id has a runner exactly when it is an id of the language table |
| EvalCode.CancelKeepsInv | src/lib/evalCode.ts:27-28 | cancelling any runner keeps all runners' invariants |
| EvalCode.OperationsKeepInv | src/lib/evalCode.ts:14-52 | safeEval's start and settle, cancelExecution and cleanupAllRunners all keep every runner's one-shot invariant |
| EvalCode.UnsupportedOnlyLogs | src/lib/evalCode.ts:20-25 | an unknown language only logs "Unsupported language: id" and touches no runner |
| EvalCode.SafeEvalCancelsPrevious | src/lib/evalCode.ts:27-33 | a run cancels the previous current runner, makes the language's runner current and executes the code on it |
| EvalCode.SettleClearsCurrent | src/lib/evalCode.ts:33-41 | however execute settles, no runner is current afterwards; a rejection is logged unless it is an AbortError |
| EvalCode.StaleSettleForgetsLaterRun | src/lib/evalCode.ts:40 | the finally of an earlier run that settles late clears the current runner of a later run |
| EvalCode.CancelExecutionIdempotent | src/lib/evalCode.ts:44-47 | cancelExecution cancels the current runner once and forgets it; a second call changes nothing |
| EvalCode.CleanupAllQuiesces | src/lib/evalCode.ts:49-52 | after cleanupAllRunners no worker is alive, no resolver is live and no runner is current |
| EvalCode.Dispatcher.constructor | src/lib/evalCode.ts:6-12 | three fresh runners and no current runner |
| EvalCode.Dispatcher.SafeEvalStart | src/lib/evalCode.ts:14-31 | an unknown language only logs; a known one cancels the current runner, becomes current and executes the code; a run is returned exactly for known languages, and all runner invariants hold after |
| EvalCode.Dispatcher.Settle | src/lib/evalCode.ts:33-41 | a rejection is logged as "Runner error: …" unless it is an AbortError while a runner is current; the current runner is cleared whoever it is |
| EvalCode.Dispatcher.CancelCurrent | src/lib/evalCode.ts:27-28 | the current runner, if any, is cancelled and forgotten; the shared region is untouched |
| EvalCode.Dispatcher.CancelExecution | src/lib/evalCode.ts:44-47 | the current runner, if any, is cancelled and forgotten; no other runner changes |
| EvalCode.Dispatcher.CleanupAllRunners | src/lib/evalCode.ts:49-52 | after cancelExecution every runner is cleaned up in table order, and all runner invariants hold after |
| Messages.ResolvedAppend | src/runners/javascriptRunner.ts:16-22 | the runs resolved by two stretches of effects are those of the first followed by those of the second |
| Messages.OneShotFire | src/runners/javascriptRunner.ts:57-60 | calling the live resolver once and dropping it keeps the one-shot discipline |
| Messages.OneShotFresh | src/runners/javascriptRunner.ts:16-22 | a resolver for the next run starts unresolved |
| JavaScriptRunner.StepKeepsInv | src/runners/javascriptRunner.ts:13-106 | every event keeps the invariant: one-shot resolver, and a worker exists exactly while its run is pending |
| JavaScriptRunner.TraceKeepsInv | src/runners/javascriptRunner.ts:13-106 | any sequence of events from an invariant state ends in an invariant state |
| JavaScriptRunner.ResolvesAtMostOnce | src/runners/javascriptRunner.ts:13-106 | in any history from a fresh runner, no run's done promise is resolved twice |
| JavaScriptRunner.CleanupIdempotent | src/runners/javascriptRunner.ts:96-106 | after cleanup no worker or resolver is live, and a second cleanup changes nothing |
| JavaScriptRunner.CancelIdempotent | src/runners/javascriptRunner.ts:85-94 | after cancel nothing is live, even without a worker, and a second cancel changes nothing |
| JavaScriptRunner.ExecuteCleansUpFirst | src/runners/javascriptRunner.ts:13-22 | execute terminates the old worker and resolves the old run before it creates a worker and a pending run for the new code |
| JavaScriptRunner.FinishIsCleanup | src/runners/javascriptRunner.ts:57-60 | the resolver call after cleanup adds nothing, because cleanup has already fired and dropped it |
| JavaScriptRunner.ErrorEndsLikeDone | src/runners/javascriptRunner.ts:62-66 | an error message logs "Error: payload" or "unknown", then ends the run exactly as done does |
| JavaScriptRunner.InputRequestAwaits | src/runners/javascriptRunner.ts:34-45 | an input request logs a present prompt and awaits onInput once for that id |
| JavaScriptRunner.InputAnsweredOnce | src/runners/javascriptRunner.ts:45-55 | a settled input leaves the pending set and posts exactly one response with its id, after the echo when echoing is on |
| JavaScriptRunner.JavaScriptRunner.constructor | src/runners/javascriptRunner.ts:4-11 | echoing is on only when asked for; the initial state satisfies the invariant |
| JavaScriptRunner.JavaScriptRunner.Cleanup | src/runners/javascriptRunner.ts:96-106 | the worker is terminated, the live resolver fires once and is dropped, and nothing is pending |
| JavaScriptRunner.JavaScriptRunner.Cancel | src/runners/javascriptRunner.ts:85-94 | a live worker is sent cancel and terminated, the live resolver fires once, and nothing is left live or pending |
| JavaScriptRunner.JavaScriptRunner.Execute | src/runners/javascriptRunner.ts:13-22 | after a cleanup, a fresh worker is spawned and sent run with the code, and the returned run is the one pending on it |
| JavaScriptRunner.JavaScriptRunner.EndRun | src/runners/javascriptRunner.ts:57-60 | the run ends as cleanup ends it; the second resolver call finds nothing |
| JavaScriptRunner.JavaScriptRunner.OnMessage | src/runners/javascriptRunner.ts:24-71 | log appends its text; an input request logs the prompt and awaits its id; done ends the run; error logs "Error: …" and ends it; other types change nothing |
| JavaScriptRunner.JavaScriptRunner.OnWorkerError | src/runners/javascriptRunner.ts:73-78 | logs "Worker error: …" ("unknown" for an empty message) and ends the run |
| JavaScriptRunner.JavaScriptRunner.OnInputSettled | src/runners/javascriptRunner.ts:45-55 | the request leaves the awaited set; the answer is echoed when echoing is on, and one response with its id goes to the live worker, if any |
| LuaRunner.FinishIsCleanup | src/runners/luaRunner.ts:37-41 | the resolver call after cleanup adds nothing |
| LuaRunner.StepKeepsInv | src/runners/luaRunner.ts:8-84 | every event keeps the one-shot invariant |
| LuaRunner.TraceKeepsInv | src/runners/luaRunner.ts:8-84 | any event sequence from an invariant state ends in an invariant state |
| LuaRunner.ResolvesAtMostOnce | src/runners/luaRunner.ts:8-84 | in any history from a fresh runner, no run's done promise is resolved twice |
| LuaRunner.CleanupIdempotent | src/runners/luaRunner.ts:74-84 | cleanup leaves nothing live, and a second cleanup changes nothing |
| LuaRunner.CancelOnce | src/runners/luaRunner.ts:61-72 | cancel without a worker does nothing; with one it posts cancel, terminates it and resolves the run, and a second cancel adds nothing |
| LuaRunner.ExecuteCleansUpFirst | src/runners/luaRunner.ts:8-15 | execute terminates the old worker and resolves the old run before it starts the new one |
| LuaRunner.ErrorOnlyLogs | src/runners/luaRunner.ts:34-36 | a worker error message logs "Worker Error: payload" and a line feed, and nothing else changes |
| LuaRunner.DoneLogsThenCleansUp | src/runners/luaRunner.ts:37-41 | done logs the empty string and then ends the run as cleanup does |
| LuaRunner.OneResumePerRequest | src/runners/luaRunner.ts:25-33 | each settled request sends exactly one resume with the answer, or with no argument after a logged rejection |
| LuaRunner.LuaRunner.constructor | src/runners/luaRunner.ts:4-6 | a fresh runner has no worker, no resolver and no effects |
| LuaRunner.LuaRunner.Cleanup | src/runners/luaRunner.ts:74-84 | the worker is terminated, the live resolver fires once and is dropped, and nothing is pending |
| LuaRunner.LuaRunner.Cancel | src/runners/luaRunner.ts:61-72 | without a worker nothing changes; otherwise it is sent cancel and terminated and the live resolver fires once |
| LuaRunner.LuaRunner.Execute | src/runners/luaRunner.ts:8-15 | after a cleanup, a fresh worker is spawned and sent run with the code, and the returned run is the one pending on it |
| LuaRunner.LuaRunner.OnMessage | src/runners/luaRunner.ts:17-48 | log appends its text; request_input asks for input; error logs "Worker Error: …" only; done logs "" and ends the run; other types change nothing |
| LuaRunner.LuaRunner.OnWorkerError | src/runners/luaRunner.ts:50-54 | logs "Worker uncaught error: …" and ends the run |
| LuaRunner.LuaRunner.OnInputSettled | src/runners/luaRunner.ts:25-33 | a rejection logs "Input Error: …"; one resume with the answer (or no argument) goes to the live worker, if any |
| PythonRunner.SharedRegion.constructor | src/runners/pythonRunner.ts:9-13 | a fresh shared buffer has both words zero and an all-zero byte area |
| PythonRunner.StdinAnswerFits | src/runners/pythonRunner.ts:42-51 | an answer that fits puts its UTF-8 bytes then a line feed at the start of the byte area, sets word 1 to their count and word 0 to 1, and leaves the rest alone |
| PythonRunner.StdinAnswerTooLong | src/runners/pythonRunner.ts:47-55 | an answer whose bytes overflow the area is not written: word 1 is 0, word 0 is 1 and the bytes are untouched |
| PythonRunner.StdinAlwaysReleases | src/runners/pythonRunner.ts:41-56 | every settled stdin request, answered or rejected, releases the worker with the words in range |
| PythonRunner.RunOnlyAfterReady | src/runners/pythonRunner.ts:30-31 | run is posted only in reply to ready and carries the current code; execute itself posts only init |
| PythonRunner.ResolvesOnlyWhenFinished | src/runners/pythonRunner.ts:32-40 | a run resolves only on finished or error; error first logs "Runtime Error: content"; other messages resolve nothing |
| PythonRunner.CancelLeavesRunPending | src/runners/pythonRunner.ts:64-69 | cancel terminates and forgets the worker but resolves nothing |
| PythonRunner.CleanupIdempotent | src/runners/pythonRunner.ts:71-76 | cleanup is cancel plus clearing word 0, and a second cleanup changes nothing |
| PythonRunner.PythonRunner.constructor | src/runners/pythonRunner.ts:9-13 | a fresh runner with a fresh, valid shared region |
| PythonRunner.PythonRunner.Cancel | src/runners/pythonRunner.ts:64-69 | the worker is terminated and forgotten; nothing is resolved |
| PythonRunner.PythonRunner.Cleanup | src/runners/pythonRunner.ts:71-76 | cancel, then word 0 of the shared region is cleared |
| PythonRunner.PythonRunner.Execute | src/runners/pythonRunner.ts:15-60 | after a cleanup, a fresh worker is spawned and sent init with the shared buffer, and the code is kept for its ready |
| PythonRunner.PythonRunner.OnMessage | src/runners/pythonRunner.ts:26-41 | ready posts run with the code; stdout and stderr log; error logs "Runtime Error: …" and resolves; finished resolves; stdin asks for input |
| PythonRunner.PythonRunner.OnStdinSettled | src/runners/pythonRunner.ts:41-56 | the shared region receives the answer's bytes and count when they fit, count 0 otherwise, and word 0 becomes 1 |
| JsWorker.Rendered | src/runners/workers/js-worker.ts:28-39 | one rendered text per argument |
| JsWorker.LogLineShape | src/runners/workers/js-worker.ts:28-39 | a logged line is the rendered arguments with one space between neighbours and a final line feed |
| JsWorker.RenderCases | src/runners/workers/js-worker.ts:32-33 | null and undefined print as null/undefined, and a string prints verbatim |
| JsWorker.Remove | src/runners/workers/js-worker.ts:46-52 | the listeners left after a response all wait for other ids |
| JsWorker.RemoveOnce | src/runners/workers/js-worker.ts:46-52 | with distinct ids, a response removes exactly the listener for its id and keeps every other one |
| JsWorker.JsWorker.constructor | src/runners/workers/js-worker.ts:7 | a fresh worker: abort flag down, no listeners, nothing posted |
| JsWorker.JsWorker.OnMessage | src/runners/workers/js-worker.ts:17-26 | cancel only raises the abort flag; run lowers it and starts; a response wakes that id's listener; anything else is ignored |
| JsWorker.JsWorker.ConsoleLog | src/runners/workers/js-worker.ts:28-39 | posts exactly one log message with the rendered line |
| JsWorker.JsWorker.Input | src/runners/workers/js-worker.ts:41-56 | when aborted, returns "" at once and posts nothing; otherwise registers a listener and posts one request with that id |
| JsWorker.JsWorker.RunSettled | src/runners/workers/js-worker.ts:71-73 | success posts done unless aborted; a throw starts the recovery run |
| JsWorker.JsWorker.RecoverySettled | src/runners/workers/js-worker.ts:75-91 | the recovery logs "Runtime error: ..." or sends error, and the run posts at most one ending |
| LuaWorker.Texts | src/runners/workers/lua-worker.ts:10-26 | one text per value |
| LuaWorker.PrintAndWrite | src/runners/workers/lua-worker.ts:72-90 | print joins the texts with tabs and ends the line; io.write concatenates them |
| LuaWorker.NilAndUnprintable | src/runners/workers/lua-worker.ts:10-26 | nil prints as nil, and a value nothing converts prints as <unprintable> |
| LuaWorker.DoneCountAppend | src/runners/workers/lua-worker.ts:122-151 | done messages of a concatenated trace add up |
| LuaWorker.LuaWorker.constructor | src/runners/workers/lua-worker.ts:28-31 | a fresh worker: no abort, no pending resume, nothing posted |
| LuaWorker.LuaWorker.Send | src/runners/workers/lua-worker.ts:6-8 | appends the messages to the posted trace and counts their done messages |
| LuaWorker.LuaWorker.OnMessage | src/runners/workers/lua-worker.ts:33-63 | run loads and resumes the code, or reports the syntax error and done; resume continues a yield; cancel raises the abort flag; terminate closes |
| LuaWorker.LuaWorker.Hook | src/runners/workers/lua-worker.ts:65-70 | the hook raises "execution cancelled" exactly when the abort flag is up, and changes no state itself; what the raise leads to is decided by the interpreter |
| LuaWorker.LuaWorker.CancelWhileWaiting | src/runners/workers/lua-worker.ts:33-70 | a cancel during an input wait, then the resume: the next hook raises, and when that raise reaches `lua_resume` uncaught the run ends with the cancellation's "Runtime Error" log and exactly one more done |
| LuaWorker.LuaWorker.Print | src/runners/workers/lua-worker.ts:72-80 | posts one log message with the print line |
| LuaWorker.LuaWorker.Write | src/runners/workers/lua-worker.ts:82-90 | posts one log message with the concatenated texts |
| LuaWorker.LuaWorker.Yield | src/runners/workers/lua-worker.ts:124-136 | a yield fills the resolver slot and posts one input request |
| LuaWorker.LuaWorker.Finish | src/runners/workers/lua-worker.ts:138-151 | an error status or a throw posts a log "Runtime Error: …" and then done, success posts done alone; every run posts exactly one done |
| PythonWorker.SendKeepsWritten | src/runners/workers/python-worker.ts:19-33 | posting a whole buffer moves its bytes into the posted chunks, and the stream's bytes stay in order |
| PythonWorker.ReadStdin | src/runners/workers/python-worker.ts:71-76 | the read has exactly word-1 bytes: none when word 1 is 0 |
| PythonWorker.StdinRoundTrip | src/runners/workers/python-worker.ts:59-76 | after the page handles a stdin request the worker is released and reads the answer's UTF-8 bytes and a line feed when they fit, and nothing otherwise |
| PythonWorker.PythonWorker.constructor | src/runners/workers/python-worker.ts:3-6 | a fresh worker with no interpreter and no region |
| PythonWorker.PythonWorker.InitInterpreter | src/runners/workers/python-worker.ts:8-17 | initialisation makes fresh, empty output buffers |
| PythonWorker.PythonWorker.Post | src/runners/workers/python-worker.ts:89 | posts one non-output message and leaves the buffers alone |
| PythonWorker.PythonWorker.OnInit | src/runners/workers/python-worker.ts:84-89 | init keeps the region, loads the interpreter and then posts ready |
| PythonWorker.PythonWorker.OnRun | src/runners/workers/python-worker.ts:90-93 | run loads the interpreter first if needed; the code starts exactly when an interpreter is available |
| PythonWorker.PythonWorker.SendBuffer | src/runners/workers/python-worker.ts:19-33 | posts the whole buffer of a stream as one chunk and empties it |
| PythonWorker.PythonWorker.Write | src/runners/workers/python-worker.ts:35-57 | a byte is buffered and a line feed posts the buffer; the stream's posted chunks followed by its buffer grow by exactly that byte, the other stream's stay as they were, and the recorded history of written bytes grows the same way |
| PythonWorker.PythonWorker.Flush | src/runners/workers/python-worker.ts:19-33 | an empty buffer posts nothing; otherwise its bytes go out as one chunk |
| PythonWorker.PythonWorker.Stdin | src/runners/workers/python-worker.ts:59-69 | without a region the read is "" at once; otherwise both buffers are flushed, stdin is posted and the worker waits |
| PythonWorker.PythonWorker.Poll | src/runners/workers/python-worker.ts:68-76 | while word 0 is 0 the worker stays blocked; otherwise it resets word 0 and reads word-1 bytes |
| PythonWorker.PythonWorker.FinishRun | src/runners/workers/python-worker.ts:93-97 | a run ends with finished on success or error with the message |
| Common.LeadingSpace | src/components/editor/CodeEditor.tsx:174-176 | the leading whitespace run is a prefix of all-space characters followed by a non-space or the end |
| Common.TrimEmptyIff | src/App.tsx:77 | code.trim() is empty exactly when the code is all whitespace |
| Common.TrimIdempotent | src/App.tsx:60 | trimming twice is trimming once |
| Common.Split | src/components/editor/HighlightOverlay.tsx:48 | split always yields at least one piece, and no piece holds a line feed |
| Common.SplitCount | src/components/editor/CodeEditor.tsx:72 | the number of pieces is one more than the number of line feeds |
| Common.JoinSplit | src/components/editor/CodeEditor.tsx:126-160 | joining the pieces of a split gives back the text |
| Common.SplitJoin | src/components/editor/CodeEditor.tsx:126-160 | splitting the join of lines free of line feeds gives back the lines |
| Common.SplitAppend | src/components/editor/CodeEditor.tsx:127-128 | the split of a concatenation is the two splits with the boundary pieces joined |
| Common.JoinLine | src/components/editor/HighlightOverlay.tsx:50-58 | line i of a joined text sits at its offset and is followed by a line feed or the end |
| Common.Contains | src/components/editor/workers/syntax-worker.ts:18 | includes is true exactly when the key occurs at some index |
| Common.Utf8Char | src/runners/pythonRunner.ts:44-45 | one to four bytes per character: one byte exactly for ASCII, otherwise a lead byte and continuation bytes |
| Common.Utf8Append | src/runners/pythonRunner.ts:44-45 | the encoding of a concatenation is the concatenation of the encodings |
| Common.Utf8WithNewline | src/runners/pythonRunner.ts:45 | appending a line feed appends the single byte 10 |
| Common.JoinWithLength | src/runners/workers/lua-worker.ts:78 | a join holds every part and one separator between neighbours |
| CodeEditor.CaretLineCountsNewlines | src/components/editor/CodeEditor.tsx:67-74 | the caret's line is one more than the line feeds before the caret |
| CodeEditor.CaretPosition | src/components/editor/CodeEditor.tsx:126-128 | the caret lies on line CaretLine-1 of the split, at the column of the text before it on that line |
| CodeEditor.CaretLineMonotone | src/components/editor/CodeEditor.tsx:127-128 | the selection's end line is never before its start line |
| CodeEditor.CollapsedTab | src/components/editor/CodeEditor.tsx:130-136 | Tab or Shift-Tab with a collapsed caret inserts two spaces and puts the caret after them |
| CodeEditor.IndentKeepsOtherLines | src/components/editor/CodeEditor.tsx:153-167 | Tab over a selection prefixes two spaces to exactly the lines from the start line to the end line |
| CodeEditor.DedentKeepsOtherLines | src/components/editor/CodeEditor.tsx:138-152 | Shift-Tab removes two leading spaces from exactly the selected lines that have them |
| CodeEditor.IndentSelection | src/components/editor/CodeEditor.tsx:163-165 | after an indent the selection grows by two at the start and by two per indented line at the end, so it surrounds the same text |
| CodeEditor.EnterMovesToNextLine | src/components/editor/CodeEditor.tsx:172-182 | Enter replaces the selection with a line feed and the current line's leading whitespace, and puts the caret after them |
| CodeEditor.TotalLines | src/components/editor/CodeEditor.tsx:185-186 | the gutter shows the larger of the content line count and the minimum |
| CodeEditor.CeilDiv | src/components/editor/CodeEditor.tsx:58 | the ceiling of the quotient: the least multiple of the divisor not below the dividend |
| CodeEditor.MinLinesFor | src/components/editor/CodeEditor.tsx:55-61 | the least positive line count whose height covers the available height |
| CodeEditor.Editor.constructor | src/components/editor/CodeEditor.tsx:25-26 | the editor starts on line 1 with a one-line minimum |
| CodeEditor.Editor.UpdateCurrentLine | src/components/editor/CodeEditor.tsx:67-74 | the current line becomes one more than the line feeds before the caret |
| CodeEditor.Editor.UpdateMinLines | src/components/editor/CodeEditor.tsx:55-61 | minLines becomes MinLinesFor of the height, at least 1 |
| CodeEditor.Editor.HandleKeyDown | src/components/editor/CodeEditor.tsx:119-183 | Tab and Enter replace the text by the edit and schedule the caret; any other key changes nothing |
| HighlightOverlay.TokenColorsDistinct | src/components/editor/HighlightOverlay.tsx:14-24 | within a theme the five highlighted classes and the default have six different colours, and the themes share none |
| HighlightOverlay.LineStartOffsets | src/components/editor/HighlightOverlay.tsx:50-58 | one offset per line, each equal to where that line starts in the code |
| HighlightOverlay.OffsetsIncrease | src/components/editor/HighlightOverlay.tsx:50-58 | the offsets start at 0 and grow by at least each line's length plus one |
| HighlightOverlay.OffsetsLocateLines | src/components/editor/HighlightOverlay.tsx:48-58 | each offset is where its line sits in the code |
| HighlightOverlay.LineTokensMembers | src/components/editor/HighlightOverlay.tsx:64-75 | a line's list holds exactly the tokens that touch it |
| HighlightOverlay.TokensByLine | src/components/editor/HighlightOverlay.tsx:60-78 | every line's list is the tokens touching it in token order; only lines with a token get an entry |
| HighlightOverlay.SortByLengthCorrect | src/components/editor/HighlightOverlay.tsx:94 | the sort puts longer tokens first and is a permutation |
| HighlightOverlay.Paint | src/components/editor/HighlightOverlay.tsx:96-105 | each character gets the class of the last painted token that covers it |
| HighlightOverlay.ShortestWins | src/components/editor/HighlightOverlay.tsx:94-105 | with longest-first order, a character is unpainted exactly when no token covers it, and otherwise gets a shortest covering token's class |
| HighlightOverlay.ShortestCovering | src/components/editor/HighlightOverlay.tsx:94-105 | the same as ShortestWins, stated on the tokens rather than on their positions |
| HighlightOverlay.Segment | src/components/editor/HighlightOverlay.tsx:107-133 | the spans show the line's text with each character's class, as maximal runs |
| HighlightOverlay.RenderLine | src/components/editor/HighlightOverlay.tsx:80-135 | an empty line shows the placeholder; otherwise the spans show the text painted from that line's tokens |
| HighlightOverlay.RenderLines | src/components/editor/HighlightOverlay.tsx:80-142 | one rendered line per code line, each showing the tokens that touch it |
| HighlightOverlay.PaintedCharacter | src/components/editor/HighlightOverlay.tsx:48-142 | a character of the code is painted with the class of a shortest token covering it, or unpainted when none does |
| HighlightOverlay.SortedMembers | src/components/editor/HighlightOverlay.tsx:94 | sorting keeps exactly the tokens it was given |
| SyntaxWorker.GetNodeTypeClasses | src/components/editor/workers/syntax-worker.ts:13-20 | each exact-name class is exactly its list; keyword means in no list and holding a keyword part; default is the rest |
| SyntaxWorker.KeywordsAreExactlyKeywordParts | src/components/editor/workers/syntax-worker.ts:13-20 | no exact-list name holds a keyword part, so a type paints as a keyword exactly when it holds one |
| SyntaxWorker.Preorder | src/components/editor/workers/syntax-worker.ts:22-55 | the preorder starts with the node itself |
| SyntaxWorker.PreorderCountsNodes | src/components/editor/workers/syntax-worker.ts:22-55 | the preorder lists as many entries as the tree has nodes |
| SyntaxWorker.TokensOfSound | src/components/editor/workers/syntax-worker.ts:28-38 | every token comes from a named, highlighted node with that node's span, and every such node gives one |
| SyntaxWorker.TreeCursor.GotoFirstChild | src/components/editor/workers/syntax-worker.ts:40 | descends exactly when the node has children |
| SyntaxWorker.TreeCursor.GotoNextSibling | src/components/editor/workers/syntax-worker.ts:41 | moves right exactly when a right sibling exists |
| SyntaxWorker.TreeCursor.GotoParent | src/components/editor/workers/syntax-worker.ts:43-51 | moves up exactly when not at the root |
| SyntaxWorker.Retrace | src/components/editor/workers/syntax-worker.ts:43-51 | climbing stops at the next unvisited subtree, whose preorder then starts the rest, or at the root with nothing left |
| SyntaxWorker.Advance | src/components/editor/workers/syntax-worker.ts:40-51 | moves to the next node in preorder, or reports the walk finished when nothing is left |
| SyntaxWorker.GetTokens | src/components/editor/workers/syntax-worker.ts:22-55 | the cursor walk emits exactly the tokens of the tree's nodes in preorder |
| SyntaxWorker.Highlighter.constructor | src/components/editor/workers/syntax-worker.ts:8-11 | no parser, no grammar, empty cache, nothing posted |
| SyntaxWorker.Highlighter.Init | src/components/editor/workers/syntax-worker.ts:61-68 | a successful init replaces the parser with one set to no grammar and posts READY, keeping the current id and the cache; a failure changes nothing |
| SyntaxWorker.Highlighter.LoadLang | src/components/editor/workers/syntax-worker.ts:70-81 | a cached grammar is reused, a loaded one is cached; the parser switches to the grammar and the language becomes current, and a failed load changes nothing |
| SyntaxWorker.Highlighter.Parse | src/components/editor/workers/syntax-worker.ts:83-96 | with a parser set to a grammar and the asked language current it posts that tree's tokens; otherwise it posts nothing, the parse failure without a grammar being swallowed |
| SyntaxWorker.Highlighter.ReinitThenParse | src/components/editor/workers/syntax-worker.ts:61-96 | LOAD_LANG, a second INIT, then PARSE of that language: LANG_LOADED (when the grammar is there) and READY are posted, and no tokens |

## Left out

- The interpreters are oracles: JavaScript's `Function`, fengari's Lua and Pyodide's Python. The
  model does not evaluate user code. It takes each result as a parameter: whether the code
  throws, the status `lua_resume` returns, and the bytes Python writes.
- Message transport between page and workers is not modelled, nor is parallelism. A worker
  message is a method call on the receiving side, and only the live worker's messages reach a
  runner. A terminated worker delivers nothing.
- `Atomics.wait` and `Atomics.notify` are modelled as the `Poll` method, one look at word 0 at a
  time. The blocking itself is not modelled.
- UTF-8 decoding (`TextDecoder`) is not modelled: the worker's read is stated on bytes.
- Strings are sequences of Unicode scalar values. JavaScript strings are sequences of UTF-16
  code units: the editor's caret and selection offsets, the tokens' `start`/`end` and
  `length` count code units, so text outside the Basic Multilingual Plane has different
  offsets in the model, and lone surrogates cannot be represented.
- The syntax worker's `onmessage` handler is `async`: a LOAD_LANG waiting on
  `Language.load` can let a later INIT, LOAD_LANG or PARSE run before it resumes. The model
  handles each message to completion, with the loaded grammar as a parameter.
- `JSON.stringify` is abstracted to its possible outcomes: text, `undefined` or a throw.
- `Math.random` ids for input requests are parameters. Their freshness is a precondition of
  `JsWorker.JsWorker.Input`.
- The tree-sitter parser and grammar loading are parameters of `Highlighter`, and the parse
  tree is a `Node` value. `getTokens`'s `tree.walk()` is the `TreeCursor` class.
- `sessionStorage` is a map field. JSON (de)serialisation of the saved map is not modelled.
  The map is stored as a value.
- React is not modelled: batching and re-rendering, DOM measurement, `scrollToCaret`,
  `requestAnimationFrame`, the theme hook and `getLineStyle`. The caret move after a key is
  recorded as a scheduled selection, not executed.
- The `catch` blocks around message handling are left out. These are
  `src/runners/javascriptRunner.ts:68-70`, `src/runners/luaRunner.ts:45-47` and
  `src/components/editor/workers/syntax-worker.ts:94-96`. Each only logs the error's message,
  a text of the JavaScript engine.
- HighlightOverlay.SortByLengthCorrect: the model sorts with an insertion sort that is stable;
  the engine's `Array.prototype.sort` is also stable, but its algorithm is not modelled.
- Each worker handles one run. A second `run` to the same JavaScript or Python worker is never
  sent, because `execute` always makes a new worker. It is a precondition of the workers'
  `OnMessage`/`OnRun`.
- `runners[languageId]` in `src/lib/evalCode.ts` would also find keys of `Object.prototype`.
  EvalCode.RunnerFor treats only own keys as runners.
- LuaWorker.LuaWorker.OnMessage: the abort flag is raised by `cancel` and never lowered, as in
  the source. The worker is terminated right after, so nothing depends on it.
- LuaWorker.LuaWorker.Hook: whether the raise ends the run is left to the interpreter. User
  code may catch it with `pcall` or an inner `coroutine.resume` and run on; only a raise that
  unwinds to `lua_resume` reaches `Finish` as an error status.
- LuaWorker.LuaWorker.CancelWhileWaiting: models only the run in which the first hook after
  the resume raises uncaught. The run may instead finish, yield again or catch the raise
  first. `cancel` in `src/runners/luaRunner.ts:61-72` terminates the worker right after
  posting `cancel`, so this path only decides what the worker might still post.
- JsWorker.JsWorker.RecoverySettled: after a throw the worker runs the code again inside a
  `try`. The model takes only the outcome of that second run, not what it logs again.
- LuaRunner.CancelOnce: `cancel` does not clear `pendingDone`, which later calls may still
  see; the model keeps that field as written.
- A stale input continuation posts to whichever worker is current when its input settles. The
  JavaScript and Lua models post to the live worker, or drop the message when there is none.
- PythonWorker.PythonWorker.FinishRun: bytes still buffered without a line feed at the end of a
  run are not flushed, as in the source, and never reach the page.
- App.Page.ResolveInput: which runner promise a delivered answer settles is recorded only as
  the request number.
- App.Page.HandleCancel: the page passes `handleCancel` to `OutputConsole` as `onCancel`
  (`src/App.tsx:153`), but `OutputConsole` only declares that prop
  (`src/components/console/OutputConsole.tsx:9`) and never calls it. No user action reaches
  this handler, so `App.CancelStops` describes a path the interface does not offer.
- App.Page.RunReturned: a late continuation of an earlier `runCode` clears `isRunning` even if
  a later run is in progress, as in the source. The page invariant does not relate
  `isRunning` to the dispatcher.
- App.LaterRequestTakesSlot: an input request overwritten by a later one is never settled, as
  in the source. This is stated, not prevented.
- The `beforeunload` handler in `src/App.tsx` is left out, as are the settings panel and theme
  toggle. None of them touches the playground's state.
