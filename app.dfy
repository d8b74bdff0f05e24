/** The page's handlers (src/App.tsx): the console text, the run/stop toggle, the one-slot
    input resolver, the language switch and the effects that keep session storage in step.
    Calls into the dispatcher are recorded rather than performed; the dispatcher is modelled
    on its own. React's batching of state updates is not modelled: every handler's updates
    take effect together, and an effect runs right after the update that triggers it. */
module App {
  import opened Common
  import opened Languages
  import opened SavedCodes

  /** A call from a handler into src/lib/evalCode.ts. */
  datatype Call = SafeEval(languageId: string, code: string) | CancelExecution | CleanupAllRunners

  /** The settling of the input promise made for request `request` with `value`. */
  datatype Delivery = Delivery(request: nat, value: string)

  /** The component's state slots, the `resolveInputRef` slot (the request whose promise it
      resolves), the inputs delivered so far, the dispatcher calls made so far, the stored
      code map and the stored language id. */
  datatype AppState = AppState(
    language: Language,
    code: string,
    output: string,
    isRunning: bool,
    inputPrompt: Option<string>,
    slot: Option<nat>,
    delivered: seq<Delivery>,
    calls: seq<Call>,
    codes: Option<Codes>,
    sessionLanguage: string)

  const ReadyText := "> Ready...\n"

  /** The language the page starts with: the stored one when it names a language of the
      table, the first entry otherwise (an empty stored id counts as none). */
  function InitialLanguage(saved: Option<string>): Language {
    var found := if saved.Some? && saved.value != "" then GetLanguageById(saved.value) else None;
    if found.Some? then found.value else LANGUAGES[0]
  }

  lemma InitialLanguageChoice(saved: Option<string>)
    ensures InitialLanguage(saved) in LANGUAGES
    ensures saved.Some? && IsKnownId(saved.value) ==> InitialLanguage(saved).id == saved.value
    ensures saved.None? || !IsKnownId(saved.value) ==> InitialLanguage(saved) == LANGUAGES[0]
  {
    FirstIsJavaScript();
    if saved.Some? && IsKnownId(saved.value) {
      var k :| 0 <= k < |LANGUAGES| && LANGUAGES[k].id == saved.value;
      LookupOfEntry(k);
    }
  }

  /** The state after the first render and its effects: the initial language and its code,
      that code saved back, the language id stored, and `> Ready...` on the console. */
  function Initial(savedLanguage: Option<string>, codes: Option<Codes>): AppState {
    var lang := InitialLanguage(savedLanguage);
    var code := GetCodeForLanguage(codes, lang.id);
    AppState(lang, code, ReadyText, false, None, None, [], [], Some(Saved(codes, lang.id, code)), lang.id)
  }

  /** The function `resolveInputRef` holds, called through `?.`: with a request waiting, its
      promise settles with the trimmed value, the prompt goes away and the slot empties;
      with none, nothing happens. */
  function ResolveSlot(s: AppState, value: string): AppState {
    if s.slot.Some? then
      s.(delivered := s.delivered + [Delivery(s.slot.value, Trim(value))], inputPrompt := None, slot := None)
    else s
  }

  /** `handleInputRequest`: the prompt argument is ignored; an empty prompt is shown and the
      slot now holds this request, replacing any request already there. */
  function AfterInputRequest(s: AppState, request: nat): AppState {
    s.(inputPrompt := Some(""), slot := Some(request))
  }

  /** `runCode` up to its `await`. */
  function AfterRunCode(s: AppState): AppState {
    if s.isRunning then
      ResolveSlot(s.(calls := s.calls + [CancelExecution],
                     output := s.output + "^C\n> Interrupted by user\n",
                     isRunning := false, inputPrompt := None), "")
    else if Trim(s.code) == "" then s
    else
      s.(isRunning := true,
         output := ReadyText + "> Running " + s.language.name + "...\n",
         calls := s.calls + [SafeEval(s.language.id, s.code)])
  }

  /** The rest of `runCode` once `safeEval` returns. */
  function AfterRunReturned(s: AppState): AppState {
    s.(isRunning := false)
  }

  /** `handleCancel`. */
  function AfterCancel(s: AppState): AppState {
    var r := ResolveSlot(s.(calls := s.calls + [CleanupAllRunners], isRunning := false, inputPrompt := None), "");
    r.(output := r.output + "^C\n> Interrupted\n")
  }

  /** `handleInputSubmit`: echo the value and a line feed, then resolve. */
  function AfterInputSubmit(s: AppState, value: string): AppState {
    ResolveSlot(s.(output := s.output + value + "\n"), value)
  }

  /** The `onLog` callback handed to `safeEval`. */
  function AfterLog(s: AppState, text: string): AppState {
    s.(output := s.output + text)
  }

  /** The editor's `onChange`, followed by the effect on `code`, which saves only when the
      text changed. */
  function AfterEdit(s: AppState, code: string): AppState {
    if code == s.code then s
    else s.(code := code, codes := Some(Saved(s.codes, s.language.id, code)))
  }

  /** `handleLanguageChange`, followed by the effects on the language and the code. */
  function AfterLanguageChange(s: AppState, lang: Language): AppState {
    if s.isRunning || lang.id == s.language.id then s
    else
      var loaded := GetCodeForLanguage(s.codes, lang.id);
      s.(language := lang, code := loaded, output := ReadyText, sessionLanguage := lang.id,
         codes := if loaded != s.code then Some(Saved(s.codes, lang.id, loaded)) else s.codes)
  }

  /** Everything the user, the dispatcher and React's effects can do to the page. */
  datatype Event =
    | LanguageChange(lang: Language)
    | Edit(code: string)
    | InputRequest(request: nat)
    | RunCode
    | RunReturned
    | Cancel
    | InputSubmit(value: string)
    | LogText(text: string)

  /** The sidebar offers only languages of the table. */
  predicate Enabled(e: Event) {
    e.LanguageChange? ==> e.lang in LANGUAGES
  }

  function Step(s: AppState, e: Event): AppState {
    match e
    case LanguageChange(lang) => AfterLanguageChange(s, lang)
    case Edit(code) => AfterEdit(s, code)
    case InputRequest(r) => AfterInputRequest(s, r)
    case RunCode => AfterRunCode(s)
    case RunReturned => AfterRunReturned(s)
    case Cancel => AfterCancel(s)
    case InputSubmit(v) => AfterInputSubmit(s, v)
    case LogText(t) => AfterLog(s, t)
  }

  /** The prompt is shown exactly while a request waits in the slot, and it is then empty;
      the language is one of the table and is the one stored; the editor holds what storage
      gives for that language. */
  predicate Inv(s: AppState) {
    && (s.slot.Some? <==> s.inputPrompt.Some?)
    && (s.inputPrompt.Some? ==> s.inputPrompt.value == "")
    && s.language in LANGUAGES
    && s.sessionLanguage == s.language.id
    && GetCodeForLanguage(s.codes, s.language.id) == s.code
  }

  lemma InitialInv(savedLanguage: Option<string>, codes: Option<Codes>)
    ensures Inv(Initial(savedLanguage, codes))
  {
    InitialLanguageChoice(savedLanguage);
    var lang := InitialLanguage(savedLanguage);
    SaveThenLoad(codes, lang.id, GetCodeForLanguage(codes, lang.id));
  }

  lemma StepKeepsInv(s: AppState, e: Event)
    requires Inv(s) && Enabled(e)
    ensures Inv(Step(s, e))
  {
    match e
    case LanguageChange(lang) =>
      var loaded := GetCodeForLanguage(s.codes, lang.id);
      SaveThenLoad(s.codes, lang.id, loaded);
    case Edit(code) =>
      SaveThenLoad(s.codes, s.language.id, code);
    case _ =>
  }

  /** Resolving empties the slot and hides the prompt; it settles exactly one promise, the
      waiting one, with the trimmed text, or none when the slot is empty, so a second resolve
      does nothing. */
  lemma ResolveSlotOnce(s: AppState, value: string, again: string)
    ensures var r := ResolveSlot(s, value);
      && r.slot.None?
      && (s.slot.Some? ==> r.inputPrompt.None? && r.delivered == s.delivered + [Delivery(s.slot.value, Trim(value))])
      && (s.slot.None? ==> r == s)
      && ResolveSlot(r, again) == r
  {
  }

  /** A request followed by a submission: the console shows the typed value and a line feed,
      the request's promise settles with the trimmed value, and the prompt and slot are
      cleared. */
  lemma InputRoundTrip(s: AppState, request: nat, value: string)
    ensures var r := AfterInputSubmit(AfterInputRequest(s, request), value);
      && r.output == s.output + value + "\n"
      && r.delivered == s.delivered + [Delivery(request, Trim(value))]
      && r.inputPrompt.None? && r.slot.None?
  {
  }

  /** A second request made before the first is answered takes over the slot: the next
      submission settles only the second, and nothing is left to settle the first. */
  lemma LaterRequestTakesSlot(s: AppState, first: nat, second: nat, value: string)
    requires first != second
    ensures var r := AfterInputSubmit(AfterInputRequest(AfterInputRequest(s, first), second), value);
      && r.delivered == s.delivered + [Delivery(second, Trim(value))]
      && r.slot.None?
  {
  }

  /** `runCode` while running is a stop: one `cancelExecution`, the interruption marker on the
      console, not running, no prompt, and a waiting input settled with the empty string. */
  lemma RunWhileRunningInterrupts(s: AppState)
    requires s.isRunning
    ensures var r := AfterRunCode(s);
      && r.calls == s.calls + [CancelExecution]
      && r.output == s.output + "^C\n> Interrupted by user\n"
      && !r.isRunning && r.inputPrompt.None? && r.slot.None?
      && r.delivered == s.delivered + (if s.slot.Some? then [Delivery(s.slot.value, "")] else [])
  {
    assert Trim("") == "";
  }

  /** `runCode` on code that is only whitespace does nothing at all. */
  lemma BlankCodeDoesNothing(s: AppState)
    requires !s.isRunning && AllSpace(s.code)
    ensures AfterRunCode(s) == s
  {
    TrimEmptyIff(s.code);
  }

  /** `runCode` on code with something in it replaces the console text with the two ready
      lines, marks the page running and calls `safeEval` once with the current language and
      code; when `safeEval` returns, the page is no longer running. */
  lemma RunStarts(s: AppState)
    requires !s.isRunning && !AllSpace(s.code)
    ensures var r := AfterRunCode(s);
      && r.isRunning
      && r.output == ReadyText + "> Running " + s.language.name + "...\n"
      && r.calls == s.calls + [SafeEval(s.language.id, s.code)]
      && r.slot == s.slot && r.delivered == s.delivered
      && !AfterRunReturned(r).isRunning
  {
    TrimEmptyIff(s.code);
  }

  /** `handleCancel` always stops: one `cleanupAllRunners`, not running, no prompt, a waiting
      input settled with the empty string, and `^C` and `> Interrupted` appended. */
  lemma CancelStops(s: AppState)
    ensures var r := AfterCancel(s);
      && r.calls == s.calls + [CleanupAllRunners]
      && r.output == s.output + "^C\n> Interrupted\n"
      && !r.isRunning && r.inputPrompt.None? && r.slot.None?
      && r.delivered == s.delivered + (if s.slot.Some? then [Delivery(s.slot.value, "")] else [])
  {
    assert Trim("") == "";
  }

  /** A language change is ignored while running or when the language is the current one;
      otherwise the page switches, shows that language's stored code (or its starter code)
      and resets the console. */
  lemma LanguageChangeRules(s: AppState, lang: Language)
    ensures s.isRunning || lang.id == s.language.id ==> AfterLanguageChange(s, lang) == s
    ensures !s.isRunning && lang.id != s.language.id ==>
      var r := AfterLanguageChange(s, lang);
      && r.language == lang && r.output == ReadyText && r.sessionLanguage == lang.id
      && r.code == GetCodeForLanguage(s.codes, lang.id)
      && r.calls == s.calls && r.slot == s.slot
  {
  }

  /** Editing, switching to another language and switching back brings the edited text back:
      each language keeps its own code across switches. */
  lemma SwitchBackRestoresCode(s: AppState, other: Language, code: string)
    requires Inv(s) && !s.isRunning && other.id != s.language.id
    ensures var t := AfterLanguageChange(AfterLanguageChange(AfterEdit(s, code), other), s.language);
      && t.language == s.language && t.code == code
  {
    var e := AfterEdit(s, code);
    if code != s.code {
      SaveThenLoad(s.codes, s.language.id, code);
    }
    assert GetCodeForLanguage(e.codes, s.language.id) == code;
    var loaded := GetCodeForLanguage(e.codes, other.id);
    if loaded != e.code {
      SaveKeepsOthers(e.codes, other.id, loaded, s.language.id);
    }
  }

  /** The component: its state slots, the resolver ref, and session storage. */
  class Page {
    var language: Language
    var code: string
    var output: string
    var isRunning: bool
    var inputPrompt: Option<string>
    var slot: Option<nat>
    var delivered: seq<Delivery>
    var calls: seq<Call>
    var sessionLanguage: string
    const store: SessionStore

    function State(): AppState
      reads this, store
    {
      AppState(language, code, output, isRunning, inputPrompt, slot, delivered, calls, store.item, sessionLanguage)
    }

    /** The first render and its effects, over the given session storage. */
    constructor (savedLanguage: Option<string>, store: SessionStore)
      modifies store
      ensures this.store == store
      ensures State() == Initial(savedLanguage, old(store.item))
    {
      var lang := InitialLanguage(savedLanguage);
      var initial := store.InitialCode(lang, lang);
      language := lang;
      code := initial;
      output := ReadyText;
      isRunning := false;
      inputPrompt := None;
      slot := None;
      delivered := [];
      calls := [];
      sessionLanguage := lang.id;
      this.store := store;
      new;
      store.SaveCodeForCurrentLanguage(lang.id, initial);
    }

    method ResolveInput(value: string)
      modifies this
      ensures State() == ResolveSlot(old(State()), value)
    {
      if slot.Some? {
        delivered := delivered + [Delivery(slot.value, Trim(value))];
        inputPrompt := None;
        slot := None;
      }
    }

    method HandleInputRequest(request: nat)
      modifies this
      ensures State() == AfterInputRequest(old(State()), request)
    {
      inputPrompt := Some("");
      slot := Some(request);
    }

    /** `runCode` up to the `await` of `safeEval`. */
    method RunCode()
      modifies this
      ensures State() == AfterRunCode(old(State()))
    {
      if isRunning {
        calls := calls + [CancelExecution];
        output := output + "^C\n> Interrupted by user\n";
        isRunning := false;
        inputPrompt := None;
        ResolveInput("");
        return;
      }
      if Trim(code) == "" {
        return;
      }
      isRunning := true;
      output := ReadyText + "> Running " + language.name + "...\n";
      calls := calls + [SafeEval(language.id, code)];
    }

    method RunReturned()
      modifies this
      ensures State() == AfterRunReturned(old(State()))
    {
      isRunning := false;
    }

    method HandleCancel()
      modifies this
      ensures State() == AfterCancel(old(State()))
    {
      calls := calls + [CleanupAllRunners];
      isRunning := false;
      inputPrompt := None;
      ResolveInput("");
      output := output + "^C\n> Interrupted\n";
    }

    method HandleInputSubmit(value: string)
      modifies this
      ensures State() == AfterInputSubmit(old(State()), value)
    {
      output := output + value + "\n";
      ResolveInput(value);
    }

    method OnLog(text: string)
      modifies this
      ensures State() == AfterLog(old(State()), text)
    {
      output := output + text;
    }

    method OnEdit(newCode: string)
      modifies this, store
      ensures State() == AfterEdit(old(State()), newCode)
    {
      if newCode != code {
        code := newCode;
        store.SaveCodeForCurrentLanguage(language.id, newCode);
      }
    }

    method HandleLanguageChange(lang: Language)
      modifies this, store
      ensures State() == AfterLanguageChange(old(State()), lang)
    {
      if isRunning || lang.id == language.id {
        return;
      }
      var previous := code;
      language := lang;
      var loaded := store.LoadCodeForLanguage(lang);
      code := loaded;
      output := ReadyText;
      sessionLanguage := lang.id;
      if loaded != previous {
        store.SaveCodeForCurrentLanguage(lang.id, loaded);
      }
    }
  }
}
