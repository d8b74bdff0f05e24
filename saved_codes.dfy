/** Per-language source text kept in session storage under one key, as a map from language
    id to code. The stored JSON is abstracted to the map it encodes; a missing item is `None`. */
module SavedCodes {
  import opened Common
  import opened Languages

  type Codes = map<string, string>

  /** `getSavedCodes`: the parsed item, or the empty map when nothing is stored. */
  function GetSavedCodes(item: Option<Codes>): Codes {
    match item
    case None => map[]
    case Some(codes) => codes
  }

  /** `getCodeForLanguage`: `saved[langId] ?? getLanguageById(langId)?.defaultCode ?? ''`. */
  function GetCodeForLanguage(item: Option<Codes>, langId: string): string {
    var saved := GetSavedCodes(item);
    if langId in saved then saved[langId]
    else match GetLanguageById(langId)
      case Some(lang) => (match lang.defaultCode case Some(code) => code case None => "")
      case None => ""
  }

  /** The stored map after `saveCodeForCurrentLanguage(code)` with `currentId` current. */
  function Saved(item: Option<Codes>, currentId: string, code: string): (r: Codes)
    ensures currentId in r && r[currentId] == code
    ensures forall k :: k != currentId ==> (k in r <==> k in GetSavedCodes(item))
    ensures forall k :: k != currentId && k in r ==> r[k] == GetSavedCodes(item)[k]
  {
    GetSavedCodes(item)[currentId := code]
  }

  /** The three-way fallback of the lookup: saved text, else the language's starter code,
      else the empty string. */
  lemma LookupFallback(item: Option<Codes>, langId: string)
    ensures langId in GetSavedCodes(item) ==> GetCodeForLanguage(item, langId) == GetSavedCodes(item)[langId]
    ensures langId !in GetSavedCodes(item) && IsKnownId(langId) ==>
      Some(GetCodeForLanguage(item, langId)) == GetLanguageById(langId).value.defaultCode
    ensures langId !in GetSavedCodes(item) && !IsKnownId(langId) ==> GetCodeForLanguage(item, langId) == ""
    ensures item.None? ==> langId !in GetSavedCodes(item)
  {
    if langId !in GetSavedCodes(item) && IsKnownId(langId) {
      EveryEntryHasDefaultCode();
    }
  }

  /** With nothing stored, every language starts from its starter code. */
  lemma EmptyStorageGivesDefaults(k: nat)
    requires k < |LANGUAGES|
    ensures Some(GetCodeForLanguage(None, LANGUAGES[k].id)) == LANGUAGES[k].defaultCode
  {
    LookupOfEntry(k);
    EveryEntryHasDefaultCode();
  }

  /** Saving code for a language and then looking that language up returns the saved code. */
  lemma SaveThenLoad(item: Option<Codes>, currentId: string, code: string)
    ensures GetCodeForLanguage(Some(Saved(item, currentId, code)), currentId) == code
  {
  }

  /** Saving for one language leaves the lookup of every other language as it was. */
  lemma SaveKeepsOthers(item: Option<Codes>, currentId: string, code: string, other: string)
    requires other != currentId
    ensures GetCodeForLanguage(Some(Saved(item, currentId, code)), other) == GetCodeForLanguage(item, other)
  {
  }

  /** `sessionStorage`, as far as the saved codes are concerned. */
  class SessionStore {
    var item: Option<Codes>

    constructor (item: Option<Codes>)
      ensures this.item == item
    {
      this.item := item;
    }

    /** `loadCodeForLanguage(lang)`. */
    function LoadCodeForLanguage(lang: Language): string
      reads this
    {
      GetCodeForLanguage(item, lang.id)
    }

    /** `initialCode`, computed by whichever branch the two languages select. */
    function InitialCode(current: Language, default: Language): string
      reads this
    {
      if current.id == default.id then GetCodeForLanguage(item, default.id)
      else LoadCodeForLanguage(current)
    }

    /** `saveCodeForCurrentLanguage(code)`: read the map, set one key, write it back. */
    method SaveCodeForCurrentLanguage(currentId: string, code: string)
      modifies this
      ensures item == Some(Saved(old(item), currentId, code))
    {
      var saved := GetSavedCodes(item);
      saved := saved[currentId := code];
      item := Some(saved);
    }
  }

  /** Both branches of `initialCode` give the current language's code. */
  lemma InitialCodeIsCurrent(store: SessionStore, current: Language, default: Language)
    ensures store.InitialCode(current, default) == GetCodeForLanguage(store.item, current.id)
  {
  }
}
