/** The table of supported languages and the lookup by id. */
module Languages {
  import opened Common

  datatype Language = Language(
    id: string,
    name: string,
    short: string,
    extension: string,
    defaultCode: Option<string>)

  const JavaScriptDefault: string :=
    "console.log('Hello, world!');\n\n// Try entering your name:\n"
    + "const name = await input('Your name: ');\nconsole.log('Hello, ' + name + '!');\n"
    + "console.log('Done!');"

  const PythonDefault: string :=
    "print(\"Hello from Python!\")\n\nname = input(\"What's your name? \")\n"
    + "print(f\"Nice to meet you, {name}!\")"

  const LuaDefault: string :=
    "print(\"Hello from Lua!\")\nio.write(\"Your name: \")\nlocal name = io.read()\n"
    + "print(\"Hello, \" .. name .. \"!\")"

  /** `LANGUAGES`, in display order. */
  const LANGUAGES: seq<Language> := [
    Language("javascript", "JavaScript", "JS", "js", Some(JavaScriptDefault)),
    Language("python", "Python", "PY", "py", Some(PythonDefault)),
    Language("lua", "Lua", "LU", "lua", Some(LuaDefault))
  ]

  /** `langs.find(lang => lang.id === id)`: the first entry with that id, if any. */
  function Find(langs: seq<Language>, id: string): (r: Option<Language>)
    ensures r.Some? ==> r.value.id == id && r.value in langs
    ensures r.None? <==> forall k :: 0 <= k < |langs| ==> langs[k].id != id
    ensures r.Some? ==> exists k :: 0 <= k < |langs| && langs[k] == r.value
                                    && forall j :: 0 <= j < k ==> langs[j].id != id
  {
    if langs == [] then None
    else if langs[0].id == id then Some(langs[0])
    else
      var r := Find(langs[1..], id);
      assert forall k :: 1 <= k < |langs| ==> langs[k] == langs[1..][k - 1];
      if r.Some? then
        var k :| 0 <= k < |langs[1..]| && langs[1..][k] == r.value
                 && forall j :: 0 <= j < k ==> langs[1..][j].id != id;
        assert langs[k + 1] == r.value;
        r
      else
        r
  }

  /** `getLanguageById`. */
  function GetLanguageById(id: string): (r: Option<Language>)
    ensures r.Some? ==> r.value in LANGUAGES && r.value.id == id
    ensures r.None? <==> forall k :: 0 <= k < |LANGUAGES| ==> LANGUAGES[k].id != id
  {
    Find(LANGUAGES, id)
  }

  predicate IsKnownId(id: string) {
    exists k :: 0 <= k < |LANGUAGES| && LANGUAGES[k].id == id
  }

  /** The ids of the table are distinct, so an id determines its entry. */
  lemma IdsDistinct()
    ensures forall i, j :: 0 <= i < j < |LANGUAGES| ==> LANGUAGES[i].id != LANGUAGES[j].id
  {
  }

  /** Looking up the id of any entry gives back that entry. */
  lemma {:induction false} LookupOfEntry(k: nat)
    requires k < |LANGUAGES|
    ensures GetLanguageById(LANGUAGES[k].id) == Some(LANGUAGES[k])
  {
    IdsDistinct();
    var r := GetLanguageById(LANGUAGES[k].id);
    var j :| 0 <= j < |LANGUAGES| && LANGUAGES[j] == r.value
             && forall i :: 0 <= i < j ==> LANGUAGES[i].id != LANGUAGES[k].id;
    assert j == k;
  }

  /** The first entry, which the page falls back to, is JavaScript. */
  lemma FirstIsJavaScript()
    ensures |LANGUAGES| > 0 && LANGUAGES[0].id == "javascript" && LANGUAGES[0].name == "JavaScript"
  {
  }

  /** Every entry carries starter code. */
  lemma EveryEntryHasDefaultCode()
    ensures forall k :: 0 <= k < |LANGUAGES| ==> LANGUAGES[k].defaultCode.Some?
  {
  }
}
