/** The highlight overlay: colours per token class, the start offset of every line, which
    tokens touch which line, the per-character painting and its segmentation into coloured
    spans. The rendered line is the sequence of spans it shows, each with the class whose
    colour it gets (`None` for the default colour). */
module HighlightOverlay {
  import opened Common
  import opened SyntaxWorker

  datatype Theme = Light | Dark

  /** `getTokenColor`. */
  function GetTokenColor(t: Option<NodeType>, theme: Theme): string {
    var isDark := theme == Dark;
    match t
    case Some(StringType) => if isDark then "#a5d6ff" else "#0a3069"
    case Some(Comment) => if isDark then "#8b949e" else "#6e7781"
    case Some(Function) => if isDark then "#d2a8ff" else "#8250df"
    case Some(Keyword) => if isDark then "#ff7b72" else "#cf222e"
    case Some(Number) => if isDark then "#79c0ff" else "#0550ae"
    case _ => if isDark then "#c9d1d9" else "#24292f"
  }

  predicate Highlighted(t: Option<NodeType>) {
    t.Some? && t.value != Default
  }

  /** Within a theme the five highlighted classes and the default get six different colours,
      unhighlighted characters all get the default colour, and no class shares its colour
      across the two themes. */
  lemma TokenColorsDistinct(a: Option<NodeType>, b: Option<NodeType>, theme: Theme)
    ensures Highlighted(a) && Highlighted(b) && a != b ==> GetTokenColor(a, theme) != GetTokenColor(b, theme)
    ensures Highlighted(a) && !Highlighted(b) ==> GetTokenColor(a, theme) != GetTokenColor(b, theme)
    ensures !Highlighted(a) && !Highlighted(b) ==> GetTokenColor(a, theme) == GetTokenColor(b, theme)
    ensures GetTokenColor(a, Light) != GetTokenColor(b, Dark)
  {
  }

  /** `lineStartOffsets`: each line's start, computed by running past each line and its line
      feed. */
  method LineStartOffsets(lines: seq<string>) returns (res: seq<int>)
    ensures |res| == |lines|
    ensures forall i :: 0 <= i < |lines| ==> res[i] == Offset(lines, i)
  {
    res := [];
    var offset := 0;
    for i := 0 to |lines|
      invariant |res| == i && offset == Offset(lines, i)
      invariant forall j :: 0 <= j < i ==> res[j] == Offset(lines, j)
    {
      res := res + [offset];
      offset := offset + |lines[i]| + 1;
    }
  }

  /** The offsets start at 0 and increase strictly, by each line's length plus one. */
  lemma {:induction false} OffsetsIncrease(lines: seq<string>, i: nat, j: nat)
    requires i < j <= |lines|
    ensures Offset(lines, 0) == 0
    ensures Offset(lines, i) + |lines[i]| + 1 <= Offset(lines, j)
  {
    if j > i + 1 {
      OffsetsIncrease(lines, i, j - 1);
    }
  }

  /** Each offset is where its line sits in the code. */
  lemma OffsetsLocateLines(code: string, i: nat)
    requires i < |Split(code)|
    ensures var lines := Split(code);
      && Offset(lines, i) + |lines[i]| <= |code|
      && code[Offset(lines, i)..Offset(lines, i) + |lines[i]|] == lines[i]
  {
    JoinSplit(code);
    JoinLine(Split(code), i);
  }

  /** Whether a token touches the line that starts at `lineStart`: it ends after the line
      starts and starts no later than the line's end. */
  predicate OnLine(t: Token, lineStart: int, lineLength: int) {
    t.end > lineStart && t.start <= lineStart + lineLength
  }

  /** The tokens touching a line, in token order. */
  function LineTokens(tokens: seq<Token>, lineStart: int, lineLength: int): seq<Token> {
    if tokens == [] then []
    else
      var t := Last(tokens);
      LineTokens(tokens[..|tokens| - 1], lineStart, lineLength) + (if OnLine(t, lineStart, lineLength) then [t] else [])
  }

  /** A line's list holds exactly the tokens that touch it. */
  lemma {:induction false} LineTokensMembers(tokens: seq<Token>, lineStart: int, lineLength: int)
    ensures forall t :: t in LineTokens(tokens, lineStart, lineLength) <==> t in tokens && OnLine(t, lineStart, lineLength)
  {
    if tokens != [] {
      var init := tokens[..|tokens| - 1];
      LineTokensMembers(init, lineStart, lineLength);
      assert tokens == init + [Last(tokens)];
    }
  }

  lemma LineTokensSnoc(tokens: seq<Token>, k: nat, lineStart: int, lineLength: int)
    requires k < |tokens|
    ensures LineTokens(tokens[..k + 1], lineStart, lineLength)
         == LineTokens(tokens[..k], lineStart, lineLength) + (if OnLine(tokens[k], lineStart, lineLength) then [tokens[k]] else [])
  {
    assert tokens[..k + 1][..k] == tokens[..k];
  }

  /** `tokensByLine.get(i) || []`. */
  function Lookup(m: map<int, seq<Token>>, i: int): seq<Token> {
    if i in m then m[i] else []
  }

  predicate LinesIndexed(lines: seq<string>, offsets: seq<int>) {
    |offsets| == |lines| && forall i :: 0 <= i < |lines| ==> offsets[i] == Offset(lines, i)
  }

  /** Line starts never decrease, so once a token ends before some line starts it touches
      no later line either. */
  lemma OffsetsMonotone(lines: seq<string>, offsets: seq<int>)
    requires LinesIndexed(lines, offsets)
    ensures forall a, b :: 0 <= a <= b < |lines| ==> offsets[a] <= offsets[b]
  {
    forall a, b | 0 <= a < b < |lines| ensures offsets[a] <= offsets[b] {
      OffsetsIncrease(lines, a, b);
    }
  }

  /** The inner loop of `tokensByLine`: adds token `t` to the list of every line it touches,
      turning the lists `have` into the lists `want`. */
  method AddToken(lines: seq<string>, offsets: seq<int>, t: Token, m0: map<int, seq<Token>>,
                  ghost have: seq<seq<Token>>, ghost want: seq<seq<Token>>)
    returns (m: map<int, seq<Token>>)
    requires |offsets| == |lines| && |have| == |want| == |lines|
    requires forall a, b :: 0 <= a <= b < |lines| ==> offsets[a] <= offsets[b]
    requires forall j :: 0 <= j < |lines| ==> want[j] == have[j] + if OnLine(t, offsets[j], |lines[j]|) then [t] else []
    requires forall j :: 0 <= j < |lines| ==> Lookup(m0, j) == have[j]
    requires forall j :: j in m0 ==> 0 <= j < |lines| && m0[j] != []
    ensures forall j :: 0 <= j < |lines| ==> Lookup(m, j) == want[j]
    ensures forall j :: j in m ==> 0 <= j < |lines| && m[j] != []
  {
    m := m0;
    var i := 0;
    while i < |lines|
      invariant 0 <= i <= |lines|
      invariant forall j :: 0 <= j < i ==> Lookup(m, j) == want[j]
      invariant forall j :: i <= j < |lines| ==> Lookup(m, j) == have[j]
      invariant forall j :: j in m ==> 0 <= j < |lines| && m[j] != []
    {
      var lineStart := offsets[i];
      var lineEnd := lineStart + |lines[i]|;
      if t.end <= lineStart {
        forall j | i <= j < |lines| ensures want[j] == have[j] {
          assert offsets[i] <= offsets[j] && want[j] == have[j] + [];
        }
        break;
      }
      if t.start > lineEnd {
        assert want[i] == have[i] + [];
        i := i + 1;
        continue;
      }
      assert want[i] == Lookup(m, i) + [t];
      m := m[i := Lookup(m, i) + [t]];
      i := i + 1;
    }
  }

  /** `tokensByLine`: every line's list is the tokens touching it, and only lines with at
      least one token have an entry. */
  method TokensByLine(lines: seq<string>, offsets: seq<int>, tokens: seq<Token>) returns (m: map<int, seq<Token>>)
    requires LinesIndexed(lines, offsets)
    ensures forall i :: 0 <= i < |lines| ==> Lookup(m, i) == LineTokens(tokens, offsets[i], |lines[i]|)
    ensures forall i :: i in m ==> 0 <= i < |lines| && m[i] != []
  {
    m := map[];
    if tokens == [] {
      return;
    }
    OffsetsMonotone(lines, offsets);
    for k := 0 to |tokens|
      invariant forall i :: 0 <= i < |lines| ==> Lookup(m, i) == LineTokens(tokens[..k], offsets[i], |lines[i]|)
      invariant forall i :: i in m ==> 0 <= i < |lines| && m[i] != []
    {
      ghost var have := seq(|lines|, j requires 0 <= j < |lines| => LineTokens(tokens[..k], offsets[j], |lines[j]|));
      ghost var want := seq(|lines|, j requires 0 <= j < |lines| => LineTokens(tokens[..k + 1], offsets[j], |lines[j]|));
      forall j | 0 <= j < |lines|
        ensures want[j] == have[j] + if OnLine(tokens[k], offsets[j], |lines[j]|) then [tokens[k]] else []
      {
        LineTokensSnoc(tokens, k, offsets[j], |lines[j]|);
      }
      m := AddToken(lines, offsets, tokens[k], m, have, want);
    }
    assert tokens[..|tokens|] == tokens;
  }

  function Length(t: Token): int {
    t.end - t.start
  }

  /** Longest first. */
  predicate SortedByLength(ts: seq<Token>) {
    forall i, j :: 0 <= i < j < |ts| ==> Length(ts[i]) >= Length(ts[j])
  }

  /** Places `t` before the first token no longer than it. */
  function Insert(t: Token, ts: seq<Token>): seq<Token> {
    if ts == [] || Length(ts[0]) <= Length(t) then [t] + ts
    else [ts[0]] + Insert(t, ts[1..])
  }

  /** `[...lineTokens].sort((a, b) => (b.end - b.start) - (a.end - a.start))`, as a stable
      insertion sort. */
  function SortByLength(ts: seq<Token>): seq<Token> {
    if ts == [] then [] else Insert(ts[0], SortByLength(ts[1..]))
  }

  lemma {:induction false} InsertPermutes(t: Token, ts: seq<Token>)
    ensures multiset(Insert(t, ts)) == multiset(ts) + multiset{t}
  {
    if ts != [] && Length(ts[0]) > Length(t) {
      InsertPermutes(t, ts[1..]);
      assert ts == [ts[0]] + ts[1..];
    }
  }

  lemma {:induction false} InsertSorted(t: Token, ts: seq<Token>)
    requires SortedByLength(ts)
    ensures SortedByLength(Insert(t, ts))
  {
    if ts == [] || Length(ts[0]) <= Length(t) {
      SortedCons(t, ts);
    } else {
      var r := Insert(t, ts[1..]);
      InsertSorted(t, ts[1..]);
      assert r[0] == t || r[0] == ts[1];
      SortedCons(ts[0], r);
    }
  }

  /** A token no shorter than the head of a sorted sequence can go in front of it. */
  lemma SortedCons(x: Token, r: seq<Token>)
    requires SortedByLength(r) && (r != [] ==> Length(x) >= Length(r[0]))
    ensures SortedByLength([x] + r)
  {
    forall i, j | 0 <= i < j < |[x] + r| ensures Length(([x] + r)[i]) >= Length(([x] + r)[j]) {
      if i == 0 && j > 1 {
        assert Length(r[0]) >= Length(r[j - 1]);
      }
    }
  }

  /** The sort puts the longest tokens first and keeps every token. */
  lemma {:induction false} SortByLengthCorrect(ts: seq<Token>)
    ensures SortedByLength(SortByLength(ts))
    ensures multiset(SortByLength(ts)) == multiset(ts)
  {
    if ts != [] {
      SortByLengthCorrect(ts[1..]);
      InsertSorted(ts[0], SortByLength(ts[1..]));
      InsertPermutes(ts[0], SortByLength(ts[1..]));
      assert ts == [ts[0]] + ts[1..];
    }
  }

  /** Whether token `t` covers character `c` of the line starting at `lineStart`. */
  predicate Covers(t: Token, lineStart: int, c: int) {
    t.start - lineStart <= c < t.end - lineStart
  }

  /** The class character `c` ends up with when the tokens are painted in order: that of the
      last token covering it, or none. */
  function PaintedAt(ts: seq<Token>, lineStart: int, c: int): Option<NodeType> {
    if ts == [] then None
    else if Covers(Last(ts), lineStart, c) then Some(Last(ts).nodeType)
    else PaintedAt(ts[..|ts| - 1], lineStart, c)
  }

  /** The `charTypes` painting: every token in order writes its class over the characters
      it covers, clamped to the line. */
  method Paint(lineLength: nat, lineStart: int, ts: seq<Token>) returns (charTypes: array<Option<NodeType>>)
    ensures fresh(charTypes) && charTypes.Length == lineLength
    ensures forall c :: 0 <= c < lineLength ==> charTypes[c] == PaintedAt(ts, lineStart, c)
  {
    charTypes := new Option<NodeType>[lineLength](_ => None);
    for k := 0 to |ts|
      invariant forall c :: 0 <= c < lineLength ==> charTypes[c] == PaintedAt(ts[..k], lineStart, c)
    {
      var t := ts[k];
      assert ts[..k + 1][..k] == ts[..k];
      var startInLine := Max(0, t.start - lineStart);
      var endInLine := Min(lineLength, t.end - lineStart);
      var i := startInLine;
      while i < endInLine
        invariant startInLine <= i <= Max(startInLine, endInLine)
        invariant forall c :: 0 <= c < lineLength ==>
          charTypes[c] == if startInLine <= c < i then Some(t.nodeType) else PaintedAt(ts[..k], lineStart, c)
      {
        charTypes[i] := Some(t.nodeType);
        i := i + 1;
      }
    }
    assert ts[..|ts|] == ts;
  }

  /** With the tokens sorted longest first, a character gets the class of a shortest token
      covering it, and no class when no token covers it. */
  lemma {:induction false} ShortestWins(ts: seq<Token>, lineStart: int, c: int)
    requires SortedByLength(ts)
    ensures PaintedAt(ts, lineStart, c).None? <==> forall i :: 0 <= i < |ts| ==> !Covers(ts[i], lineStart, c)
    ensures PaintedAt(ts, lineStart, c).Some? ==>
      exists i :: 0 <= i < |ts| && Covers(ts[i], lineStart, c) && ts[i].nodeType == PaintedAt(ts, lineStart, c).value
        && forall j :: 0 <= j < |ts| && Covers(ts[j], lineStart, c) ==> Length(ts[i]) <= Length(ts[j])
  {
    if ts != [] {
      var init := ts[..|ts| - 1];
      ShortestWins(init, lineStart, c);
      if Covers(Last(ts), lineStart, c) {
        assert forall j :: 0 <= j < |ts| ==> Length(ts[|ts| - 1]) <= Length(ts[j]);
      } else {
        assert forall j :: 0 <= j < |init| ==> init[j] == ts[j];
      }
    }
  }

  /** A coloured run of characters. */
  datatype Span = Span(kind: Option<NodeType>, text: string)

  /** The text the spans show. */
  function Texts(spans: seq<Span>): string {
    if spans == [] then [] else Texts(spans[..|spans| - 1]) + Last(spans).text
  }

  /** The class of every character the spans show. */
  function Kinds(spans: seq<Span>): seq<Option<NodeType>> {
    if spans == [] then [] else Kinds(spans[..|spans| - 1]) + Repeat(Last(spans).kind, |Last(spans).text|)
  }

  function Repeat<T>(x: T, n: nat): (r: seq<T>)
    ensures |r| == n && forall i :: 0 <= i < n ==> r[i] == x
  {
    seq(n, _ => x)
  }

  lemma SpansSnoc(spans: seq<Span>, s: Span)
    ensures Texts(spans + [s]) == Texts(spans) + s.text
    ensures Kinds(spans + [s]) == Kinds(spans) + Repeat(s.kind, |s.text|)
  {
    assert (spans + [s])[..|spans|] == spans;
  }

  /** Spans are maximal runs: none is empty and neighbours differ in class. */
  predicate Maximal(spans: seq<Span>) {
    && (forall j :: 0 <= j < |spans| ==> spans[j].text != [])
    && (forall j :: 0 < j < |spans| ==> spans[j - 1].kind != spans[j].kind)
  }

  /** The state of the segmentation loop after `i` characters: the finished spans and the
      open buffer show those characters with their classes, and closing the buffer keeps the
      spans maximal. */
  predicate Segmented(parts: seq<Span>, buffer: string, currentType: Option<NodeType>,
                      text: string, types: seq<Option<NodeType>>, i: nat)
    requires i <= |text| == |types|
  {
    && Texts(parts) + buffer == text[..i]
    && Kinds(parts) + Repeat(currentType, |buffer|) == types[..i]
    && (i > 0 ==> buffer != [])
    && (buffer == [] ==> parts == [])
    && Maximal(parts)
    && (parts != [] ==> Last(parts).kind != currentType)
  }

  /** A character of the buffer's class extends the buffer. */
  lemma ExtendRun(parts: seq<Span>, buffer: string, currentType: Option<NodeType>,
                  text: string, types: seq<Option<NodeType>>, i: nat)
    requires i < |text| == |types| && types[i] == currentType
    requires Segmented(parts, buffer, currentType, text, types, i)
    ensures Segmented(parts, buffer + [text[i]], currentType, text, types, i + 1)
  {
    assert text[..i + 1] == text[..i] + [text[i]];
    assert types[..i + 1] == types[..i] + [types[i]];
    assert Repeat(currentType, |buffer| + 1) == Repeat(currentType, |buffer|) + [currentType];
  }

  /** A character of another class closes the buffer as a span and opens a new one. */
  lemma StartRun(parts: seq<Span>, buffer: string, currentType: Option<NodeType>,
                 text: string, types: seq<Option<NodeType>>, i: nat)
    requires i < |text| == |types| && types[i] != currentType
    requires Segmented(parts, buffer, currentType, text, types, i)
    ensures var parts' := if buffer != [] then parts + [Span(currentType, buffer)] else parts;
      Segmented(parts', [text[i]], types[i], text, types, i + 1)
  {
    assert text[..i + 1] == text[..i] + [text[i]];
    assert types[..i + 1] == types[..i] + [types[i]];
    if buffer != [] {
      StartAfterRun(parts, buffer, currentType, text, types, i);
    } else {
      assert parts == [] && i == 0;
      assert Repeat(types[i], 1) == [types[i]];
    }
  }

  lemma StartAfterRun(parts: seq<Span>, buffer: string, currentType: Option<NodeType>,
                      text: string, types: seq<Option<NodeType>>, i: nat)
    requires i < |text| == |types| && types[i] != currentType && buffer != []
    requires Segmented(parts, buffer, currentType, text, types, i)
    requires text[..i + 1] == text[..i] + [text[i]] && types[..i + 1] == types[..i] + [types[i]]
    ensures Segmented(parts + [Span(currentType, buffer)], [text[i]], types[i], text, types, i + 1)
  {
    var parts' := parts + [Span(currentType, buffer)];
    assert Texts(parts') == text[..i] && Kinds(parts') == types[..i] && Maximal(parts') by {
      CloseNonEmpty(parts, buffer, currentType);
    }
    assert Repeat(types[i], 1) == [types[i]];
  }

  /** Closing the buffer after the last character. */
  lemma CloseRun(parts: seq<Span>, buffer: string, currentType: Option<NodeType>,
                 text: string, types: seq<Option<NodeType>>)
    requires |text| == |types|
    requires Segmented(parts, buffer, currentType, text, types, |text|)
    ensures var parts' := if buffer != [] then parts + [Span(currentType, buffer)] else parts;
      Texts(parts') == text && Kinds(parts') == types && Maximal(parts')
  {
    assert text[..|text|] == text;
    assert types[..|types|] == types;
    if buffer != [] {
      CloseNonEmpty(parts, buffer, currentType);
    } else {
      assert Repeat(currentType, 0) == [];
    }
  }

  lemma CloseNonEmpty(parts: seq<Span>, buffer: string, currentType: Option<NodeType>)
    requires buffer != [] && Maximal(parts) && (parts != [] ==> Last(parts).kind != currentType)
    ensures Texts(parts + [Span(currentType, buffer)]) == Texts(parts) + buffer
    ensures Kinds(parts + [Span(currentType, buffer)]) == Kinds(parts) + Repeat(currentType, |buffer|)
    ensures Maximal(parts + [Span(currentType, buffer)])
  {
    SpansSnoc(parts, Span(currentType, buffer));
  }

  /** The segmentation loop: characters are grouped into runs of equal class. The spans show
      the line, character by character with its painted class, as maximal runs. */
  method Segment(lineText: string, charTypes: array<Option<NodeType>>) returns (parts: seq<Span>)
    requires charTypes.Length == |lineText|
    ensures Texts(parts) == lineText
    ensures Kinds(parts) == charTypes[..]
    ensures Maximal(parts)
  {
    ghost var types := charTypes[..];
    parts := [];
    var currentType := if |lineText| > 0 then charTypes[0] else None;
    var buffer := "";
    for i := 0 to |lineText|
      invariant Segmented(parts, buffer, currentType, lineText, types, i)
    {
      if charTypes[i] != currentType {
        StartRun(parts, buffer, currentType, lineText, types, i);
        if buffer != [] {
          parts := parts + [Span(currentType, buffer)];
        }
        buffer := [lineText[i]];
        currentType := charTypes[i];
      } else {
        ExtendRun(parts, buffer, currentType, lineText, types, i);
        buffer := buffer + [lineText[i]];
      }
    }
    CloseRun(parts, buffer, currentType, lineText, types);
    if buffer != [] {
      parts := parts + [Span(currentType, buffer)];
    }
  }

  /** What an empty line shows: a single no-break space. */
  const Placeholder: string := "\U{00A0}"

  /** What a line shows: its text, or the placeholder when it is empty; for a non-empty
      line, each character in the class painted on it by the sorted tokens touching the line,
      grouped in maximal runs. */
  predicate ShowsLine(spans: seq<Span>, lineText: string, lineStart: int, lineTokens: seq<Token>) {
    && Texts(spans) == (if lineText == [] then Placeholder else lineText)
    && (lineText != [] ==> Maximal(spans))
    && (lineText != [] ==> Kinds(spans) == seq(|lineText|, c => PaintedAt(SortByLength(lineTokens), lineStart, c)))
  }

  /** One line of `renderedLines`: the tokens touching it, sorted and painted, then
      segmented; a line without tokens is shown as is in the default colour, and a line that
      shows nothing shows the placeholder. */
  method RenderLine(lineText: string, lineStart: int, lineTokens: seq<Token>) returns (spans: seq<Span>)
    ensures ShowsLine(spans, lineText, lineStart, lineTokens)
  {
    if lineTokens == [] {
      spans := [Span(None, if lineText == [] then Placeholder else lineText)];
      SpansSnoc([], spans[0]);
      assert spans == [] + [spans[0]];
      return;
    }
    var sorted := SortByLength(lineTokens);
    var charTypes := Paint(|lineText|, lineStart, sorted);
    spans := Segment(lineText, charTypes);
    if spans == [] {
      spans := [Span(None, Placeholder)];
      SpansSnoc([], spans[0]);
      assert spans == [] + [spans[0]];
    }
  }

  /** `renderedLines`: one rendered line per line of the code, each showing the tokens that
      touch it. */
  method RenderLines(code: string, tokens: seq<Token>) returns (rendered: seq<seq<Span>>)
    ensures |rendered| == |Split(code)|
    ensures forall i :: 0 <= i < |rendered| ==>
      ShowsLine(rendered[i], Split(code)[i], Offset(Split(code), i),
                LineTokens(tokens, Offset(Split(code), i), |Split(code)[i]|))
  {
    var lines := Split(code);
    var offsets := LineStartOffsets(lines);
    var byLine := TokensByLine(lines, offsets, tokens);
    rendered := [];
    for i := 0 to |lines|
      invariant |rendered| == i
      invariant AllShown(rendered, lines, offsets, tokens)
    {
      var spans := RenderLine(lines[i], offsets[i], Lookup(byLine, i));
      ShownSnoc(rendered, spans, lines, offsets, tokens);
      rendered := rendered + [spans];
    }
  }

  /** Every line rendered so far shows the tokens touching it. */
  predicate AllShown(rendered: seq<seq<Span>>, lines: seq<string>, offsets: seq<int>, tokens: seq<Token>)
    requires |rendered| <= |lines| == |offsets|
  {
    forall j :: 0 <= j < |rendered| ==>
      ShowsLine(rendered[j], lines[j], offsets[j], LineTokens(tokens, offsets[j], |lines[j]|))
  }

  lemma ShownSnoc(rendered: seq<seq<Span>>, spans: seq<Span>, lines: seq<string>, offsets: seq<int>, tokens: seq<Token>)
    requires |rendered| < |lines| == |offsets| && AllShown(rendered, lines, offsets, tokens)
    requires var i := |rendered|; ShowsLine(spans, lines[i], offsets[i], LineTokens(tokens, offsets[i], |lines[i]|))
    ensures AllShown(rendered + [spans], lines, offsets, tokens)
  {
    var r := rendered + [spans];
    forall j | 0 <= j < |r|
      ensures ShowsLine(r[j], lines[j], offsets[j], LineTokens(tokens, offsets[j], |lines[j]|))
    {
      if j < |rendered| {
        assert r[j] == rendered[j];
      }
    }
  }

  /** What a character of the code is painted with: at position `c` of line `i`, the class
      of a shortest token among all tokens that cover that position of the code, or no class
      when none covers it. */
  lemma PaintedCharacter(code: string, tokens: seq<Token>, i: nat, c: nat)
    requires i < |Split(code)| && c < |Split(code)[i]|
    ensures var lines := Split(code);
      var pos := Offset(lines, i) + c;
      var k := PaintedAt(SortByLength(LineTokens(tokens, Offset(lines, i), |lines[i]|)), Offset(lines, i), c);
      && (k.None? <==> forall t :: t in tokens ==> !(t.start <= pos < t.end))
      && (k.Some? ==>
            exists t :: t in tokens && t.start <= pos < t.end && t.nodeType == k.value
              && forall u :: u in tokens && u.start <= pos < u.end ==> Length(t) <= Length(u))
  {
    var lines := Split(code);
    var off := Offset(lines, i);
    var onLine := LineTokens(tokens, off, |lines[i]|);
    var sorted := SortByLength(onLine);
    assert forall t :: t in sorted <==> t in tokens && OnLine(t, off, |lines[i]|) by {
      SortedMembers(onLine);
      LineTokensMembers(tokens, off, |lines[i]|);
    }
    assert SortedByLength(sorted) by { SortByLengthCorrect(onLine); }
    ShortestCovering(sorted, off, c);
    var pos := off + c;
    var k := PaintedAt(sorted, off, c);
    if k.Some? {
      var t :| t in sorted && Covers(t, off, c) && t.nodeType == k.value
        && forall u :: u in sorted && Covers(u, off, c) ==> Length(t) <= Length(u);
      assert t in tokens && t.start <= pos < t.end;
      forall u | u in tokens && u.start <= pos < u.end ensures Length(t) <= Length(u) {
        assert u in sorted && Covers(u, off, c);
      }
    } else {
      forall t | t in tokens ensures !(t.start <= pos < t.end) {
        if t.start <= pos < t.end {
          assert t in sorted && Covers(t, off, c);
        }
      }
    }
  }

  /** Sorting keeps exactly the tokens it was given. */
  lemma SortedMembers(ts: seq<Token>)
    ensures forall t :: t in SortByLength(ts) <==> t in ts
  {
    SortByLengthCorrect(ts);
    forall t ensures t in SortByLength(ts) <==> t in ts {
      assert t in SortByLength(ts) <==> t in multiset(SortByLength(ts));
    }
  }

  /** `ShortestWins` stated on the tokens rather than on their positions. */
  lemma ShortestCovering(ts: seq<Token>, lineStart: int, c: int)
    requires SortedByLength(ts)
    ensures PaintedAt(ts, lineStart, c).None? <==> forall t :: t in ts ==> !Covers(t, lineStart, c)
    ensures PaintedAt(ts, lineStart, c).Some? ==>
      exists t :: t in ts && Covers(t, lineStart, c) && t.nodeType == PaintedAt(ts, lineStart, c).value
        && forall u :: u in ts && Covers(u, lineStart, c) ==> Length(t) <= Length(u)
  {
    ShortestWins(ts, lineStart, c);
    var k := PaintedAt(ts, lineStart, c);
    if k.Some? {
      var i :| 0 <= i < |ts| && Covers(ts[i], lineStart, c) && ts[i].nodeType == k.value
        && forall j :: 0 <= j < |ts| && Covers(ts[j], lineStart, c) ==> Length(ts[i]) <= Length(ts[j]);
      assert ts[i] in ts;
    }
  }
}
