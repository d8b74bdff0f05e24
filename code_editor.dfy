/** The text edits of the code editor's key handler (Tab, Shift-Tab, Enter), the caret's
    line number and the number of gutter lines. The textarea is external: the handler reads
    its selection and hands back the selection it asks the browser to set. */
module CodeEditor {
  import opened Common

  const LineHeight: int := 24
  const PaddingTop: int := 12
  const Indentation: string := "  "

  /** `value.slice(0, pos).split('\n').length`: the 1-based line the caret is on. */
  function CaretLine(value: string, pos: nat): nat
    requires pos <= |value|
  {
    |Split(value[..pos])|
  }

  /** The text of the caret's line up to the caret. */
  function LineBeforeCaret(value: string, pos: nat): string
    requires pos <= |value|
  {
    Last(Split(value[..pos]))
  }

  /** The current line is one more than the number of line feeds before the caret. */
  lemma CaretLineCountsNewlines(value: string, pos: nat)
    requires pos <= |value|
    ensures CaretLine(value, pos) == 1 + CountChar(value[..pos], '\n')
  {
    SplitCount(value[..pos]);
  }

  /** Where the caret sits among the lines of the text: on line `CaretLine - 1`, the lines
      before it are those before the caret, and the caret is `|LineBeforeCaret|` characters
      into its line. */
  lemma CaretPosition(value: string, pos: nat)
    requires pos <= |value|
    ensures var lines, row := Split(value), CaretLine(value, pos) - 1;
      && row < |lines|
      && Split(value[..pos])[..row] == lines[..row]
      && LineBeforeCaret(value, pos) <= lines[row]
      && pos == Offset(lines, row) + |LineBeforeCaret(value, pos)|
  {
    assert value == value[..pos] + value[pos..];
    LinesAroundCut(value[..pos], value[pos..]);
  }

  /** Cutting a text at any point: the lines before the cut's line are unchanged, and the cut's line starts with the last piece before it. */
  lemma LinesAroundCut(before: string, after: string)
    ensures var p, lines := Split(before), Split(before + after);
      var row := |p| - 1;
      && row < |lines|
      && p[..row] == lines[..row]
      && Last(p) <= lines[row]
      && |before| == Offset(lines, row) + |Last(p)|
  {
    var p, lines := Split(before), Split(before + after);
    var row := |p| - 1;
    var q := Split(after);
    SplitAppend(before, after);
    FuseParts(p, q);
    assert Offset(lines, row) == Offset(p, row) by { OffsetSamePrefix(lines, p, row); }
    assert Offset(p, row) + |p[row]| == |before| by {
      JoinLine(p, row);
      JoinSplit(before);
    }
  }

  /** What a key press produces: the new text and the selection it schedules. */
  datatype Edit = Edit(value: string, selectionStart: int, selectionEnd: int)

  /** Each line from `first` to `last` prefixed with two spaces. */
  function IndentLines(lines: seq<string>, first: nat, last: nat): seq<string> {
    seq(|lines|, i requires 0 <= i < |lines| =>
      if first <= i <= last then Indentation + lines[i] else lines[i])
  }

  /** Each line from `first` to `last` that starts with two spaces loses them. */
  function DedentLines(lines: seq<string>, first: nat, last: nat): seq<string> {
    seq(|lines|, i requires 0 <= i < |lines| =>
      if first <= i <= last && StartsWith(lines[i], Indentation) then lines[i][2..] else lines[i])
  }

  /** The Tab branch of `handleKeyDown`, with or without Shift. */
  function TabEdit(value: string, start: nat, end: nat, shift: bool): Edit
    requires start <= end <= |value|
  {
    var lines := Split(value);
    var startLine := CaretLine(value, start) - 1;
    var endLine := CaretLine(value, end) - 1;
    if startLine == endLine && start == end then
      Edit(value[..start] + Indentation + value[end..], start + 2, start + 2)
    else if shift then
      CaretPosition(value, start);
      var removed := if StartsWith(lines[startLine], Indentation) then 2 else 0;
      Edit(Join(DedentLines(lines, startLine, endLine)), start - removed, end - removed)
    else
      var added := 2 * (endLine - startLine + 1);
      Edit(Join(IndentLines(lines, startLine, endLine)), start + 2, end + added)
  }

  /** The Enter branch of `handleKeyDown`: a line feed plus the leading whitespace of the
      caret's line replaces the selection. */
  function EnterEdit(value: string, start: nat, end: nat): Edit
    requires start <= end <= |value|
  {
    var indent := LeadingSpace(LineBeforeCaret(value, start));
    var caret := start + 1 + |indent|;
    Edit(value[..start] + "\n" + indent + value[end..], caret, caret)
  }

  /** Tab with a collapsed caret, Shift or not, inserts two spaces at the caret and leaves the
      caret after them, on the same line. */
  lemma CollapsedTab(value: string, pos: nat, shift: bool)
    requires pos <= |value|
    ensures var e := TabEdit(value, pos, pos, shift);
      && e.value == value[..pos] + "  " + value[pos..]
      && e.selectionStart == e.selectionEnd == pos + 2
      && CaretLine(e.value, pos + 2) == CaretLine(value, pos)
      && LineBeforeCaret(e.value, pos + 2) == LineBeforeCaret(value, pos) + "  "
  {
    var e := TabEdit(value, pos, pos, shift);
    assert e.value[..pos + 2] == value[..pos] + "  ";
    SplitAppend(value[..pos], "  ");
    SplitOfLine("  ");
  }

  /** Tab over a selection indents exactly the lines from the start line through the end line
      and keeps the number of lines. */
  lemma IndentKeepsOtherLines(value: string, start: nat, end: nat)
    requires start <= end <= |value| && start != end
    ensures var lines, e := Split(value), TabEdit(value, start, end, false);
      var first, last := CaretLine(value, start) - 1, CaretLine(value, end) - 1;
      && Split(e.value) == IndentLines(lines, first, last)
      && |Split(e.value)| == |lines|
      && (forall i :: 0 <= i < |lines| && (i < first || last < i) ==> Split(e.value)[i] == lines[i])
      && (forall i :: first <= i <= last && i < |lines| ==> Split(e.value)[i] == "  " + lines[i])
  {
    var lines := Split(value);
    var first, last := CaretLine(value, start) - 1, CaretLine(value, end) - 1;
    var indented := IndentLines(lines, first, last);
    forall k | 0 <= k < |indented| ensures '\n' !in indented[k] {
      if first <= k <= last {
        assert indented[k] == Indentation + lines[k];
      }
    }
    SplitJoin(indented);
  }

  /** Shift-Tab over a selection removes two leading spaces from exactly those selected lines
      that have them; both selection ends move back by two exactly when the start line lost
      its indentation. */
  lemma DedentKeepsOtherLines(value: string, start: nat, end: nat)
    requires start <= end <= |value| && start != end
    ensures var lines, e := Split(value), TabEdit(value, start, end, true);
      var first, last := CaretLine(value, start) - 1, CaretLine(value, end) - 1;
      && first < |lines|
      && Split(e.value) == DedentLines(lines, first, last)
      && (forall i :: 0 <= i < |lines| ==>
            Split(e.value)[i] == if first <= i <= last && StartsWith(lines[i], "  ") then lines[i][2..] else lines[i])
      && (StartsWith(lines[first], "  ") ==> e.selectionStart == start - 2 && e.selectionEnd == end - 2)
      && (!StartsWith(lines[first], "  ") ==> e.selectionStart == start && e.selectionEnd == end)
  {
    var lines := Split(value);
    var first, last := CaretLine(value, start) - 1, CaretLine(value, end) - 1;
    CaretPosition(value, start);
    var dedented := DedentLines(lines, first, last);
    forall k | 0 <= k < |dedented| ensures '\n' !in dedented[k] {
      if first <= k <= last && StartsWith(lines[k], Indentation) {
        assert forall j :: 0 <= j < |lines[k]| - 2 ==> lines[k][2..][j] == lines[k][j + 2];
      }
    }
    SplitJoin(dedented);
  }

  /** The offsets of the indented lines: every indented line before line `i` adds two. */
  lemma {:induction false} IndentedOffset(lines: seq<string>, first: nat, last: nat, i: nat)
    requires first <= last < |lines| && i <= |lines|
    ensures Offset(IndentLines(lines, first, last), i)
         == Offset(lines, i) + 2 * (Min(i, last + 1) - Min(i, first))
  {
    if i > 0 {
      IndentedOffset(lines, first, last, i - 1);
    }
  }

  /** The caret line never decreases as the caret moves right. */
  lemma CaretLineMonotone(value: string, a: nat, b: nat)
    requires a <= b <= |value|
    ensures CaretLine(value, a) <= CaretLine(value, b)
  {
    assert value[..b] == value[..a] + value[a..b];
    SplitAppend(value[..a], value[a..b]);
  }

  /** After an indent the new selection surrounds the same text: what precedes its start is
      the old text before the start with two spaces inserted where the start line begins, and
      what follows its end is exactly what followed the old end. */
  lemma IndentSelection(value: string, start: nat, end: nat)
    requires start <= end <= |value| && start != end
    ensures var e := TabEdit(value, start, end, false);
      var lineStart := start - |LineBeforeCaret(value, start)|;
      && 0 <= lineStart
      && 0 <= e.selectionStart <= e.selectionEnd <= |e.value|
      && e.value[..e.selectionStart] == value[..lineStart] + "  " + value[lineStart..start]
      && e.value[e.selectionEnd..] == value[end..]
  {
    IndentStart(value, start, end);
    IndentEnd(value, start, end);
  }

  /** The indent branch of `TabEdit`, spelled out. */
  lemma IndentEdit(value: string, start: nat, end: nat)
    requires start <= end <= |value| && start != end
    ensures var first, last := CaretLine(value, start) - 1, CaretLine(value, end) - 1;
      TabEdit(value, start, end, false)
        == Edit(Join(IndentLines(Split(value), first, last)), start + 2, end + 2 * (last - first + 1))
  {
  }

  /** Indenting lines from `first` on leaves the text before line `first` alone, and the
      text after line `last`. */
  lemma IndentedHeadTail(lines: seq<string>, first: nat, last: nat)
    requires first <= last < |lines|
    ensures Head(IndentLines(lines, first, last), first) == Head(lines, first)
    ensures Tail(IndentLines(lines, first, last), last) == Tail(lines, last)
    ensures IndentLines(lines, first, last)[first] == "  " + lines[first]
    ensures IndentLines(lines, first, last)[last] == "  " + lines[last]
  {
    var indented := IndentLines(lines, first, last);
    assert indented[..first] == lines[..first];
    if last + 1 < |lines| {
      assert indented[last + 1..] == lines[last + 1..];
    }
  }

  /** The text up to column `col` of line `i`, when `indented` differs from `lines` before
      that line in nothing and on it by two leading spaces. */
  lemma PrefixOfIndentedLine(lines: seq<string>, indented: seq<string>, i: nat, col: nat)
    requires i < |lines| && i < |indented| && col <= |lines[i]|
    requires Head(indented, i) == Head(lines, i) && indented[i] == "  " + lines[i]
    ensures var o := Offset(lines, i); var old_, new_ := Join(lines), Join(indented);
      && o + col <= |old_| && o + 2 + col <= |new_|
      && new_[..o + 2 + col] == old_[..o] + "  " + old_[o..o + col]
  {
    JoinAround(lines, i);
    JoinAround(indented, i);
    SelectionPrefix(Join(indented), Join(lines), Head(lines, i), lines[i], Tail(indented, i), Tail(lines, i), col);
  }

  /** The text after column `col` of line `i`, when `indented` differs from `lines` after
      that line in nothing and on it by two leading spaces, and line `i` starts `shift` later. */
  lemma SuffixOfIndentedLine(lines: seq<string>, indented: seq<string>, i: nat, col: nat, shift: nat)
    requires i < |lines| && i < |indented| && col <= |lines[i]|
    requires Tail(indented, i) == Tail(lines, i) && indented[i] == "  " + lines[i]
    requires Offset(indented, i) == Offset(lines, i) + shift
    ensures var o := Offset(lines, i); var old_, new_ := Join(lines), Join(indented);
      && o + col <= |old_| && o + shift + 2 + col <= |new_|
      && new_[o + shift + 2 + col..] == old_[o + col..]
  {
    JoinAround(lines, i);
    JoinAround(indented, i);
    SelectionSuffix(Join(indented), Join(lines), Head(indented, i), Head(lines, i), lines[i], Tail(lines, i), col);
  }

  /** On lines: after indenting lines `first` to `last`, the text up to column `col` of line
      `first` (plus its two new spaces) is the old text up to the start of that line, two
      spaces, and the line's first `col` characters. */
  lemma IndentedPrefix(lines: seq<string>, first: nat, last: nat, col: nat)
    requires first <= last < |lines| && col <= |lines[first]|
    ensures var o := Offset(lines, first); var old_, new_ := Join(lines), Join(IndentLines(lines, first, last));
      && o + col <= |old_| && o + 2 + col <= |new_|
      && new_[..o + 2 + col] == old_[..o] + "  " + old_[o..o + col]
  {
    IndentedHeadTail(lines, first, last);
    PrefixOfIndentedLine(lines, IndentLines(lines, first, last), first, col);
  }

  /** On lines: after indenting lines `first` to `last`, what follows column `col` of line
      `last` is what followed it before. */
  lemma IndentedSuffix(lines: seq<string>, first: nat, last: nat, col: nat)
    requires first <= last < |lines| && col <= |lines[last]|
    ensures var o := Offset(lines, last); var old_, new_ := Join(lines), Join(IndentLines(lines, first, last));
      && o + col <= |old_| && o + 2 * (last - first + 1) + col <= |new_|
      && new_[o + 2 * (last - first + 1) + col..] == old_[o + col..]
  {
    IndentedHeadTail(lines, first, last);
    IndentedOffset(lines, first, last, last);
    SuffixOfIndentedLine(lines, IndentLines(lines, first, last), last, col, 2 * (last - first));
  }

  lemma IndentStart(value: string, start: nat, end: nat)
    requires start <= end <= |value| && start != end
    ensures var e := TabEdit(value, start, end, false);
      var lineStart := start - |LineBeforeCaret(value, start)|;
      && 0 <= lineStart && start + 2 <= |e.value|
      && e.value[..start + 2] == value[..lineStart] + "  " + value[lineStart..start]
  {
    var lines := Split(value);
    var first, last := CaretLine(value, start) - 1, CaretLine(value, end) - 1;
    var col := |LineBeforeCaret(value, start)|;
    var e := TabEdit(value, start, end, false);
    assert e.value == Join(IndentLines(lines, first, last)) by { IndentEdit(value, start, end); }
    assert first <= last by { CaretLineMonotone(value, start, end); }
    assert first < |lines| && col <= |lines[first]| && start == Offset(lines, first) + col by {
      CaretPosition(value, start);
    }
    assert last < |lines| by { CaretPosition(value, end); }
    assert value == Join(lines) by { JoinSplit(value); }
    IndentedPrefix(lines, first, last, col);
  }

  lemma IndentEnd(value: string, start: nat, end: nat)
    requires start <= end <= |value| && start != end
    ensures var e := TabEdit(value, start, end, false);
      && start + 2 <= e.selectionEnd <= |e.value|
      && e.value[e.selectionEnd..] == value[end..]
  {
    var lines := Split(value);
    var first, last := CaretLine(value, start) - 1, CaretLine(value, end) - 1;
    var col := |LineBeforeCaret(value, end)|;
    var e := TabEdit(value, start, end, false);
    assert e.value == Join(IndentLines(lines, first, last))
        && e.selectionEnd == end + 2 * (last - first + 1) by { IndentEdit(value, start, end); }
    assert first <= last by { CaretLineMonotone(value, start, end); }
    assert last < |lines| && col <= |lines[last]| && end == Offset(lines, last) + col by {
      CaretPosition(value, end);
    }
    assert value == Join(lines) by { JoinSplit(value); }
    IndentedSuffix(lines, first, last, col);
  }

  lemma SelectionPrefix(newValue: string, value: string, head: string, line: string, newTail: string, tail: string, col: nat)
    requires col <= |line|
    requires newValue == head + ("  " + line) + newTail
    requires value == head + line + tail
    ensures |head| + 2 + col <= |newValue|
    ensures newValue[..|head| + 2 + col] == value[..|head|] + "  " + value[|head|..|head| + col]
  {
    assert newValue[..|head| + 2 + col] == head + "  " + line[..col];
    assert value[..|head|] == head;
    assert value[|head|..|head| + col] == line[..col];
  }

  lemma SelectionSuffix(newValue: string, value: string, newHead: string, head: string, line: string, tail: string, col: nat)
    requires col <= |line|
    requires newValue == newHead + ("  " + line) + tail
    requires value == head + line + tail
    ensures |newHead| + 2 + col <= |newValue|
    ensures newValue[|newHead| + 2 + col..] == value[|head| + col..]
  {
    assert newValue[|newHead| + 2 + col..] == line[col..] + tail;
    assert value[|head| + col..] == line[col..] + tail;
  }

  /** Enter puts the caret on the next line, after a copy of the leading whitespace of the
      line it left, and keeps the text after the selection. */
  lemma EnterMovesToNextLine(value: string, start: nat, end: nat)
    requires start <= end <= |value|
    ensures var e := EnterEdit(value, start, end);
      var indent := LeadingSpace(LineBeforeCaret(value, start));
      && e.selectionStart == e.selectionEnd && e.selectionStart <= |e.value|
      && CaretLine(e.value, e.selectionStart) == CaretLine(value, start) + 1
      && LineBeforeCaret(e.value, e.selectionStart) == indent
      && AllSpace(indent) && indent <= LineBeforeCaret(value, start)
      && e.value[e.selectionStart..] == value[end..]
  {
    var e := EnterEdit(value, start, end);
    var indent := LeadingSpace(LineBeforeCaret(value, start));
    var caret := e.selectionStart;
    assert e.value[..caret] == value[..start] + ("\n" + indent);
    SplitAppend(value[..start], "\n" + indent);
    assert '\n' !in indent by {
      forall k | 0 <= k < |indent| ensures indent[k] != '\n' {
        assert indent[k] == LineBeforeCaret(value, start)[k];
      }
    }
    SplitCons('\n', indent);
    assert ("\n" + indent) == ['\n'] + indent;
    SplitOfLine(indent);
    assert e.value[caret..] == value[end..];
  }

  /** The gutter shows `max(contentLineCount, minLines)` numbers. */
  function TotalLines(value: string, minLines: nat): (r: nat)
    ensures r >= |Split(value)| && r >= minLines
    ensures r == |Split(value)| || r == minLines
  {
    var contentLineCount := |Split(value)|;
    if contentLineCount < minLines then minLines else contentLineCount
  }

  /** `Math.ceil(a / b)` for a positive `b`. */
  function CeilDiv(a: int, b: int): (r: int)
    requires b > 0
    ensures (r - 1) * b < a <= r * b
  {
    -((-a) / b)
  }

  /** `Math.max(1, Math.ceil(availableHeight / LINE_HEIGHT))`: enough lines to fill the
      container's height, never fewer than one. */
  function MinLinesFor(clientHeight: int): (r: nat)
    ensures r >= 1
    ensures r * LineHeight >= clientHeight - 2 * PaddingTop
    ensures r > 1 ==> (r - 1) * LineHeight < clientHeight - 2 * PaddingTop
  {
    var lines := CeilDiv(clientHeight - 2 * PaddingTop, LineHeight);
    if lines < 1 then 1 else lines
  }

  /** What `handleKeyDown` acts on. */
  datatype Key = Tab | Enter | OtherKey

  /** The editor's own state: the text it shows (owned by the page, changed through
      `onChange`), the highlighted line number and the minimum number of gutter lines. */
  class Editor {
    var value: string
    var currentLine: nat
    var minLines: nat

    constructor (value: string)
      ensures this.value == value && currentLine == 1 && minLines == 1
    {
      this.value := value;
      currentLine := 1;
      minLines := 1;
    }

    /** `updateCurrentLine`, with the textarea's `selectionStart`. */
    method UpdateCurrentLine(selectionStart: nat)
      requires selectionStart <= |value|
      modifies this`currentLine
      ensures currentLine == 1 + CountChar(value[..selectionStart], '\n')
    {
      CaretLineCountsNewlines(value, selectionStart);
      currentLine := CaretLine(value, selectionStart);
    }

    /** `updateMinLines`, with the container's `clientHeight`. */
    method UpdateMinLines(clientHeight: int)
      modifies this`minLines
      ensures minLines == MinLinesFor(clientHeight) && minLines >= 1
    {
      minLines := MinLinesFor(clientHeight);
    }

    /** The number of line numbers the gutter shows. */
    function GutterLines(): nat
      reads this
    {
      TotalLines(value, minLines)
    }

    /** `handleKeyDown`: Tab and Enter replace the text through `onChange` and return the
      selection scheduled for the next frame; other keys are left to the textarea. */
    method HandleKeyDown(key: Key, shift: bool, selectionStart: nat, selectionEnd: nat)
      returns (scheduled: Option<(int, int)>)
      requires selectionStart <= selectionEnd <= |value|
      modifies this`value
      ensures key == Tab ==>
        var e := TabEdit(old(value), selectionStart, selectionEnd, shift);
        value == e.value && scheduled == Some((e.selectionStart, e.selectionEnd))
      ensures key == Enter ==>
        var e := EnterEdit(old(value), selectionStart, selectionEnd);
        value == e.value && scheduled == Some((e.selectionStart, e.selectionEnd))
      ensures key == OtherKey ==> value == old(value) && scheduled == None
    {
      scheduled := None;
      if key == Tab {
        var e := TabEdit(value, selectionStart, selectionEnd, shift);
        value := e.value;
        scheduled := Some((e.selectionStart, e.selectionEnd));
      }
      if key == Enter {
        var e := EnterEdit(value, selectionStart, selectionEnd);
        value := e.value;
        scheduled := Some((e.selectionStart, e.selectionEnd));
      }
    }
  }
}
