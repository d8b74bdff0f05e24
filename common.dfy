/** Value types shared by every part of the playground, and the few JavaScript string
    operations its logic is built from: `split('\n')`, `join('\n')`, `trim()`,
    `startsWith`, `includes` and the UTF-8 encoding of `TextEncoder`. */
module Common {

  datatype Option<+T> = None | Some(value: T)

  type byte = b: int | 0 <= b < 256

  // ---------------------------------------------------------------------------
  // Whitespace and trim()
  // ---------------------------------------------------------------------------

  /** The characters of JavaScript's `\s` class: WhiteSpace and LineTerminator. `trim()`
      strips exactly these. */
  predicate IsJsSpace(c: char) {
    || c == '\t' || c == '\n' || c == '\U{000B}' || c == '\U{000C}' || c == '\r'
    || c == ' ' || c == '\U{00A0}' || c == '\U{1680}' || ('\U{2000}' <= c <= '\U{200A}')
    || c == '\U{2028}' || c == '\U{2029}' || c == '\U{202F}' || c == '\U{205F}'
    || c == '\U{3000}' || c == '\U{FEFF}'
  }

  predicate AllSpace(s: string) {
    forall i :: 0 <= i < |s| ==> IsJsSpace(s[i])
  }

  /** The leading run of whitespace of `s`, as the regular expression `^\s*` matches it. */
  function LeadingSpace(s: string): (r: string)
    ensures r <= s && AllSpace(r)
    ensures |r| < |s| ==> !IsJsSpace(s[|r|])
  {
    if s != [] && IsJsSpace(s[0]) then [s[0]] + LeadingSpace(s[1..]) else []
  }

  function TrimStart(s: string): string {
    if s != [] && IsJsSpace(s[0]) then TrimStart(s[1..]) else s
  }

  function TrimEnd(s: string): string {
    if s != [] && IsJsSpace(s[|s| - 1]) then TrimEnd(s[..|s| - 1]) else s
  }

  /** `String.prototype.trim`. */
  function Trim(s: string): string {
    TrimEnd(TrimStart(s))
  }

  /** `TrimStart` drops exactly the leading run of whitespace. */
  lemma {:induction false} TrimStartShape(s: string)
    ensures TrimStart(s) == s[|LeadingSpace(s)|..]
  {
    if s != [] && IsJsSpace(s[0]) {
      TrimStartShape(s[1..]);
      assert s[1..][|LeadingSpace(s[1..])|..] == s[1 + |LeadingSpace(s[1..])|..];
    }
  }

  /** `TrimEnd` keeps a prefix and drops the trailing run of whitespace after it; what it
      keeps does not end with whitespace. */
  lemma {:induction false} TrimEndShape(s: string)
    ensures TrimEnd(s) <= s
    ensures AllSpace(s[|TrimEnd(s)|..])
    ensures TrimEnd(s) == [] || !IsJsSpace(TrimEnd(s)[|TrimEnd(s)| - 1])
  {
    if s != [] && IsJsSpace(s[|s| - 1]) {
      var p := s[..|s| - 1];
      TrimEndShape(p);
      var r := TrimEnd(p);
      assert s[|r|..] == p[|r|..] + [s[|s| - 1]];
    }
  }

  /** `s.trim()` is empty exactly when `s` consists of whitespace only. */
  lemma TrimEmptyIff(s: string)
    ensures Trim(s) == "" <==> AllSpace(s)
  {
    var t := TrimStart(s);
    var lead := LeadingSpace(s);
    TrimStartShape(s);
    TrimEndShape(t);
    if Trim(s) == "" {
      assert t[0..] == t;
      assert s == lead + t;
    }
  }

  /** Trimming twice is trimming once. */
  lemma TrimIdempotent(s: string)
    ensures Trim(Trim(s)) == Trim(s)
  {
    var t := Trim(s);
    TrimStartShape(s);
    TrimEndShape(TrimStart(s));
    TrimStartShape(t);
    assert TrimStart(t) == t;
    assert TrimEnd(t) == t;
  }

  // ---------------------------------------------------------------------------
  // split('\n') and join('\n')
  // ---------------------------------------------------------------------------

  function CountChar(s: string, c: char): nat {
    if s == [] then 0 else (if s[0] == c then 1 else 0) + CountChar(s[1..], c)
  }

  /** `s.split('\n')`: the pieces between line feeds; there is always at least one. */
  function Split(s: string): (r: seq<string>)
    ensures |r| >= 1
    ensures forall k :: 0 <= k < |r| ==> '\n' !in r[k]
  {
    if s == [] then [""]
    else if s[0] == '\n' then [""] + Split(s[1..])
    else
      var rest := Split(s[1..]);
      [[s[0]] + rest[0]] + rest[1..]
  }

  /** `lines.join('\n')`. */
  function Join(lines: seq<string>): string {
    if |lines| == 0 then ""
    else if |lines| == 1 then lines[0]
    else lines[0] + "\n" + Join(lines[1..])
  }

  function Last<T>(s: seq<T>): T
    requires |s| > 0
  {
    s[|s| - 1]
  }

  /** Splitting yields one more piece than there are line feeds. */
  lemma {:induction false} SplitCount(s: string)
    ensures |Split(s)| == CountChar(s, '\n') + 1
  {
    if s != [] {
      SplitCount(s[1..]);
    }
  }

  /** Joining the pieces of a split gives back the text. */
  lemma {:induction false} JoinSplit(s: string)
    ensures Join(Split(s)) == s
  {
    if s == [] {
    } else if s[0] == '\n' {
      JoinSplit(s[1..]);
      assert ([""] + Split(s[1..]))[1..] == Split(s[1..]);
    } else {
      var rest := Split(s[1..]);
      JoinSplit(s[1..]);
      var r := [[s[0]] + rest[0]] + rest[1..];
      assert r[1..] == rest[1..];
      if |rest| > 1 {
        assert Join(rest) == rest[0] + "\n" + Join(rest[1..]);
      }
    }
  }

  /** A line without line feeds, a line feed, then a text: the line is the first piece. */
  lemma SplitAfterLine(first: string, rest: string)
    requires '\n' !in first
    ensures Split(first + "\n" + rest) == [first] + Split(rest)
  {
    SplitOfLine(first);
    SplitCons('\n', rest);
    assert first + "\n" + rest == first + ("\n" + rest);
    SplitAppend(first, "\n" + rest);
    var y := Split("\n" + rest);
    assert y == [""] + Split(rest);
    FuseSingle(first, y);
    assert first + y[0] == first;
    assert y[1..] == Split(rest);
  }

  /** Splitting the join of lines free of line feeds gives back the lines. */
  lemma {:induction false} SplitJoin(lines: seq<string>)
    requires |lines| >= 1
    requires forall k :: 0 <= k < |lines| ==> '\n' !in lines[k]
    ensures Split(Join(lines)) == lines
  {
    if |lines| == 1 {
      SplitOfLine(lines[0]);
    } else {
      var rest := Join(lines[1..]);
      assert Join(lines) == lines[0] + "\n" + rest;
      SplitJoin(lines[1..]);
      SplitAfterLine(lines[0], rest);
      assert lines == [lines[0]] + lines[1..];
    }
  }

  /** A text without line feeds splits into itself. */
  lemma {:induction false} SplitOfLine(s: string)
    requires '\n' !in s
    ensures Split(s) == [s]
  {
    if s != [] {
      assert '\n' !in s[1..] by { assert forall k :: 0 <= k < |s| - 1 ==> s[1..][k] == s[k + 1]; }
      SplitOfLine(s[1..]);
      assert [s[0]] + s[1..] == s;
    }
  }

  /** The pieces of `x` followed by those of `y`, where the last piece of `x` and the first
      piece of `y` are one piece: this is how a split of `a + b` is put together. */
  function Fuse(x: seq<string>, y: seq<string>): seq<string>
    requires |x| >= 1 && |y| >= 1
  {
    x[..|x| - 1] + [Last(x) + y[0]] + y[1..]
  }

  /** Prefixing one character to the first piece. */
  function PrefixFirst(c: char, x: seq<string>): seq<string>
    requires |x| >= 1
  {
    [[c] + x[0]] + x[1..]
  }

  lemma SplitCons(c: char, s: string)
    ensures Split([c] + s) == if c == '\n' then [""] + Split(s) else PrefixFirst(c, Split(s))
  {
    assert ([c] + s)[1..] == s;
  }

  /** The pieces of a fused sequence: `x` up to its last piece, the joined piece, then `y`'s rest. */
  lemma FuseParts(x: seq<string>, y: seq<string>)
    requires |x| >= 1 && |y| >= 1
    ensures var f := Fuse(x, y);
      && |f| == |x| + |y| - 1
      && f[..|x| - 1] == x[..|x| - 1]
      && f[|x| - 1] == Last(x) + y[0]
  {
  }

  lemma FuseSingle(a: string, y: seq<string>)
    requires |y| >= 1
    ensures Fuse([a], y) == [a + y[0]] + y[1..]
  {
  }

  lemma FuseEmptyFirst(x: seq<string>, y: seq<string>)
    requires |x| >= 1 && |y| >= 1
    ensures Fuse([""] + x, y) == [""] + Fuse(x, y)
  {
    assert ([""] + x)[..|x|] == [""] + x[..|x| - 1];
  }

  lemma FusePrefixFirst(c: char, x: seq<string>, y: seq<string>)
    requires |x| >= 1 && |y| >= 1
    ensures Fuse(PrefixFirst(c, x), y) == PrefixFirst(c, Fuse(x, y))
  {
    if |x| == 1 {
      assert [c] + (x[0] + y[0]) == ([c] + x[0]) + y[0];
    } else {
      assert Fuse(x, y)[0] == x[0];
      assert Fuse(x, y)[1..] == x[1..|x| - 1] + [Last(x) + y[0]] + y[1..];
    }
  }

  /** How the split of a concatenation is made from the splits of its parts: the last piece
      of `a` and the first piece of `b` fuse. */
  lemma {:induction false} SplitAppend(a: string, b: string)
    ensures Split(a + b) == Fuse(Split(a), Split(b))
  {
    if a == [] {
      assert a + b == b;
      FuseSingle("", Split(b));
      assert "" + Split(b)[0] == Split(b)[0];
    } else {
      var c, a' := a[0], a[1..];
      assert a == [c] + a' && a + b == [c] + (a' + b);
      SplitAppend(a', b);
      SplitCons(c, a' + b);
      SplitCons(c, a');
      if c == '\n' {
        FuseEmptyFirst(Split(a'), Split(b));
      } else {
        FusePrefixFirst(c, Split(a'), Split(b));
      }
    }
  }

  /** The offset of line `i` in the joined text: each earlier line contributes its length plus
      one for its line feed. */
  function Offset(lines: seq<string>, i: nat): (r: nat)
    requires i <= |lines|
  {
    if i == 0 then 0 else Offset(lines, i - 1) + |lines[i - 1]| + 1
  }

  lemma {:induction false} JoinPrefix(lines: seq<string>, i: nat)
    requires 0 < i < |lines|
    ensures Join(lines) == Join(lines[..i]) + "\n" + Join(lines[i..])
  {
    if i > 1 {
      JoinPrefix(lines[1..], i - 1);
      assert lines[1..][..i - 1] == lines[..i][1..];
      assert lines[1..][i - 1..] == lines[i..];
    }
  }

  lemma {:induction false} OffsetIsJoinLength(lines: seq<string>, i: nat)
    requires 0 < i <= |lines|
    ensures Offset(lines, i) == |Join(lines[..i])| + 1
  {
    if i > 1 {
      OffsetIsJoinLength(lines, i - 1);
      JoinPrefix(lines[..i], i - 1);
      assert lines[..i][..i - 1] == lines[..i - 1];
      assert lines[..i][i - 1..] == [lines[i - 1]];
    }
  }

  /** The text of `Join(lines)` before line `i`, line feed included. */
  function Head(lines: seq<string>, i: nat): string
    requires i <= |lines|
  {
    if i == 0 then "" else Join(lines[..i]) + "\n"
  }

  /** The text of `Join(lines)` after line `i`, line feed included. */
  function Tail(lines: seq<string>, i: nat): string
    requires i < |lines|
  {
    if i + 1 < |lines| then "\n" + Join(lines[i + 1..]) else ""
  }

  /** The first line and everything after it. */
  lemma JoinFirst(lines: seq<string>)
    requires |lines| >= 1
    ensures Join(lines) == lines[0] + Tail(lines, 0)
  {
  }

  /** Line `i` starts at `Offset(lines, i)`. */
  lemma HeadLength(lines: seq<string>, i: nat)
    requires i <= |lines|
    ensures |Head(lines, i)| == Offset(lines, i)
  {
    if i > 0 {
      OffsetIsJoinLength(lines, i);
    }
  }

  /** The lines from `i` on, joined: line `i` and what follows it. */
  lemma JoinFrom(lines: seq<string>, i: nat)
    requires i < |lines|
    ensures Join(lines[i..]) == lines[i] + Tail(lines, i)
  {
    var rest := lines[i..];
    JoinFirst(rest);
    if i + 1 < |lines| {
      assert rest[1..] == lines[i + 1..];
    }
  }

  lemma JoinAroundLater(lines: seq<string>, i: nat)
    requires 0 < i < |lines|
    ensures Join(lines) == Head(lines, i) + lines[i] + Tail(lines, i)
  {
    JoinPrefix(lines, i);
    JoinFrom(lines, i);
    var j := Join(lines[..i]);
    assert Head(lines, i) == j + "\n";
  }

  lemma JoinAroundFirst(lines: seq<string>)
    requires 0 < |lines|
    ensures Join(lines) == Head(lines, 0) + lines[0] + Tail(lines, 0)
  {
    JoinFirst(lines);
    assert Head(lines, 0) + lines[0] == lines[0];
  }

  /** `Join(lines)` is line `i` with what comes before and after it, and line `i` starts at
      `Offset(lines, i)`. */
  lemma JoinAround(lines: seq<string>, i: nat)
    requires i < |lines|
    ensures Join(lines) == Head(lines, i) + lines[i] + Tail(lines, i)
    ensures |Head(lines, i)| == Offset(lines, i)
  {
    HeadLength(lines, i);
    if i > 0 {
      JoinAroundLater(lines, i);
    } else {
      JoinAroundFirst(lines);
    }
  }

  /** Line `i` of `lines` sits in `Join(lines)` at `Offset(lines, i)`, followed by a line feed
      unless it is the last line. */
  lemma JoinLine(lines: seq<string>, i: nat)
    requires i < |lines|
    ensures Offset(lines, i) + |lines[i]| <= |Join(lines)|
    ensures Join(lines)[Offset(lines, i)..Offset(lines, i) + |lines[i]|] == lines[i]
    ensures i + 1 < |lines| ==>
      Offset(lines, i) + |lines[i]| < |Join(lines)| && Join(lines)[Offset(lines, i) + |lines[i]|] == '\n'
    ensures i + 1 == |lines| ==> Offset(lines, i) + |lines[i]| == |Join(lines)|
  {
    JoinAround(lines, i);
    var h := Head(lines, i);
    assert Join(lines)[|h|..|h| + |lines[i]|] == lines[i];
    if i + 1 < |lines| {
      assert Join(lines)[|h| + |lines[i]|] == Tail(lines, i)[0];
    }
  }

  /** Offsets depend only on the lines before. */
  lemma {:induction false} OffsetSamePrefix(a: seq<string>, b: seq<string>, i: nat)
    requires i <= |a| && i <= |b| && a[..i] == b[..i]
    ensures Offset(a, i) == Offset(b, i)
  {
    if i > 0 {
      assert a[..i - 1] == a[..i][..i - 1] && b[..i - 1] == b[..i][..i - 1];
      assert a[i - 1] == a[..i][i - 1] && b[i - 1] == b[..i][i - 1];
      OffsetSamePrefix(a, b, i - 1);
    }
  }

  // ---------------------------------------------------------------------------
  // startsWith and includes
  // ---------------------------------------------------------------------------

  /** `s.startsWith(p)`. */
  predicate StartsWith(s: string, p: string) {
    p <= s
  }

  /** `Math.min` and `Math.max` on integers. */
  function Min(a: int, b: int): int {
    if a < b then a else b
  }

  function Max(a: int, b: int): int {
    if a < b then b else a
  }

  /** `k` occurs in `s` starting at index `i`. */
  predicate OccursAt(s: string, k: string, i: nat) {
    i + |k| <= |s| && s[i..i + |k|] == k
  }

  /** `s.includes(k)`. */
  function Contains(s: string, k: string): (r: bool)
    ensures r <==> exists i: nat :: OccursAt(s, k, i)
  {
    if k <= s then
      assert OccursAt(s, k, 0);
      true
    else if s == [] then
      false
    else
      var r := Contains(s[1..], k);
      assert forall i: nat :: OccursAt(s, k, i + 1) <==> OccursAt(s[1..], k, i) by {
        forall i: nat ensures OccursAt(s, k, i + 1) <==> OccursAt(s[1..], k, i) {
          if i + 1 + |k| <= |s| {
            assert s[i + 1..i + 1 + |k|] == s[1..][i..i + |k|];
          }
        }
      }
      assert !OccursAt(s, k, 0);
      assert (exists i: nat :: OccursAt(s, k, i)) ==> exists j: nat :: OccursAt(s[1..], k, j) by {
        if exists i: nat :: OccursAt(s, k, i) {
          var i: nat :| OccursAt(s, k, i);
          assert i > 0;
          assert OccursAt(s[1..], k, i - 1);
        }
      }
      r
  }

  // ---------------------------------------------------------------------------
  // TextEncoder: UTF-8
  // ---------------------------------------------------------------------------

  /** The UTF-8 encoding of one Unicode scalar value. */
  function Utf8Char(c: char): (r: seq<byte>)
    ensures 1 <= |r| <= 4
    ensures (|r| == 1) <==> (c as int < 0x80)
    ensures |r| == 1 ==> r[0] == c as int
    ensures |r| > 1 ==> r[0] >= 0xC0 && forall k :: 1 <= k < |r| ==> 0x80 <= r[k] < 0xC0
  {
    var n := c as int;
    if n < 0x80 then [n]
    else if n < 0x800 then [0xC0 + n / 64, 0x80 + n % 64]
    else if n < 0x10000 then [0xE0 + n / 4096, 0x80 + (n / 64) % 64, 0x80 + n % 64]
    else [0xF0 + n / 262144, 0x80 + (n / 4096) % 64, 0x80 + (n / 64) % 64, 0x80 + n % 64]
  }

  /** `new TextEncoder().encode(s)`. */
  function Utf8(s: string): (r: seq<byte>)
    ensures |r| >= |s|
  {
    if s == [] then [] else Utf8Char(s[0]) + Utf8(s[1..])
  }

  lemma {:induction false} Utf8Append(a: string, b: string)
    ensures Utf8(a + b) == Utf8(a) + Utf8(b)
  {
    if a != [] {
      assert (a + b)[1..] == a[1..] + b;
      Utf8Append(a[1..], b);
    } else {
      assert a + b == b;
    }
  }

  /** The encoding of a text with a line feed appended ends in the single byte 10, and that
      is the only byte 10 the line feed contributes. */
  lemma Utf8WithNewline(s: string)
    ensures Utf8(s + "\n") == Utf8(s) + [10]
  {
    Utf8Append(s, "\n");
  }

  // ---------------------------------------------------------------------------
  // Array.prototype.join and JSON.stringify
  // ---------------------------------------------------------------------------

  /** `parts.join(sep)`. */
  function JoinWith(sep: string, parts: seq<string>): string {
    if |parts| == 0 then ""
    else if |parts| == 1 then parts[0]
    else parts[0] + sep + JoinWith(sep, parts[1..])
  }

  /** The sum of the lengths of `parts`. */
  function TotalLength(parts: seq<string>): nat {
    if parts == [] then 0 else |parts[0]| + TotalLength(parts[1..])
  }

  /** A join holds every part and one separator between each two neighbours. */
  lemma {:induction false} JoinWithLength(sep: string, parts: seq<string>)
    requires |parts| > 0
    ensures |JoinWith(sep, parts)| == TotalLength(parts) + (|parts| - 1) * |sep|
  {
    if |parts| > 1 {
      JoinWithLength(sep, parts[1..]);
    }
  }

  /** What `JSON.stringify(v)` does with a value: returns a text, returns `undefined` (for
      values JSON cannot represent), or throws (for cycles and big integers). */
  datatype JsonResult = Stringified(text: string) | Unrepresentable | Throws
}
