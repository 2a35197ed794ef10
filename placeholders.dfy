/**
 * What `re.compile(r'\{(.*)\}').findall(prompt)` returns. Without flags `.`
 * matches every character except a line feed, and `.*` is greedy, so on each
 * line the one capture runs from after the first `{` to before the last `}`.
 * `Scan` follows the regex engine (try each start position left to right,
 * resume after a match); `InputVariables` states the per-line meaning; the two
 * are proved equal.
 */
module Placeholders {
  import opened Wrappers

  /** Index of the first `c` in `s`. */
  function FirstIndex(s: string, c: char): (r: Option<nat>)
    ensures r.Some? ==> r.value < |s| && s[r.value] == c
    ensures r.Some? ==> forall j :: 0 <= j < r.value ==> s[j] != c
    ensures r.None? ==> forall j :: 0 <= j < |s| ==> s[j] != c
  {
    if s == [] then None
    else if s[0] == c then Some(0)
    else match FirstIndex(s[1..], c)
      case None => None
      case Some(i) => Some(i + 1)
  }

  /** Index of the last `c` in `s`. */
  function LastIndex(s: string, c: char): (r: Option<nat>)
    ensures r.Some? ==> r.value < |s| && s[r.value] == c
    ensures r.Some? ==> forall j :: r.value < j < |s| ==> s[j] != c
    ensures r.None? ==> forall j :: 0 <= j < |s| ==> s[j] != c
  {
    if s == [] then None
    else if s[|s| - 1] == c then Some(|s| - 1)
    else LastIndex(s[..|s| - 1], c)
  }

  /** Where the line holding `s[0]` ends: the first line feed, or the end of the text. */
  function LineEnd(s: string): (e: nat)
    ensures e <= |s|
  {
    match FirstIndex(s, '\n')
    case None => |s|
    case Some(k) => k
  }

  /**
   * The regex engine's scan of `s`: at a `{` whose line has a later `}`, match
   * up to the last such `}` and resume after it; otherwise move on one character.
   */
  function Scan(s: string): seq<string>
    decreases |s|
  {
    if s == [] then []
    else if s[0] == '{' then
      match LastIndex(s[..LineEnd(s)], '}')
      case Some(b) => [s[1..b]] + Scan(s[b + 1..])
      case None => Scan(s[1..])
    else Scan(s[1..])
  }

  /** The capture on one line: the text strictly between its first `{` and its last `}`. */
  function CaptureLine(line: string): Option<string>
  {
    match (FirstIndex(line, '{'), LastIndex(line, '}'))
    case (Some(a), Some(b)) => if a < b then Some(line[a + 1..b]) else None
    case _ => None
  }

  function CaptureSeq(line: string): seq<string>
  {
    match CaptureLine(line)
    case None => []
    case Some(v) => [v]
  }

  /** `s.split('\n')` */
  function SplitLines(s: string): (lines: seq<string>)
    ensures |lines| >= 1
    ensures forall i :: 0 <= i < |lines| ==> '\n' !in lines[i]
    decreases |s|
  {
    match FirstIndex(s, '\n')
    case None => [s]
    case Some(k) => [s[..k]] + SplitLines(s[k + 1..])
  }

  /** `'\n'.join(lines)` */
  function JoinLines(lines: seq<string>): string
  {
    if |lines| <= 1 then (if lines == [] then "" else lines[0])
    else lines[0] + "\n" + JoinLines(lines[1..])
  }

  /** The captures of a list of lines, one or none per line, in line order. */
  function CapturesOf(lines: seq<string>): seq<string>
  {
    if lines == [] then [] else CaptureSeq(lines[0]) + CapturesOf(lines[1..])
  }

  /** The input variables a prompt declares: each line's capture, in line order. */
  function InputVariables(prompt: string): seq<string>
  {
    CapturesOf(SplitLines(prompt))
  }

  /** Splitting on line feeds loses nothing: joining the lines gives the text back. */
  lemma {:induction false} SplitJoin(s: string)
    ensures JoinLines(SplitLines(s)) == s
    decreases |s|
  {
    match FirstIndex(s, '\n')
    case None =>
    case Some(k) =>
      var rest := SplitLines(s[k + 1..]);
      SplitJoin(s[k + 1..]);
      assert SplitLines(s)[1..] == rest;
      assert s == s[..k] + "\n" + s[k + 1..];
  }

  /** `FirstIndex` is determined by its contract. */
  lemma FirstIndexIs(s: string, c: char, k: nat)
    requires k < |s| && s[k] == c && forall j :: 0 <= j < k ==> s[j] != c
    ensures FirstIndex(s, c) == Some(k)
  {
  }

  /** `LastIndex` is determined by its contract. */
  lemma LastIndexIs(s: string, c: char, k: nat)
    requires k < |s| && s[k] == c && forall j :: k < j < |s| ==> s[j] != c
    ensures LastIndex(s, c) == Some(k)
  {
    var r := LastIndex(s, c);
    assert r.Some?;
    assert !(r.value < k) && !(r.value > k);
  }

  /** A line that does not start with `{` captures what its tail captures. */
  lemma CaptureLineTail(line: string)
    requires |line| > 0 && line[0] != '{'
    ensures CaptureLine(line) == CaptureLine(line[1..])
  {
    var t := line[1..];
    var fb := FirstIndex(t, '{');
    assert FirstIndex(line, '{') == if fb.None? then None else Some(fb.value + 1);
    var lb := LastIndex(t, '}');
    if lb.Some? {
      var j := lb.value;
      LastIndexIs(line, '}', j + 1);
      if fb.Some? && fb.value < j {
        var i := fb.value;
        assert forall k :: 0 <= k < |t| ==> t[k] == line[k + 1];
        assert t[i + 1..j] == line[i + 2..j + 1];
      }
    } else if line[0] == '}' {
      LastIndexIs(line, '}', 0);
    } else {
      assert LastIndex(line, '}').None?;
    }
  }

  /** A line without `}` captures nothing. */
  lemma CaptureLineNoClose(line: string)
    requires forall j :: 0 <= j < |line| ==> line[j] != '}'
    ensures CaptureSeq(line) == []
  {
    assert LastIndex(line, '}').None?;
  }

  /** A whole line followed by a line feed (or the end): the scan picks up that line's capture. */
  lemma {:induction false} ScanLine(line: string, rest: string)
    requires forall j :: 0 <= j < |line| ==> line[j] != '\n'
    requires rest == [] || rest[0] == '\n'
    ensures Scan(line + rest) == CaptureSeq(line) + Scan(rest)
    decreases |line|, 2
  {
    var s := line + rest;
    if line == [] {
      assert s == rest;
    } else if line[0] != '{' {
      assert s[1..] == line[1..] + rest;
      ScanLine(line[1..], rest);
      CaptureLineTail(line);
    } else {
      ScanLineAtOpen(line, rest);
    }
  }

  /** The step of `ScanLine` for a line that starts with `{`. */
  lemma {:induction false} ScanLineAtOpen(line: string, rest: string)
    requires forall j :: 0 <= j < |line| ==> line[j] != '\n'
    requires rest == [] || rest[0] == '\n'
    requires |line| > 0 && line[0] == '{'
    ensures Scan(line + rest) == CaptureSeq(line) + Scan(rest)
    decreases |line|, 1
  {
    match LastIndex(line, '}')
    case Some(b) => ScanLineClosed(line, rest, b);
    case None => ScanLineUnclosed(line, rest);
  }

  /** `ScanLineAtOpen` when the line has a `}`. */
  lemma {:induction false} ScanLineClosed(line: string, rest: string, b: nat)
    requires forall j :: 0 <= j < |line| ==> line[j] != '\n'
    requires rest == [] || rest[0] == '\n'
    requires |line| > 0 && line[0] == '{'
    requires LastIndex(line, '}') == Some(b)
    ensures Scan(line + rest) == CaptureSeq(line) + Scan(rest)
    decreases |line|, 0
  {
    var tail := line[b + 1..];
    ScanOpenClosed(line, rest, b);
    OpenCapture(line, b);
    AfterLastClose(line, b);
    ScanLine(tail, rest);
    assert CaptureSeq(tail) + Scan(rest) == Scan(rest);
  }

  /** `ScanLineAtOpen` when the line has no `}`. */
  lemma {:induction false} ScanLineUnclosed(line: string, rest: string)
    requires forall j :: 0 <= j < |line| ==> line[j] != '\n'
    requires rest == [] || rest[0] == '\n'
    requires |line| > 0 && line[0] == '{'
    requires LastIndex(line, '}') == None
    ensures Scan(line + rest) == CaptureSeq(line) + Scan(rest)
    decreases |line|, 0
  {
    var tail := line[1..];
    ScanOpenUnclosed(line, rest);
    ScanLine(tail, rest);
    CaptureLineNoClose(tail);
    assert CaptureSeq(line) == [];
  }

  /** The scan at the `{` that opens a line whose last `}` is at `b`: it matches up to `b` and resumes after it. */
  lemma ScanOpenClosed(line: string, rest: string, b: nat)
    requires forall j :: 0 <= j < |line| ==> line[j] != '\n'
    requires rest == [] || rest[0] == '\n'
    requires |line| > 0 && line[0] == '{'
    requires LastIndex(line, '}') == Some(b)
    ensures b < |line|
    ensures Scan(line + rest) == [line[1..b]] + Scan(line[b + 1..] + rest)
  {
    var s := line + rest;
    LineEndOfLine(line, rest);
    ScanMatch(s, b);
    assert s[b + 1..] == line[b + 1..] + rest;
    assert s[1..b] == line[1..b];
  }

  /** The scan at the `{` that opens a line with no `}`: it moves past the `{`. */
  lemma ScanOpenUnclosed(line: string, rest: string)
    requires forall j :: 0 <= j < |line| ==> line[j] != '\n'
    requires rest == [] || rest[0] == '\n'
    requires |line| > 0 && line[0] == '{'
    requires LastIndex(line, '}') == None
    ensures Scan(line + rest) == Scan(line[1..] + rest)
  {
    var s := line + rest;
    LineEndOfLine(line, rest);
    ScanSkip(s);
    assert s[1..] == line[1..] + rest;
  }

  /** The scan matches at a `{` whose line has a `}`, up to the last one. */
  lemma ScanMatch(s: string, b: nat)
    requires |s| > 0 && s[0] == '{'
    requires LastIndex(s[..LineEnd(s)], '}') == Some(b)
    ensures b < |s| && Scan(s) == [s[1..b]] + Scan(s[b + 1..])
  {
  }

  /** The scan moves on one character where no match starts. */
  lemma ScanSkip(s: string)
    requires |s| > 0
    requires s[0] == '{' ==> LastIndex(s[..LineEnd(s)], '}') == None
    ensures Scan(s) == Scan(s[1..])
  {
  }

  /** A line that opens with `{` and whose last `}` is at `b` captures `line[1..b]`. */
  lemma OpenCapture(line: string, b: nat)
    requires |line| > 0 && line[0] == '{'
    requires LastIndex(line, '}') == Some(b)
    ensures 0 < b < |line|
    ensures CaptureSeq(line) == [line[1..b]]
  {
    FirstIndexIs(line, '{', 0);
  }

  /** What follows the last `}` of a line captures nothing. */
  lemma AfterLastClose(line: string, b: nat)
    requires LastIndex(line, '}') == Some(b)
    ensures b < |line|
    ensures CaptureSeq(line[b + 1..]) == []
  {
    var tail := line[b + 1..];
    forall j | 0 <= j < |tail|
      ensures tail[j] != '}'
    {
      assert tail[j] == line[b + 1 + j];
    }
    CaptureLineNoClose(tail);
  }

  /** The line holding the first character of `line + rest` is `line`. */
  lemma LineEndOfLine(line: string, rest: string)
    requires forall j :: 0 <= j < |line| ==> line[j] != '\n'
    requires rest == [] || rest[0] == '\n'
    ensures (line + rest)[..LineEnd(line + rest)] == line
  {
    var s := line + rest;
    assert forall j :: 0 <= j < |line| ==> s[j] != '\n';
    if rest != [] {
      FirstIndexIs(s, '\n', |line|);
    } else {
      assert s == line;
    }
  }

  /** The regex engine's scan yields exactly each line's capture, in line order. */
  lemma {:induction false} ScanIsPerLine(s: string)
    ensures Scan(s) == InputVariables(s)
    decreases |s|
  {
    match FirstIndex(s, '\n')
    case None =>
      assert s + [] == s;
      ScanLine(s, []);
      assert SplitLines(s) == [s];
      assert [s][1..] == [];
      assert CapturesOf([s]) == CaptureSeq(s) + CapturesOf([]);
    case Some(k) =>
      var line, rest := s[..k], s[k..];
      assert s == line + rest;
      ScanLine(line, rest);
      assert rest[1..] == s[k + 1..];
      ScanIsPerLine(s[k + 1..]);
      var lines := SplitLines(s);
      assert lines[0] == line && lines[1..] == SplitLines(s[k + 1..]);
  }

  /** At most one input variable per line, and none contains a line feed. */
  lemma {:induction false} CapturesPerLine(lines: seq<string>)
    requires forall i :: 0 <= i < |lines| ==> '\n' !in lines[i]
    ensures |CapturesOf(lines)| <= |lines|
    ensures forall v :: v in CapturesOf(lines) ==> '\n' !in v
  {
    if lines != [] {
      CapturesPerLine(lines[1..]);
      var l := lines[0];
      match CaptureLine(l)
      case None =>
      case Some(v) =>
        var a, b := FirstIndex(l, '{').value, LastIndex(l, '}').value;
        assert v == l[a + 1..b];
        assert forall j :: 0 <= j < |v| ==> v[j] == l[a + 1 + j];
    }
  }

  /** A prompt yields at most one input variable per line, and no input variable spans lines. */
  lemma InputVariablesPerLine(prompt: string)
    ensures |InputVariables(prompt)| <= |SplitLines(prompt)|
    ensures forall v :: v in InputVariables(prompt) ==> '\n' !in v
  {
    CapturesPerLine(SplitLines(prompt));
  }

  /** Line order: the variables of a prompt are those of its first line, then those of the rest. */
  lemma {:induction false} CapturesOfAppend(a: seq<string>, b: seq<string>)
    ensures CapturesOf(a + b) == CapturesOf(a) + CapturesOf(b)
  {
    if a == [] {
      assert a + b == b;
    } else {
      assert (a + b)[1..] == a[1..] + b;
      CapturesOfAppend(a[1..], b);
    }
  }

  /** A text without line feeds is one line. */
  lemma SingleLine(line: string)
    requires forall j :: 0 <= j < |line| ==> line[j] != '\n'
    ensures InputVariables(line) == CaptureSeq(line)
  {
    assert SplitLines(line) == [line];
    assert [line][1..] == [];
    assert CapturesOf([line]) == CaptureSeq(line) + CapturesOf([]);
  }

  /** Line order: the first line's variable comes before those of the lines after it. */
  lemma NextLine(line: string, rest: string)
    requires forall j :: 0 <= j < |line| ==> line[j] != '\n'
    ensures InputVariables(line + "\n" + rest) == CaptureSeq(line) + InputVariables(rest)
  {
    var s := line + "\n" + rest;
    assert forall j :: 0 <= j < |line| ==> s[j] != '\n';
    FirstIndexIs(s, '\n', |line|);
    assert s[..|line|] == line && s[|line| + 1..] == rest;
    var lines := SplitLines(s);
    assert lines == [line] + SplitLines(rest);
    assert lines[1..] == SplitLines(rest);
  }

  /** A name with no braces and no line feed. */
  predicate PlainName(n: string)
  {
    forall j :: 0 <= j < |n| ==> n[j] != '{' && n[j] != '}' && n[j] != '\n'
  }

  /** `{n}` declares the input variable `n`, whatever braces `n` itself holds. */
  lemma Braced(n: string)
    requires forall j :: 0 <= j < |n| ==> n[j] != '\n'
    ensures CaptureSeq("{" + n + "}") == [n]
    ensures InputVariables("{" + n + "}") == [n]
  {
    var l := "{" + n + "}";
    FirstIndexIs(l, '{', 0);
    LastIndexIs(l, '}', |n| + 1);
    assert l[1..|n| + 1] == n;
    assert forall j :: 0 <= j < |l| ==> l[j] != '\n';
    SingleLine(l);
  }

  /** Greedy matching: two placeholders on one line come back as a single name, `a} {b`. */
  lemma GreedyOnOneLine(a: string, b: string)
    requires PlainName(a) && PlainName(b)
    ensures InputVariables("{" + a + "} {" + b + "}") == [a + "} {" + b]
  {
    var n := a + "} {" + b;
    assert "{" + a + "} {" + b + "}" == "{" + n + "}";
    forall j | 0 <= j < |n|
      ensures n[j] != '\n'
    {
      if j >= |a| + 3 {
        assert n[j] == b[j - |a| - 3];
      }
    }
    Braced(n);
  }

  /** `{n}` holds no line feed when `n` is a plain name. */
  lemma BracedOneLine(n: string)
    requires PlainName(n)
    ensures forall j :: 0 <= j < |n| ==> n[j] != '\n'
    ensures forall j :: 0 <= j < |n| + 2 ==> ("{" + n + "}")[j] != '\n'
  {
    var l := "{" + n + "}";
    forall j | 0 <= j < |l|
      ensures l[j] != '\n'
    {
      if 0 < j <= |n| {
        assert l[j] == n[j - 1];
      }
    }
  }

  /** On separate lines, each placeholder is its own input variable, in line order. */
  lemma OnePerLine(a: string, b: string)
    requires PlainName(a) && PlainName(b)
    ensures InputVariables("{" + a + "}\n{" + b + "}") == [a, b]
  {
    var l1, l2 := "{" + a + "}", "{" + b + "}";
    assert l1 + "\n" + l2 == "{" + a + "}\n{" + b + "}";
    BracedOneLine(a);
    NextLine(l1, l2);
    Braced(a);
    Braced(b);
  }
}
