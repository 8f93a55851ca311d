/** Text helpers: Python's `str.join` and the reading of a text file as its lines. */
module Text {

  /** `sep.join(parts)`. */
  function JoinWith(sep: string, parts: seq<string>): (r: string)
  {
    if |parts| == 0 then ""
    else if |parts| == 1 then parts[0]
    else parts[0] + sep + JoinWith(sep, parts[1..])
  }

  lemma ConcatAssoc(a: string, b: string, c: string)
    ensures a + (b + c) == a + b + c
  {
  }

  /** The index of the first newline in `s`, or `|s|` when there is none. */
  function NewlineIndex(s: string): (k: nat)
    ensures k <= |s|
    ensures k < |s| ==> s[k] == '\n'
    ensures '\n' !in s[..k]
  {
    if s == [] then 0
    else if s[0] == '\n' then 0
    else
      var k := 1 + NewlineIndex(s[1..]);
      assert s[..k] == [s[0]] + s[1..][..k - 1];
      k
  }

  /**
   * The lines of a text file: each line ends at a newline, and a final line
   * without one still counts (the reading `str.splitlines` gives for `\n`).
   */
  function Lines(s: string): seq<string>
    decreases |s|
  {
    if s == [] then []
    else
      var k := NewlineIndex(s);
      if k == |s| then [s] else [s[..k]] + Lines(s[k + 1..])
  }

  lemma {:induction false} NewlineIndexOfLine(line: string, rest: string)
    requires '\n' !in line
    ensures NewlineIndex(line + "\n" + rest) == |line|
  {
    if line != [] {
      assert (line + "\n" + rest)[1..] == line[1..] + "\n" + rest;
      assert line[0] in line;
      NewlineIndexOfLine(line[1..], rest);
    }
  }

  /** A line followed by a newline is the first line of whatever comes after it. */
  lemma LinesOfLine(line: string, rest: string)
    requires '\n' !in line
    ensures Lines(line + "\n" + rest) == [line] + Lines(rest)
  {
    var s := line + "\n" + rest;
    NewlineIndexOfLine(line, rest);
    assert s[..|line|] == line;
    assert s[|line| + 1..] == rest;
  }

  /** Lines of a text that ends in a newline, followed by more text. */
  lemma {:induction false} LinesOfConcat(a: string, b: string)
    requires a == [] || a[|a| - 1] == '\n'
    ensures Lines(a + b) == Lines(a) + Lines(b)
    decreases |a|
  {
    if a == [] {
      assert a + b == b;
    } else {
      var k := NewlineIndex(a);
      assert k < |a|;
      var line, rest := a[..k], a[k + 1..];
      SplitFirstLine(a, b, line, rest);
      LinesOfConcat(rest, b);
      ConsAssoc(line, Lines(rest), Lines(b));
    }
  }

  lemma SplitFirstLine(a: string, b: string, line: string, rest: string)
    requires a == line + "\n" + rest && '\n' !in line
    requires a[|a| - 1] == '\n'
    ensures rest == [] || rest[|rest| - 1] == '\n'
    ensures Lines(a) == [line] + Lines(rest)
    ensures Lines(a + b) == [line] + Lines(rest + b)
  {
    if rest != [] { assert rest[|rest| - 1] == a[|a| - 1]; }
    LinesOfLine(line, rest);
    LinesOfLineConcat(line, rest, b);
  }

  lemma LinesOfLineConcat(line: string, rest: string, b: string)
    requires '\n' !in line
    ensures Lines(line + "\n" + rest + b) == [line] + Lines(rest + b)
  {
    assert line + "\n" + rest + b == line + "\n" + (rest + b);
    LinesOfLine(line, rest + b);
  }

  lemma ConsAssoc(x: string, s: seq<string>, t: seq<string>)
    ensures [x] + (s + t) == ([x] + s) + t
  {
  }
}
