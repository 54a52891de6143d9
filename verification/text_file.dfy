/**
  The text a list of lines becomes when it is written with `writelines`,
  and the list `readlines` makes of a text again. Only `'\n'` ends a line
  here, which is all the converter's output ever contains.
 */
module TextFile {

  const LineBreak: char := '\n'

  /** A single line as `readlines` returns it: one line break, at its end. */
  predicate IsLine(x: string) {
    && |x| > 0
    && x[|x| - 1] == LineBreak
    && forall k :: 0 <= k < |x| - 1 ==> x[k] != LineBreak
  }

  /** `writelines`: the lines written one after another, nothing added. */
  function WriteLines(lines: seq<string>): (text: string)
    ensures lines == [] ==> text == []
  {
    if lines == [] then [] else lines[0] + WriteLines(lines[1..])
  }

  /** Writing a concatenation of lists writes one text after the other. */
  lemma {:induction false} WriteLinesConcat(a: seq<string>, b: seq<string>)
    ensures WriteLines(a + b) == WriteLines(a) + WriteLines(b)
    decreases |a|
  {
    if a == [] {
      assert a + b == b;
    } else {
      assert (a + b)[0] == a[0];
      assert (a + b)[1..] == a[1..] + b;
      WriteLinesConcat(a[1..], b);
    }
  }

  /** Length of the first line of `text`, its line break included; the
      whole text when it holds no line break. */
  function FirstLineLength(text: string): (n: nat)
    requires text != []
    ensures 0 < n <= |text|
    ensures forall k :: 0 <= k < n - 1 ==> text[k] != LineBreak
    ensures n < |text| ==> text[n - 1] == LineBreak
  {
    if text[0] == LineBreak || |text| == 1 then 1 else 1 + FirstLineLength(text[1..])
  }

  /** `readlines`: the text cut after every line break; a last line without
      one is kept as it is. */
  function ReadLines(text: string): (lines: seq<string>)
    ensures text == [] <==> lines == []
    ensures forall k :: 0 <= k < |lines| ==>
      lines[k] != [] && forall j :: 0 <= j < |lines[k]| - 1 ==> lines[k][j] != LineBreak
    ensures forall k :: 0 <= k < |lines| - 1 ==> IsLine(lines[k])
    ensures WriteLines(lines) == text
    decreases |text|
  {
    if text == [] then []
    else
      var n := FirstLineLength(text);
      var rest := ReadLines(text[n..]);
      var lines := [text[..n]] + rest;
      assert lines[0] == text[..n] && lines[1..] == rest;
      assert text[..n] + text[n..] == text;
      lines
  }

  /** A complete line at the front of a text is the first line read back. */
  lemma {:induction false} FirstLineOf(x: string, rest: string)
    requires IsLine(x)
    ensures FirstLineLength(x + rest) == |x|
    decreases |x|
  {
    var s := x + rest;
    if |x| > 1 {
      assert s[0] == x[0] != LineBreak;
      assert x[1..] + rest == s[1..];
      assert IsLine(x[1..]) by {
        assert forall k :: 0 <= k < |x| - 2 ==> x[1..][k] == x[k + 1];
      }
      FirstLineOf(x[1..], rest);
    }
  }

  /** Reading back what `writelines` wrote gives the same lines, as long as
      each of them is a single complete line. */
  lemma {:induction false} ReadLinesOfWritten(lines: seq<string>)
    requires forall i :: 0 <= i < |lines| ==> IsLine(lines[i])
    ensures ReadLines(WriteLines(lines)) == lines
    decreases |lines|
  {
    if lines != [] {
      var rest := WriteLines(lines[1..]);
      var text := lines[0] + rest;
      FirstLineOf(lines[0], rest);
      assert text[..|lines[0]|] == lines[0];
      assert text[|lines[0]|..] == rest;
      ReadLinesOfWritten(lines[1..]);
      assert lines == [lines[0]] + lines[1..];
    }
  }
}
