/**
  The line transformation of `Firmware/hexConverter.py`. Every input line is
  split on whitespace, its second field loses its first two characters and
  gets a line break appended (the list comprehension of line 9); then every
  element equal to `"\n\n"` is dropped (line 11).

  A line with fewer than two fields makes `split()[1]` raise `IndexError`,
  which aborts the whole conversion. That is the error case of `Convert`.
  The filter of line 11 never removes anything, because no element built by
  line 9 can equal `"\n\n"`.
 */
module HexConverter {
  import opened Split
  import TextFile

  datatype Option<+T> = None | Some(value: T)

  datatype Result<+T, +E> = Success(value: T) | Failure(error: E)

  /** The `IndexError` raised by `split()[1]`, with the position of the
      input line that raised it. */
  datatype Error = IndexError(line: nat)

  /** The element line 11 filters out. */
  const BlankMarker: string := "\n\n"

  /** Python's `token[2:]`: the token without its first two characters;
      empty when the token has two characters or fewer. */
  function Payload(token: string): (p: string)
    ensures |p| == if |token| <= 2 then 0 else |token| - 2
    ensures p == token[|token| - |p|..]
  {
    if |token| <= 2 then [] else token[2..]
  }

  /** An element of the converted file: a payload free of whitespace,
      followed by one line break. */
  predicate IsOutputLine(x: string) {
    && |x| > 0
    && x[|x| - 1] == '\n'
    && forall k :: 0 <= k < |x| - 1 ==> !IsSpace(x[k])
  }

  /** Line 9 for one input line: `line.split()[1][2:] + '\n'`, or `None`
      when `split()[1]` raises because the line has fewer than two fields. */
  function ConvertLine(line: string): (r: Option<string>)
    ensures r.Some? <==> |Tokens(line)| >= 2
    ensures r.Some? ==> IsOutputLine(r.value)
    ensures r.Some? ==> r.value != BlankMarker
  {
    var fields := Tokens(line);
    if |fields| < 2 then None
    else
      var p := Payload(fields[1]);
      assert forall k :: 0 <= k < |p| ==> p[k] == fields[1][|fields[1]| - |p| + k];
      assert p + "\n" != BlankMarker by {
        assert IsSpace(BlankMarker[0]);
      }
      Some(p + "\n")
  }

  /** A list comprehension `[f(x) for x in xs]` whose element expression
      may raise: the elements are computed left to right and the first
      one that raises ends the whole comprehension. The failure carries
      the position of that element. */
  function Comprehension<A, B>(f: A -> Option<B>, xs: seq<A>): (r: Result<seq<B>, nat>)
    ensures r.Success? <==> forall i :: 0 <= i < |xs| ==> f(xs[i]).Some?
    ensures r.Success? ==> |r.value| == |xs|
    ensures r.Success? ==> forall i :: 0 <= i < |xs| ==> f(xs[i]) == Some(r.value[i])
    ensures r.Failure? ==>
      && r.error < |xs|
      && f(xs[r.error]).None?
      && forall j :: 0 <= j < r.error ==> f(xs[j]).Some?
  {
    if xs == [] then Success([])
    else
      match f(xs[0])
      case None => Failure(0)
      case Some(y) =>
        assert forall i :: 0 < i < |xs| ==> xs[i] == xs[1..][i - 1];
        match Comprehension(f, xs[1..])
        case Failure(k) => Failure(k + 1)
        case Success(ys) => Success([y] + ys)
  }

  /** The list comprehension of line 9; a failure is the `IndexError` of
      the first line with fewer than two fields. */
  function ModifiedLines(lines: seq<string>): (r: Result<seq<string>, Error>)
    ensures r.Success? <==> forall i :: 0 <= i < |lines| ==> ConvertLine(lines[i]).Some?
    ensures r.Success? ==> |r.value| == |lines|
    ensures r.Success? ==> forall i :: 0 <= i < |lines| ==> ConvertLine(lines[i]) == Some(r.value[i])
    ensures r.Failure? ==>
      && r.error.line < |lines|
      && ConvertLine(lines[r.error.line]).None?
      && forall j :: 0 <= j < r.error.line ==> ConvertLine(lines[j]).Some?
  {
    match Comprehension(ConvertLine, lines)
    case Success(m) => Success(m)
    case Failure(i) => Failure(IndexError(i))
  }

  /** The filter of line 11: every element except `"\n\n"`, in order. */
  function DropBlankMarkers(xs: seq<string>): (r: seq<string>)
    ensures multiset(r) == multiset(xs)[BlankMarker := 0]
    ensures (forall i :: 0 <= i < |xs| ==> xs[i] != BlankMarker) ==> r == xs
  {
    if xs == [] then []
    else
      assert xs == [xs[0]] + xs[1..];
      if xs[0] == BlankMarker then DropBlankMarkers(xs[1..])
      else [xs[0]] + DropBlankMarkers(xs[1..])
  }

  /** The filter keeps what it keeps in order: filtering a concatenation
      filters each part and concatenates the results. */
  lemma {:induction false} DropBlankMarkersConcat(xs: seq<string>, ys: seq<string>)
    ensures DropBlankMarkers(xs + ys) == DropBlankMarkers(xs) + DropBlankMarkers(ys)
    decreases |xs|
  {
    if xs == [] {
      assert xs + ys == ys;
    } else {
      assert (xs + ys)[0] == xs[0];
      assert (xs + ys)[1..] == xs[1..] + ys;
      DropBlankMarkersConcat(xs[1..], ys);
    }
  }

  /** Lines 9 to 11: the lines written to the output file, or the error that
      aborts the program before anything is written. */
  function Convert(lines: seq<string>): (r: Result<seq<string>, Error>)
    ensures lines == [] ==> r == Success([])
    ensures r.Success? <==> forall i :: 0 <= i < |lines| ==> |Tokens(lines[i])| >= 2
    ensures r.Success? ==> |r.value| == |lines|
    ensures r.Success? ==> forall i :: 0 <= i < |lines| ==> ConvertLine(lines[i]) == Some(r.value[i])
    ensures r.Failure? ==>
      && r.error.line < |lines|
      && |Tokens(lines[r.error.line])| < 2
      && forall j :: 0 <= j < r.error.line ==> |Tokens(lines[j])| >= 2
  {
    match ModifiedLines(lines)
    case Failure(e) => Failure(e)
    case Success(m) => Success(DropBlankMarkers(m))
  }

  /** The converse of `Convert`'s contract: when every line converts, the
      output is exactly the list of their conversions, in order. */
  lemma ConvertEachLine(lines: seq<string>, outs: seq<string>)
    requires |lines| == |outs|
    requires forall i :: 0 <= i < |lines| ==> ConvertLine(lines[i]) == Some(outs[i])
    ensures Convert(lines) == Success(outs)
  {
    var r := Convert(lines);
    assert r.Success?;
    forall i | 0 <= i < |lines|
      ensures r.value[i] == outs[i]
    {
      assert ConvertLine(lines[i]) == Some(r.value[i]);
    }
    assert r.value == outs;
  }

  /** The filter of line 11 removes nothing from what line 9 produces. */
  lemma FilterRemovesNothing(lines: seq<string>)
    requires ModifiedLines(lines).Success?
    ensures DropBlankMarkers(ModifiedLines(lines).value) == ModifiedLines(lines).value
    ensures Convert(lines) == ModifiedLines(lines)
  {
  }

  /** A line with fewer than two fields aborts the conversion: it is never
      skipped, and the conversion fails at the first short line, which is
      this line or an earlier one. */
  lemma ShortLineFails(lines: seq<string>, i: nat)
    requires i < |lines| && |Tokens(lines[i])| < 2
    ensures Convert(lines).Failure?
    ensures Convert(lines).error.line <= i
  {
  }

  /** In particular an empty or all-whitespace line aborts the conversion
      rather than being dropped. */
  lemma BlankLineFails(lines: seq<string>, i: nat)
    requires i < |lines| && IsBlank(lines[i])
    ensures Convert(lines).Failure?
  {
    TokensEmptyIffBlank(lines[i]);
    ShortLineFails(lines, i);
  }

  /** Only the second field matters: whatever the first, third and later
      fields are, and however much whitespace surrounds them, the output is
      the second field's payload and a line break. */
  lemma ConvertLineOfLayout(g: seq<string>, t: seq<string>)
    requires IsLayout(g, t) && |t| >= 2
    ensures ConvertLine(Join(g, t)) == Some(Payload(t[1]) + "\n")
  {
    TokensOfLayout(g, t);
  }

  /** Two lines whose second fields agree convert alike, however their
      other fields and their whitespace differ. */
  lemma SameSecondFieldSameOutput(g1: seq<string>, t1: seq<string>, g2: seq<string>, t2: seq<string>)
    requires IsLayout(g1, t1) && IsLayout(g2, t2)
    requires |t1| >= 2 && |t2| >= 2 && t1[1] == t2[1]
    ensures ConvertLine(Join(g1, t1)) == ConvertLine(Join(g2, t2))
  {
    ConvertLineOfLayout(g1, t1);
    ConvertLineOfLayout(g2, t2);
  }

  /** The first two characters of the second field are dropped whatever
      they are, and the rest is kept unchanged. */
  lemma PayloadDropsAnyPrefix(prefix: string, rest: string)
    requires |prefix| == 2
    ensures Payload(prefix + rest) == rest
  {
    assert (prefix + rest)[2..] == rest;
  }

  /** A second field of two characters or fewer leaves an empty payload. */
  lemma ShortFieldGivesBareLineBreak(line: string)
    requires |Tokens(line)| >= 2 && |Tokens(line)[1]| <= 2
    ensures ConvertLine(line) == Some("\n")
  {
    var p := Payload(Tokens(line)[1]);
    assert p == [];
    assert p + "\n" == "\n";
  }

  /** Element `i` of the output comes from input line `i` alone: changing
      any other line does not change it. */
  lemma OutputIsLineByLine(lines: seq<string>, lines': seq<string>, i: nat)
    requires i < |lines| && i < |lines'| && lines[i] == lines'[i]
    requires Convert(lines).Success? && Convert(lines').Success?
    ensures Convert(lines).value[i] == Convert(lines').value[i]
  {
    assert ConvertLine(lines[i]) == Some(Convert(lines).value[i]);
    assert ConvertLine(lines'[i]) == Some(Convert(lines').value[i]);
  }

  /** The output file holds exactly one line per input line: reading back
      what `writelines` wrote gives the converted lines again. */
  lemma OutputFileHasOneLinePerInputLine(lines: seq<string>)
    requires Convert(lines).Success?
    ensures |TextFile.ReadLines(TextFile.WriteLines(Convert(lines).value))| == |lines|
    ensures TextFile.ReadLines(TextFile.WriteLines(Convert(lines).value)) == Convert(lines).value
  {
    var out := Convert(lines).value;
    forall i | 0 <= i < |out|
      ensures TextFile.IsLine(out[i])
    {
      assert ConvertLine(lines[i]) == Some(out[i]);
      assert IsOutputLine(out[i]);
      assert forall k :: 0 <= k < |out[i]| - 1 ==> out[i][k] != '\n' by {
        assert IsSpace('\n');
      }
    }
    TextFile.ReadLinesOfWritten(out);
  }
}
