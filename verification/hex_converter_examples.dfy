/**
  The expected behaviour of `Firmware/hexConverter.py` on the shapes of
  record a listing holds (`Record`, `TwoFields`, stated for any
  whitespace-free fields) and on concrete inputs built from them.
 */
module HexConverterExamples {
  import opened Split
  import opened HexConverter

  /** Two records, each with a line break from `readlines`. */
  lemma TwoRecords(a: string, b: string)
    requires a == "A 0x1F\n" && b == "B 0x2A\n"
    ensures Convert([a, b]) == Success(["1F\n", "2A\n"])
  {
    Record("A", "1F", a);
    Record("B", "2A", b);
    assert "1F" + "\n" == "1F\n" && "2A" + "\n" == "2A\n";
    ConvertEachLine([a, b], ["1F\n", "2A\n"]);
  }

  /** The prefix is dropped whatever it is, not only `0x`. */
  lemma AnyPrefixIsDropped(line: string)
    requires line == "X AB1234"
    ensures ConvertLine(line) == Some("1234\n")
  {
    TwoFields("X", "AB1234", "", line);
    PayloadDropsAnyPrefix("AB", "1234");
    assert "AB1234" == "AB" + "1234";
    assert "1234" + "\n" == "1234\n";
  }

  /** A line holding one field aborts the conversion at that line. */
  lemma SingleFieldAborts(a: string, b: string)
    requires a == "A 0x1F\n" && b == "0x2A\n"
    ensures Convert([a, b]) == Failure(IndexError(1))
  {
    Record("A", "1F", a);
    SingleField(b);
    var lines := [a, b];
    assert lines[0] == a && lines[1] == b;
  }

  /** An empty line between two records aborts the conversion; it is not
      skipped. */
  lemma BlankLineAborts(a: string, b: string, c: string)
    requires a == "A 0x1F\n" && b == "\n" && c == "B 0x2A\n"
    ensures Convert([a, b, c]) == Failure(IndexError(1))
  {
    Record("A", "1F", a);
    assert IsBlank(b);
    TokensEmptyIffBlank(b);
    var lines := [a, b, c];
    assert lines[0] == a && lines[1] == b;
  }

  /** A record as the listing writes it: a first field, a space, `0x` and
      the payload, and the line break `readlines` leaves. */
  lemma Record(first: string, payload: string, line: string)
    requires IsWord(first) && IsWord(payload)
    requires line == first + " 0x" + payload + "\n"
    ensures ConvertLine(line) == Some(payload + "\n")
  {
    var second := "0x" + payload;
    assert IsWord(second) by {
      assert forall i :: 2 <= i < |second| ==> second[i] == payload[i - 2];
    }
    assert line == first + " " + second + "\n";
    TwoFields(first, second, "\n", line);
    PayloadDropsAnyPrefix("0x", payload);
  }

  lemma SingleField(line: string)
    requires line == "0x2A\n"
    ensures ConvertLine(line) == None
  {
    var g, t := ["", "\n"], ["0x2A"];
    assert IsLayout(g, t);
    assert Join(g[1..], t[1..]) == "\n";
    assert Join(g, t) == line;
    TokensOfLayout(g, t);
  }

  /** The shape of every record above: two fields separated by one space,
      and whitespace at the end. */
  lemma TwoFields(first: string, second: string, end: string, line: string)
    requires IsWord(first) && IsWord(second) && IsBlank(end)
    requires line == first + " " + second + end
    ensures ConvertLine(line) == Some(Payload(second) + "\n")
  {
    var g, t := ["", " ", end], [first, second];
    assert IsLayout(g, t);
    assert Join(g[2..], t[2..]) == end;
    assert Join(g[1..], t[1..]) == " " + (second + end);
    assert Join(g, t) == line;
    ConvertLineOfLayout(g, t);
  }
}
