# hexConverter line transformation, in Dafny

`Firmware/hexConverter.py` turns a listing into a firmware image file. Each
line of the listing holds whitespace-separated fields. The second field is a
two-character prefix (normally `0x`) followed by a hex payload. The script
keeps only the payload of every line, one per line, and writes the result to
`Firmware.hex`.

The whole computation is two Python expressions:

- line 9: `[line.split()[1][2:] + '\n' for line in lines]`;
- line 11: `[elem for elem in modified_lines if elem != '\n\n']`.

This project models them as pure functions over `seq<string>` and proves what
they do:

- `split.dfy` (module `Split`) models `str.split()` with no arguments.
  `Tokens` gives the maximal runs of non-whitespace. `Gaps` and `Join`
  describe the whitespace around those runs. Two round-trip lemmas show that
  `Tokens` returns exactly the words of the one well-formed layout a string
  has. `SplitWhitespace` is a scanning loop in the manner of CPython's
  `split_whitespace`, proved equal to `Tokens`.
- `hex_converter.dfy` (module `HexConverter`) holds the model of the script:
  - `Payload` is `token[2:]`;
  - `ConvertLine` is one element of the comprehension;
  - `Comprehension` and `ModifiedLines` model line 9;
  - `DropBlankMarkers` models line 11;
  - `Convert` models lines 9 to 11 together.

  A line with fewer than two fields makes `split()[1]` raise `IndexError`.
  That becomes `Failure(IndexError(i))`, where `i` is the first such line.
- `text_file.dfy` (module `TextFile`) models what `writelines` writes and
  what `readlines` reads back. It is used to show that the output file holds
  one line per input line.
- `hex_converter_examples.dfy` (module `HexConverterExamples`) proves the
  documented behaviour for general record shapes (`Record`, `TwoFields`,
  for any whitespace-free fields) and on concrete inputs.

Two facts stand out:

- The filter of line 11 never removes anything. Every element built on line 9
  is a whitespace-free payload followed by a single `'\n'`, so no element can
  equal `"\n\n"`.
- An empty or all-whitespace input line is not dropped. It aborts the whole
  conversion with `IndexError`. The filter reads as if it were meant to
  discard blank lines, but as written it never fires. The model follows the
  code.

Whitespace is Python 3's `str.isspace` table:

- tab, line feed, vertical tab, form feed, carriage return;
- U+001C to U+001F and space;
- U+0085, U+00A0 and U+1680;
- U+2000 to U+200A;
- U+2028, U+2029, U+202F, U+205F and U+3000.

## Model

| member | source | states |
|---|---|---|
| `Split.IsSpace` | Firmware/hexConverter.py:9 | the characters `split()` cuts at: Python 3's `str.isspace` table listed above, not only ASCII whitespace; `Split.UnicodeSpaces` pins examples on both sides |
| `Split.UnicodeSpaces` | Firmware/hexConverter.py:9 | U+0085, U+00A0, U+2003 and U+3000 separate fields; U+200B, U+180E and U+FEFF do not |
| `Split.Tokens` | Firmware/hexConverter.py:9 | every field `split()` returns is non-empty and contains no whitespace |
| `Split.DecomposeLayout` | Firmware/hexConverter.py:9 | any line is its whitespace gaps and its fields interleaved, and the gaps between two fields are never empty |
| `Split.TokensOfLayout` | Firmware/hexConverter.py:9 | splitting words joined by any whitespace (leading, trailing, repeated) returns exactly those words, so extra spaces or tabs never shift which field is chosen |
| `Split.TokensEmptyIffBlank` | Firmware/hexConverter.py:9 | `split()` returns no field exactly when the line is empty or all whitespace |
| `Split.TokensIgnoreLeadingSpace` | Firmware/hexConverter.py:9 | whitespace in front of a line does not change its fields |
| `Split.TokensIgnoreTrailingSpace` | Firmware/hexConverter.py:7-9 | whitespace at the end of a line does not change its fields, so the `'\n'` that `readlines` leaves is never part of the second field |
| `Split.SplitWhitespace` | Firmware/hexConverter.py:9 | the scan that skips whitespace and then takes the next run of non-whitespace computes exactly `Tokens` |
| `HexConverter.Payload` | Firmware/hexConverter.py:9 | `[2:]` keeps the last `len - 2` characters of the field, and nothing when the field has two characters or fewer |
| `HexConverter.PayloadDropsAnyPrefix` | Firmware/hexConverter.py:9 | the first two characters are dropped whatever they are, and the rest is kept unchanged |
| `HexConverter.ConvertLine` | Firmware/hexConverter.py:9 | a line converts exactly when it has at least two fields; the result is whitespace-free text followed by one `'\n'`, and it is never `"\n\n"` |
| `HexConverter.ConvertLineOfLayout` | Firmware/hexConverter.py:9 | a line made of any fields and any whitespace converts to the payload of its second field followed by `'\n'` |
| `HexConverter.SameSecondFieldSameOutput` | Firmware/hexConverter.py:9 | the first, third and later fields and the whitespace layout have no effect: lines whose second fields agree give the same output |
| `HexConverter.ShortFieldGivesBareLineBreak` | Firmware/hexConverter.py:9 | a second field of at most two characters yields just `"\n"` |
| `HexConverter.Comprehension` | Firmware/hexConverter.py:9 | a comprehension whose element may raise succeeds exactly when every element succeeds, keeps length and order, and otherwise fails with the position of the first element that raises |
| `HexConverter.ModifiedLines` | Firmware/hexConverter.py:9 | line 9 succeeds exactly when every line converts; element `i` is the conversion of line `i`; otherwise it fails at the first short line |
| `HexConverter.DropBlankMarkers` | Firmware/hexConverter.py:11 | the filter keeps every element except `"\n\n"` with its multiplicity, and returns its input unchanged when no element is `"\n\n"` |
| `HexConverter.DropBlankMarkersConcat` | Firmware/hexConverter.py:11 | the filter keeps the order of what it keeps: filtering a concatenation filters each part |
| `HexConverter.Convert` | Firmware/hexConverter.py:9-11 | zero lines give zero lines; the conversion succeeds exactly when every line has two fields; it then outputs one element per input line, in order; otherwise it fails at the first short line |
| `HexConverter.ConvertEachLine` | Firmware/hexConverter.py:9-11 | when every line converts, the output is exactly the list of the conversions |
| `HexConverter.FilterRemovesNothing` | Firmware/hexConverter.py:9-11 | the filter of line 11 is the identity on what line 9 produces |
| `HexConverter.ShortLineFails` | Firmware/hexConverter.py:9 | a line with fewer than two fields aborts the conversion, at that line or an earlier one; it is never skipped |
| `HexConverter.BlankLineFails` | Firmware/hexConverter.py:9 | an empty or all-whitespace line aborts the conversion instead of being dropped |
| `HexConverter.OutputIsLineByLine` | Firmware/hexConverter.py:9 | output element `i` depends on input line `i` only |
| `HexConverter.OutputFileHasOneLinePerInputLine` | Firmware/hexConverter.py:9-14 | reading back the written output gives the converted lines again, one per input line |
| `TextFile.WriteLines` | Firmware/hexConverter.py:14 | `writelines` adds nothing between or after the lines: no lines give empty text; `TextFile.WriteLinesConcat` and `TextFile.ReadLinesOfWritten` are what characterise it |
| `TextFile.WriteLinesConcat` | Firmware/hexConverter.py:14 | writing two lists one after the other writes the concatenation of their texts |
| `TextFile.ReadLines` | Firmware/hexConverter.py:7 | `readlines` cuts after every line break and nowhere else: every line is non-empty with no line break before its end, every line but the last ends with one, writing the lines back gives the text again, and empty text gives no lines |
| `TextFile.ReadLinesOfWritten` | Firmware/hexConverter.py:14 | lines that each hold one `'\n'`, at their end, are read back unchanged after `writelines` |
| `HexConverterExamples.TwoRecords` | Firmware/hexConverter.py:9-11 | `"A 0x1F\n"`, `"B 0x2A\n"` convert to `"1F\n"`, `"2A\n"` in that order |
| `HexConverterExamples.Record` | Firmware/hexConverter.py:9 | a record `<first> 0x<payload>\n` converts to `<payload>\n` for any fields without whitespace |
| `HexConverterExamples.AnyPrefixIsDropped` | Firmware/hexConverter.py:9 | `"X AB1234"` converts to `"1234\n"` |
| `HexConverterExamples.SingleFieldAborts` | Firmware/hexConverter.py:9 | a line holding one field aborts the conversion at that line |
| `HexConverterExamples.BlankLineAborts` | Firmware/hexConverter.py:9-11 | an empty line between two records aborts the conversion at that line |
| `HexConverterExamples.TwoFields` | Firmware/hexConverter.py:9 | two fields separated by a space, with any trailing whitespace, convert to the second field's payload followed by `'\n'` |

## Left out

- Reading the input path from `sys.argv[1]` and fixing the output name to `Firmware.hex` (lines 3-4). This is process and argument handling.
- Opening, reading and writing the files (lines 6-7 and 13-14), including that mode `"w"` overwrites an existing `Firmware.hex`. This is I/O. `Convert` takes the list of lines that `readlines` returned and gives back the list that `writelines` receives. A failure means nothing is written.
- How `readlines` cuts the input file into lines, and the universal-newline translation of text mode. The model accepts any list of strings as input. `TextFile.ReadLines` splits only at `'\n'`, which is the only line break the output contains.
- The exit status and the traceback of an uncaught `IndexError`, and the failures of a missing input file or a failed write. The model's error is a value, `IndexError(i)`. The line index `i` is extra information that Python's exception does not carry.
- Whitespace beyond the table above. Python takes `str.isspace` from its Unicode database. The table is the one for current Unicode versions. Older databases also counted U+180E.
- Validation of the payload as hex. The script performs none, so any non-whitespace text is carried through.
