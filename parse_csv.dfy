/**
 * ParseCsv<unsigned> of lib/parse_csv.h: one row of numbers per data line of
 * a text file. The file is given by its lines; a file that cannot be opened
 * is `None`.
 */
module Csv {
  import opened Wrappers
  import opened StringUtils

  const CouldNotOpen: string := "could not open file"

  /** An empty line or one made only of whitespace. */
  predicate IsBlank(line: string)
  {
    forall i :: 0 <= i < |line| ==> IsSpace(line[i])
  }

  /** Position of the first character that is not whitespace (find_first_not_of). */
  function FirstNonSpace(line: string): (k: nat)
    requires !IsBlank(line)
    ensures k < |line| && !IsSpace(line[k])
    ensures forall j :: 0 <= j < k ==> IsSpace(line[j])
  {
    if !IsSpace(line[0]) then 0 else 1 + FirstNonSpace(line[1..])
  }

  /** A line whose first non-whitespace character is '#'. */
  predicate IsComment(line: string)
    requires !IsBlank(line)
  {
    line[FirstNonSpace(line)] == '#'
  }

  predicate IsDataLine(line: string)
  {
    !IsBlank(line) && !IsComment(line)
  }

  /** Every data line can be parsed without the parser's loop running forever. */
  predicate Parsable(lines: seq<string>)
  {
    forall i :: 0 <= i < |lines| && IsDataLine(lines[i]) ==> Terminates(Filter(lines[i], IsSpace))
  }

  /** The files a program can open, by path, each given by its lines; every one of them parses. */
  type FileSystem = fs: map<string, seq<string>> | forall f :: f in fs ==> Parsable(fs[f])
    witness map[]

  /** The row a data line yields: its numbers once whitespace is stripped. */
  function Row(line: string): seq<nat>
    requires Terminates(Filter(line, IsSpace))
  {
    Tokens(Filter(line, IsSpace))
  }

  /** The rows of a file: one per data line, in file order; blank and comment lines yield none. */
  function Rows(lines: seq<string>): (rows: seq<seq<nat>>)
    requires Parsable(lines)
    ensures |rows| <= |lines|
    ensures forall i :: 0 <= i < |rows| ==> FitUnsigned(rows[i])
  {
    if lines == [] then []
    else
      var last := lines[|lines| - 1];
      Rows(lines[..|lines| - 1]) + (if IsDataLine(last) then [Row(last)] else [])
  }

  /** Every number that appears in some row; the set callers insert the rows into. */
  function Values(rows: seq<seq<nat>>): (vs: set<nat>)
    ensures forall i, j :: 0 <= i < |rows| && 0 <= j < |rows[i]| ==> rows[i][j] in vs
  {
    if rows == [] then {}
    else
      var init, last := rows[..|rows| - 1], rows[|rows| - 1];
      assert forall i :: 0 <= i < |init| ==> init[i] == rows[i];
      Values(init) + set x | x in last
  }

  method ParseCsv(file: Option<seq<string>>) returns (r: Result<seq<seq<nat>>>)
    requires file.Some? ==> Parsable(file.value)
    ensures file.None? ==> r.Fatal?
    ensures file.Some? ==> r == Ok(Rows(file.value))
  {
    if file.None? {
      return Fatal(CouldNotOpen);
    }
    var lines := file.value;
    var rows: seq<seq<nat>> := [];
    var i := 0;
    while i < |lines|
      invariant 0 <= i <= |lines|
      invariant rows == Rows(lines[..i])
    {
      var line := lines[i];
      assert lines[..i + 1][..i] == lines[..i];
      if IsBlank(line) {
      } else if line[FirstNonSpace(line)] == '#' {
      } else {
        var stripped := StripSpaces(line);
        FilterIdempotent(line, IsSpace);
        var values := ParseArgString(stripped);
        rows := rows + [values];
      }
      i := i + 1;
    }
    assert lines[..|lines|] == lines;
    return Ok(rows);
  }

  lemma {:induction false} RowsAppend(a: seq<string>, b: seq<string>)
    requires Parsable(a) && Parsable(b)
    ensures Parsable(a + b)
    ensures Rows(a + b) == Rows(a) + Rows(b)
    decreases |b|
  {
    if b == [] {
      assert a + b == a;
    } else {
      var b' := b[..|b| - 1];
      assert (a + b)[..|a + b| - 1] == a + b';
      RowsAppend(a, b');
      SeqAssoc(Rows(a), Rows(b'), if IsDataLine(b[|b| - 1]) then [Row(b[|b| - 1])] else []);
    }
  }

  /** The text line a writer puts out for one row: its numbers joined by commas. */
  function RowLine(row: seq<nat>): string
    requires row != []
  {
    Join(row)
  }

  /** The file a writer produces: one comma-joined line per row. */
  function RowLines(rows: seq<seq<nat>>): (lines: seq<string>)
    requires forall i :: 0 <= i < |rows| ==> rows[i] != []
    ensures |lines| == |rows|
  {
    if rows == [] then [] else RowLines(rows[..|rows| - 1]) + [RowLine(rows[|rows| - 1])]
  }

  /** Writing each non-empty row of unsigned numbers as one comma-joined line and parsing the file gives the rows back. */
  lemma {:induction false} RowsInvertRowLines(rows: seq<seq<nat>>)
    requires forall i :: 0 <= i < |rows| ==> rows[i] != [] && FitUnsigned(rows[i])
    ensures Parsable(RowLines(rows))
    ensures Rows(RowLines(rows)) == rows
    decreases |rows|
  {
    if rows != [] {
      var rows' := rows[..|rows| - 1];
      var last := rows[|rows| - 1];
      RowsInvertRowLines(rows');
      RowLineIsData(last);
      var lines := RowLines(rows);
      assert lines[..|lines| - 1] == RowLines(rows');
      assert lines[|lines| - 1] == RowLine(last);
      assert Parsable(lines) by {
        forall i | 0 <= i < |lines| && IsDataLine(lines[i])
          ensures Terminates(Filter(lines[i], IsSpace))
        {
          if i < |lines| - 1 {
            assert lines[i] == RowLines(rows')[i];
          }
        }
      }
      assert Rows(lines) == Rows(RowLines(rows')) + [Row(RowLine(last))];
      assert rows == rows' + [last];
    }
  }

  lemma RowLineIsData(row: seq<nat>)
    requires row != [] && FitUnsigned(row)
    ensures IsDataLine(RowLine(row))
    ensures Terminates(Filter(RowLine(row), IsSpace))
    ensures Row(RowLine(row)) == row
  {
    JoinHasNoSpace(row);
    JoinCharacters(row);
    TokensInvertJoin(row);
    var line := RowLine(row);
    assert line[0] != '#' && !IsSpace(line[0]);
  }

  /** Blank and comment lines are skipped and whitespace inside a line is ignored. */
  lemma ExampleFile()
    ensures Parsable([""] + ["  "] + ["5,  3"] + ["# comment"] + ["4,3,2"])
    ensures Rows([""] + ["  "] + ["5,  3"] + ["# comment"] + ["4,3,2"]) == [[5, 3], [4, 3, 2]]
  {
    ExampleSkippedLines();
    ExampleSpacedLine();
    ExampleCompactLine();
    RowsOfFive("", "  ", "5,  3", "# comment", "4,3,2");
  }

  /** Two skipped lines, a data line, a skipped line and a data line. */
  lemma RowsOfFive(l0: string, l1: string, l2: string, l3: string, l4: string)
    requires !IsDataLine(l0) && !IsDataLine(l1) && !IsDataLine(l3)
    requires IsDataLine(l2) && Terminates(Filter(l2, IsSpace))
    requires IsDataLine(l4) && Terminates(Filter(l4, IsSpace))
    ensures Parsable([l0] + [l1] + [l2] + [l3] + [l4])
    ensures Rows([l0] + [l1] + [l2] + [l3] + [l4]) == [Row(l2), Row(l4)]
  {
    RowsSnoc([], l0);
    assert [] + [l0] == [l0];
    RowsSnoc([l0], l1);
    RowsSnoc([l0] + [l1], l2);
    RowsSnoc([l0] + [l1] + [l2], l3);
    RowsSnoc([l0] + [l1] + [l2] + [l3], l4);
  }

  /** One more line: it yields a row when it is a data line. */
  lemma RowsSnoc(lines: seq<string>, line: string)
    requires Parsable(lines)
    requires IsDataLine(line) ==> Terminates(Filter(line, IsSpace))
    ensures Parsable(lines + [line])
    ensures Rows(lines + [line]) == Rows(lines) + if IsDataLine(line) then [Row(line)] else []
  {
    assert (lines + [line])[..|lines|] == lines;
  }

  lemma ExampleSkippedLines()
    ensures !IsDataLine("") && !IsDataLine("  ") && !IsDataLine("# comment")
  {
    var l3 := "# comment";
    assert l3[0] == '#' && !IsBlank(l3) && FirstNonSpace(l3) == 0;
  }

  lemma ExampleSpacedLine()
    ensures IsDataLine("5,  3") && Terminates(Filter("5,  3", IsSpace)) && Row("5,  3") == [5, 3]
  {
    var l2 := "5,  3";
    assert l2[0] == '5';
    ExampleSpacesDropped();
    assert Join([5, 3]) == "5,3";
    RowOfJoined([5, 3]);
  }

  lemma ExampleSpacesDropped()
    ensures Filter("5,  3", IsSpace) == "5,3"
  {
    var l2 := "5,  3";
    assert l2 == "5," + ([' '] + [' '] + ['3']);
    NoSpaceFilterIdentity("5,");
    FilterAppend("5,", [' '] + [' '] + ['3'], IsSpace);
    FilterAppend([' '] + [' '], ['3'], IsSpace);
    FilterAppend([' '], [' '], IsSpace);
    FilterSingle(' ', IsSpace);
    FilterSingle('3', IsSpace);
  }

  lemma ExampleCompactLine()
    ensures IsDataLine("4,3,2") && Terminates(Filter("4,3,2", IsSpace)) && Row("4,3,2") == [4, 3, 2]
  {
    var l4 := "4,3,2";
    assert l4[0] == '4';
    NoSpaceFilterIdentity(l4);
    assert Join([4, 3, 2]) == "4,3,2";
    RowOfJoined([4, 3, 2]);
  }

  lemma FilterSingle<T>(x: T, drop: T -> bool)
    ensures Filter([x], drop) == if drop(x) then [] else [x]
  {
    assert [x][..0] == [];
  }

  lemma RowOfJoined(row: seq<nat>)
    requires row != [] && FitUnsigned(row)
    ensures Terminates(Join(row)) && Tokens(Join(row)) == row
  {
    TokensInvertJoin(row);
  }
}
