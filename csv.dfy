/**
 * The CSV text the export buttons build: cells joined with ',' and rows with
 * '\n' (Array.prototype.join), with no quoting of any kind.
 */
module Csv {

  /** Array.prototype.join with a one-character separator. */
  function Join(cells: seq<string>, sep: char): string {
    if |cells| == 0 then ""
    else if |cells| == 1 then cells[0]
    else cells[0] + [sep] + Join(cells[1..], sep)
  }

  /** String.prototype.split with a one-character separator. */
  function Split(s: string, sep: char): (r: seq<string>)
    ensures |r| >= 1
  {
    if s == [] then [""]
    else
      var rest := Split(s[1..], sep);
      if s[0] == sep then [""] + rest else [[s[0]] + rest[0]] + rest[1..]
  }

  lemma {:induction false} SplitPlain(a: string, sep: char)
    requires sep !in a
    ensures Split(a, sep) == [a]
  {
    if a != [] {
      SplitPlain(a[1..], sep);
      assert [a[0]] + a[1..] == a;
    }
  }

  lemma {:induction false} SplitAfterField(a: string, b: string, sep: char)
    requires sep !in a
    ensures Split(a + [sep] + b, sep) == [a] + Split(b, sep)
  {
    if a == [] {
      assert a + [sep] + b == [sep] + b;
      assert ([sep] + b)[1..] == b;
    } else {
      assert (a + [sep] + b)[1..] == a[1..] + [sep] + b;
      SplitAfterField(a[1..], b, sep);
      assert [a[0]] + a[1..] == a;
    }
  }

  /** Splitting a join gives back the cells, provided no cell contains the separator. */
  lemma {:induction false} SplitJoin(cells: seq<string>, sep: char)
    requires |cells| >= 1
    requires forall i :: 0 <= i < |cells| ==> sep !in cells[i]
    ensures Split(Join(cells, sep), sep) == cells
  {
    if |cells| == 1 {
      SplitPlain(cells[0], sep);
    } else {
      SplitAfterField(cells[0], Join(cells[1..], sep), sep);
      SplitJoin(cells[1..], sep);
      assert [cells[0]] + cells[1..] == cells;
    }
  }

  /** The exported text: each row joined by ',', the rows joined by '\n'. */
  function Encode(rows: seq<seq<string>>): string {
    Join(seq(|rows|, i requires 0 <= i < |rows| => Join(rows[i], ',')), '\n')
  }

  /** Reading the text back: split into lines, then each line into cells. */
  function Decode(text: string): seq<seq<string>> {
    var lines := Split(text, '\n');
    seq(|lines|, i requires 0 <= i < |lines| => Split(lines[i], ','))
  }

  /** A cell that holds neither separator. */
  predicate PlainText(cell: string) {
    ',' !in cell && '\n' !in cell
  }

  /** Every row has a cell and no cell holds a ',' or a line break. */
  predicate Plain(rows: seq<seq<string>>) {
    |rows| >= 1 &&
    forall i :: 0 <= i < |rows| ==>
      |rows[i]| >= 1 && forall j :: 0 <= j < |rows[i]| ==> PlainText(rows[i][j])
  }

  lemma {:induction false} NoNewlineInJoin(cells: seq<string>)
    requires forall j :: 0 <= j < |cells| ==> '\n' !in cells[j]
    ensures '\n' !in Join(cells, ',')
  {
    if |cells| > 1 {
      NoNewlineInJoin(cells[1..]);
    }
  }

  /** The export can be read back row by row and cell by cell when no cell holds a separator. */
  lemma DecodeEncode(rows: seq<seq<string>>)
    requires Plain(rows)
    ensures Decode(Encode(rows)) == rows
  {
    var lines := seq(|rows|, i requires 0 <= i < |rows| => Join(rows[i], ','));
    forall i | 0 <= i < |rows|
      ensures '\n' !in lines[i] && Split(lines[i], ',') == rows[i]
    {
      NoNewlineInJoin(rows[i]);
      SplitJoin(rows[i], ',');
    }
    SplitJoin(lines, '\n');
  }

  /** Without quoting, a one-cell export whose cell holds a ',' reads back as two cells. */
  lemma {:induction false} CommaInCellSplitsIt(a: string, b: string)
    requires ',' !in a && ',' !in b && '\n' !in a && '\n' !in b
    ensures Decode(Encode([[a + [','] + b]])) == [[a, b]]
  {
    var cell := a + [','] + b;
    assert '\n' !in cell;
    assert Encode([[cell]]) == cell;
    SplitPlain(cell, '\n');
    SplitAfterField(a, b, ',');
    SplitPlain(b, ',');
    assert Split(cell, ',') == [a, b];
    assert Split(Encode([[cell]]), '\n') == [cell];
  }
}
