/**
 * appband/web/util.js: toCsv, and the reader of section 2 of RFC 4180, with LF record ends,
 * that inverts it. A cell is null or missing, or already the string String(v) gives.
 */
module Csv {
  import opened Basics

  type Row = map<string, Option<string>>

  // ---------------------------------------------------------------------------------
  // The writer.

  predicate NeedsQuotes(s: string) {
    '"' in s || ',' in s || '\n' in s
  }

  function DoubledChar(c: char): string {
    if c == '"' then "\"\"" else [c]
  }

  /** Every quote written twice. */
  function Doubled(s: string): string {
    if s == "" then "" else DoubledChar(s[0]) + Doubled(s[1..])
  }

  function Cell(s: string): string {
    if NeedsQuotes(s) then "\"" + Doubled(s) + "\"" else s
  }

  /** A null or missing value is written as the empty string. */
  function CellText(row: Row, col: string): string {
    if col in row && row[col].Some? then row[col].value else ""
  }

  function Texts(row: Row, cols: seq<string>): (texts: seq<string>)
    ensures |texts| == |cols|
  {
    seq(|cols|, i requires 0 <= i < |cols| => CellText(row, cols[i]))
  }

  function Join(cells: seq<string>, sep: string): string {
    if cells == [] then "" else if |cells| == 1 then cells[0] else cells[0] + sep + Join(cells[1..], sep)
  }

  function Cells(texts: seq<string>): (cells: seq<string>)
    ensures |cells| == |texts|
  {
    seq(|texts|, i requires 0 <= i < |texts| => Cell(texts[i]))
  }

  function Line(texts: seq<string>): string {
    Join(Cells(texts), ",")
  }

  function Lines(rows: seq<Row>, cols: seq<string>): seq<string> {
    seq(|rows|, i requires 0 <= i < |rows| => Line(Texts(rows[i], cols)))
  }

  /** `cols` is Object.keys(rows[0]); column names are written as they are, unquoted. */
  function ToCsv(rows: seq<Row>, cols: seq<string>): string {
    if rows == [] then ""
    else Join(cols, ",") + "\n" + Join(Lines(rows, cols), "\n") + "\n"
  }

  // ---------------------------------------------------------------------------------
  // The reader: one character at a time.

  datatype Mode = Start | Bare | Quoted | Closing | Bad

  /** Finished records, the cells of the record being read, and the cell being read. */
  datatype Reader = Reader(records: seq<seq<string>>, cells: seq<string>, cell: string, mode: Mode)

  const FRESH: Reader := Reader([], [], "", Start)

  function EndCell(r: Reader): Reader {
    r.(cells := r.cells + [r.cell], cell := "", mode := Start)
  }

  function EndRecord(r: Reader): Reader {
    Reader(r.records + [r.cells + [r.cell]], [], "", Start)
  }

  function Feed(r: Reader, c: char): Reader {
    match r.mode
    case Bad => r
    case Quoted => if c == '"' then r.(mode := Closing) else r.(cell := r.cell + [c])
    case Closing =>
      if c == '"' then r.(cell := r.cell + [c], mode := Quoted)
      else if c == ',' then EndCell(r)
      else if c == '\n' then EndRecord(r)
      else r.(mode := Bad)
    case _ =>
      if c == ',' then EndCell(r)
      else if c == '\n' then EndRecord(r)
      else if c == '"' then (if r.mode.Start? then r.(mode := Quoted) else r.(mode := Bad))
      else r.(cell := r.cell + [c], mode := Bare)
  }

  function FeedAll(r: Reader, s: string): Reader
    decreases |s|
  {
    if s == "" then r else FeedAll(Feed(r, s[0]), s[1..])
  }

  /** The records of a text whose every record is terminated; None if it is not well formed. */
  function Read(s: string): Option<seq<seq<string>>> {
    var end := FeedAll(FRESH, s);
    if end.mode.Start? && end.cells == [] then Some(end.records) else None
  }

  lemma {:induction false} FeedConcat(r: Reader, a: string, b: string)
    ensures FeedAll(r, a + b) == FeedAll(FeedAll(r, a), b)
    decreases |a|
  {
    if a == "" {
      assert a + b == b;
    } else {
      assert (a + b)[1..] == a[1..] + b;
      FeedConcat(Feed(r, a[0]), a[1..], b);
    }
  }

  // ---------------------------------------------------------------------------------
  // Reading what was written.

  /** At the start of a cell. */
  function At(records: seq<seq<string>>, cells: seq<string>): Reader {
    Reader(records, cells, "", Start)
  }

  /** A cell has been read in full when its value is known and a separator may follow. */
  predicate CellRead(r: Reader, records: seq<seq<string>>, cells: seq<string>, cell: string) {
    r.records == records && r.cells == cells && r.cell == cell && (r.mode.Start? || r.mode.Bare? || r.mode.Closing?)
  }

  lemma {:induction false} FeedPlain(r: Reader, s: string)
    requires !NeedsQuotes(s) && (r.mode.Bare? || (r.mode.Start? && r.cell == ""))
    ensures var end := FeedAll(r, s);
            CellRead(end, r.records, r.cells, r.cell + s) && (s != "" ==> end.mode.Bare?)
    decreases |s|
  {
    if s == "" {
      assert r.cell + s == r.cell;
    } else {
      var next := Feed(r, s[0]);
      assert !NeedsQuotes(s[1..]) && s[0] in s;
      FeedPlain(next, s[1..]);
      assert r.cell + [s[0]] + s[1..] == r.cell + s;
    }
  }

  lemma {:induction false} FeedQuoted(r: Reader, s: string)
    requires r.mode.Quoted?
    ensures FeedAll(r, Doubled(s) + "\"") == r.(cell := r.cell + s, mode := Closing)
    decreases |s|
  {
    if s == "" {
      assert Doubled(s) + "\"" == ['"'];
      FeedOne(r, '"');
      assert r.cell + s == r.cell;
    } else {
      var head, rest := DoubledChar(s[0]), Doubled(s[1..]) + "\"";
      Associate(head, Doubled(s[1..]), "\"");
      FeedConcat(r, head, rest);
      FeedHead(r, s[0]);
      FeedQuoted(r.(cell := r.cell + [s[0]]), s[1..]);
      Associate(r.cell, [s[0]], s[1..]);
      assert [s[0]] + s[1..] == s;
    }
  }

  lemma FeedHead(r: Reader, c: char)
    requires r.mode.Quoted?
    ensures FeedAll(r, DoubledChar(c)) == r.(cell := r.cell + [c])
  {
    if c == '"' {
      assert "\"\""[1..] == "\"" && "\""[1..] == "";
      assert FeedAll(r, "\"\"") == FeedAll(Feed(r, '"'), "\"");
      assert FeedAll(Feed(r, '"'), "\"") == FeedAll(Feed(Feed(r, '"'), '"'), "");
    } else {
      assert [c][1..] == "";
    }
  }

  /** Writing one cell and reading it from the start of a cell gives its text. */
  lemma FeedCell(records: seq<seq<string>>, cells: seq<string>, s: string)
    ensures CellRead(FeedAll(At(records, cells), Cell(s)), records, cells, s)
  {
    var r := At(records, cells);
    if NeedsQuotes(s) {
      var rest := Doubled(s) + "\"";
      assert Cell(s) == "\"" + rest;
      assert ("\"" + rest)[1..] == rest;
      FeedQuoted(Feed(r, '"'), s);
      assert "" + s == s;
    } else {
      FeedPlain(r, s);
      assert "" + s == s;
    }
  }

  lemma FeedOne(r: Reader, c: char)
    ensures FeedAll(r, [c]) == Feed(r, c)
  {
    assert [c][1..] == "";
  }

  /** A cell and the separator after it. */
  lemma FeedCellThen(records: seq<seq<string>>, cells: seq<string>, s: string, sep: char)
    ensures sep == ',' ==> FeedAll(At(records, cells), Cell(s) + [sep]) == At(records, cells + [s])
    ensures sep == '\n' ==> FeedAll(At(records, cells), Cell(s) + [sep]) == At(records + [cells + [s]], [])
  {
    FeedCell(records, cells, s);
    FeedConcat(At(records, cells), Cell(s), [sep]);
    FeedOne(FeedAll(At(records, cells), Cell(s)), sep);
  }

  lemma LineSplits(texts: seq<string>)
    requires texts != []
    ensures |texts| == 1 ==> Line(texts) == Cell(texts[0])
    ensures |texts| > 1 ==> Line(texts) == Cell(texts[0]) + "," + Line(texts[1..])
  {
    assert Cells(texts)[1..] == Cells(texts[1..]);
  }

  /** Writing a line of cells, however many follow those already read. */
  lemma {:induction false} FeedLine(records: seq<seq<string>>, cells: seq<string>, texts: seq<string>)
    requires texts != []
    ensures FeedAll(At(records, cells), Line(texts) + "\n") == At(records + [cells + texts], [])
    decreases |texts|
  {
    LineSplits(texts);
    if |texts| == 1 {
      FeedCellThen(records, cells, texts[0], '\n');
      assert cells + [texts[0]] == cells + texts;
    } else {
      var head, rest := Cell(texts[0]) + ",", Line(texts[1..]) + "\n";
      assert Line(texts) + "\n" == head + rest;
      FeedConcat(At(records, cells), head, rest);
      FeedCellThen(records, cells, texts[0], ',');
      FeedLine(records, cells + [texts[0]], texts[1..]);
      assert cells + [texts[0]] + texts[1..] == cells + texts;
    }
  }

  function AllTexts(rows: seq<Row>, cols: seq<string>): (all: seq<seq<string>>)
    ensures |all| == |rows|
  {
    seq(|rows|, i requires 0 <= i < |rows| => Texts(rows[i], cols))
  }

  /** Cell j of row i is the row's own value in column j, or empty where it has none. */
  lemma TextsAreCells(rows: seq<Row>, cols: seq<string>, i: nat, j: nat)
    requires i < |rows| && j < |cols|
    ensures |AllTexts(rows, cols)| == |rows| && |AllTexts(rows, cols)[i]| == |cols|
    ensures cols[j] in rows[i] && rows[i][cols[j]].Some? ==> AllTexts(rows, cols)[i][j] == rows[i][cols[j]].value
    ensures cols[j] !in rows[i] || rows[i][cols[j]].None? ==> AllTexts(rows, cols)[i][j] == ""
  {
  }

  lemma {:induction false} FeedBody(records: seq<seq<string>>, rows: seq<Row>, cols: seq<string>)
    requires rows != [] && cols != []
    ensures FeedAll(At(records, []), Join(Lines(rows, cols), "\n") + "\n") == At(records + AllTexts(rows, cols), [])
    decreases |rows|
  {
    var r := At(records, []);
    var texts := Texts(rows[0], cols);
    var first := Line(texts);
    FeedLine(records, [], texts);
    assert [] + texts == texts;
    if |rows| == 1 {
      assert Join(Lines(rows, cols), "\n") == first;
      assert AllTexts(rows, cols) == [texts];
    } else {
      assert Lines(rows, cols)[1..] == Lines(rows[1..], cols);
      var rest := Join(Lines(rows[1..], cols), "\n") + "\n";
      assert Join(Lines(rows, cols), "\n") + "\n" == (first + "\n") + rest;
      FeedConcat(r, first + "\n", rest);
      FeedBody(records + [texts], rows[1..], cols);
      assert AllTexts(rows, cols) == [texts] + AllTexts(rows[1..], cols);
      assert records + [texts] + AllTexts(rows[1..], cols) == records + AllTexts(rows, cols);
    }
  }

  ghost predicate CleanNames(cols: seq<string>) {
    forall c :: c in cols ==> !NeedsQuotes(c)
  }

  /** Names that need no quotes are written as cells would be. */
  lemma HeaderIsLine(cols: seq<string>)
    requires CleanNames(cols)
    ensures Join(cols, ",") == Line(cols)
  {
    assert Cells(cols) == cols;
  }

  /**
   * CSV writing is invertible: the reader recovers the header and every cell of every row,
   * with commas, quotes and line feeds inside cells, a null or missing cell as empty.
   */
  lemma ReadBack(rows: seq<Row>, cols: seq<string>)
    requires rows != [] && cols != [] && CleanNames(cols)
    ensures Read(ToCsv(rows, cols)) == Some([cols] + AllTexts(rows, cols))
  {
    var head := Join(cols, ",") + "\n";
    var body := Join(Lines(rows, cols), "\n") + "\n";
    assert ToCsv(rows, cols) == head + body;
    HeaderIsLine(cols);
    FeedLine([], [], cols);
    FeedConcat(FRESH, head, body);
    assert [] + cols == cols;
    assert [] + [cols] == [cols];
    FeedBody([cols], rows, cols);
  }

  /** Every cell read back, at its place. */
  lemma CellReadBack(rows: seq<Row>, cols: seq<string>, i: nat, j: nat)
    requires CleanNames(cols) && i < |rows| && j < |cols|
    ensures var records := Read(ToCsv(rows, cols));
            && records.Some? && |records.value| == |rows| + 1 && records.value[0] == cols
            && |records.value[i + 1]| == |cols|
            && records.value[i + 1][j]
               == if cols[j] in rows[i] && rows[i][cols[j]].Some? then rows[i][cols[j]].value else ""
  {
    ReadBack(rows, cols);
    TextsAreCells(rows, cols, i, j);
  }

  /** No rows are written as no text, which is read as no records. */
  lemma NothingReadBack(cols: seq<string>)
    ensures ToCsv([], cols) == "" && Read(ToCsv([], cols)) == Some([])
  {
  }

  /** Two tables over the same clean columns that serialize alike have the same cells. */
  lemma WritesApart(a: seq<Row>, b: seq<Row>, cols: seq<string>)
    requires a != [] && b != [] && cols != [] && CleanNames(cols)
    requires ToCsv(a, cols) == ToCsv(b, cols)
    ensures AllTexts(a, cols) == AllTexts(b, cols)
  {
    ReadBack(a, cols);
    ReadBack(b, cols);
    assert ([cols] + AllTexts(a, cols))[1..] == AllTexts(a, cols);
    assert ([cols] + AllTexts(b, cols))[1..] == AllTexts(b, cols);
  }

  // ---------------------------------------------------------------------------------
  // Column names are not quoted, so clean names are also necessary.

  /** The first record has begun with these cells, or the text is already malformed. */
  ghost predicate Committed(r: Reader, first: seq<string>) {
    r.mode.Bad? || (if r.records == [] then first <= r.cells else first <= r.records[0])
  }

  lemma {:induction false} CommittedStays(r: Reader, first: seq<string>, s: string)
    requires Committed(r, first)
    ensures Committed(FeedAll(r, s), first)
    ensures r.mode.Bad? ==> FeedAll(r, s).mode.Bad?
    decreases |s|
  {
    if s != "" {
      assert first <= r.cells ==> first <= r.cells + [r.cell];
      CommittedStays(Feed(r, s[0]), first, s[1..]);
    }
  }

  /**
   * From inside quotes, a text that ends well doubles some text up to the closing quote,
   * and that text completes the cell.
   */
  lemma {:induction false} QuotedOutcome(r: Reader, s: string) returns (v: string, rest: string)
    requires r.mode.Quoted? && r.records == []
    ensures FeedAll(r, s).mode.Start? ==>
              s == Doubled(v) + "\"" + rest && Committed(FeedAll(r, s), r.cells + [r.cell + v])
    decreases |s|
  {
    v, rest := "", "";
    if s == "" {
    } else if s[0] != '"' {
      var u;
      u, rest := QuotedOutcome(Feed(r, s[0]), s[1..]);
      v := [s[0]] + u;
      assert v[1..] == u;
      assert r.cell + [s[0]] + u == r.cell + v;
      assert FeedAll(r, s).mode.Start? ==> s == [s[0]] + (Doubled(u) + "\"" + rest) == Doubled(v) + "\"" + rest;
    } else if |s| > 1 {
      var next := Feed(Feed(r, s[0]), s[1]);
      assert s[1..][0] == s[1] && s[1..][1..] == s[2..];
      assert FeedAll(r, s) == FeedAll(next, s[2..]);
      if s[1] == '"' {
        var u;
        u, rest := QuotedOutcome(next, s[2..]);
        v := ['"'] + u;
        assert v[1..] == u;
        assert r.cell + ['"'] + u == r.cell + v;
        assert FeedAll(r, s).mode.Start? ==> s == "\"\"" + (Doubled(u) + "\"" + rest) == Doubled(v) + "\"" + rest;
      } else {
        rest := s[1..];
        assert s == Doubled("") + "\"" + rest;
        assert r.cell + "" == r.cell;
        CommittedStays(next, r.cells + [r.cell], s[2..]);
      }
    } else {
      assert s[1..] == "";
    }
  }

  function Quotes(n: nat): string {
    seq(n, _ => '"')
  }

  /** A name and its separator never begin with quotes followed by the doubled name. */
  lemma {:induction false} DoubledOverruns(m: string, sep: char, rest: string, n: nat, x: string)
    requires sep != '"' && n >= 1
    ensures m + [sep] + rest != Quotes(n) + Doubled(m) + x
    decreases |m|
  {
    var left, right := m + [sep] + rest, Quotes(n) + Doubled(m) + x;
    assert right[0] == '"';
    if m == "" {
      assert left[0] == sep;
    } else if left == right {
      assert left[0] == m[0];
      assert left[1..] == m[1..] + [sep] + rest;
      assert Doubled(m) == "\"\"" + Doubled(m[1..]);
      assert right[1..] == Quotes(n + 1) + Doubled(m[1..]) + x;
      DoubledOverruns(m[1..], sep, rest, n + 1, x);
    }
  }

  /** How far a name goes before its first comma, quote or line feed. */
  function PlainLength(s: string): (i: nat)
    ensures i <= |s| && !NeedsQuotes(s[..i])
    ensures i < |s| ==> NeedsQuotes([s[i]])
    ensures i == |s| ==> !NeedsQuotes(s)
  {
    if s == "" || NeedsQuotes([s[0]]) then 0
    else
      assert s == [s[0]] + s[1..];
      var i := PlainLength(s[1..]);
      assert s[..i + 1] == [s[0]] + s[1..][..i];
      i + 1
  }

  /** A name that begins with a quote is read as a quoted cell, which cannot give it back. */
  lemma QuotedName(cells: seq<string>, m: string, sep: char, rest: string) returns (w: string)
    requires sep != '"'
    ensures var end := FeedAll(At([], cells), "\"" + (m + [sep] + rest));
            end.mode.Start? ==> w != "\"" + m && Committed(end, cells + [w])
  {
    var after := m + [sep] + rest;
    var q := Feed(At([], cells), '"');
    assert ("\"" + after)[1..] == after;
    var x;
    w, x := QuotedOutcome(q, after);
    assert "" + w == w;
    DoubledOverruns(m, sep, rest, 2, "\"" + x);
    if w == "\"" + m {
      assert w[1..] == m;
      assert Doubled(w) == "\"\"" + Doubled(m);
      assert Doubled(w) + "\"" + x == Quotes(2) + Doubled(m) + ("\"" + x);
    }
  }

  /** Elsewhere, a comma or line feed cuts the name short, and a quote is malformed. */
  lemma CutName(cells: seq<string>, p: string, c: char, after: string)
    requires !NeedsQuotes(p) && NeedsQuotes([c]) && (c == '"' ==> p != "")
    ensures Committed(FeedAll(At([], cells), p + ([c] + after)), cells + [p])
  {
    var r := FeedAll(At([], cells), p);
    FeedPlain(At([], cells), p);
    assert "" + p == p;
    FeedConcat(At([], cells), p, [c] + after);
    FeedConcat(r, [c], after);
    FeedOne(r, c);
    assert Committed(Feed(r, c), cells + [p]);
    CommittedStays(Feed(r, c), cells + [p], after);
  }

  /** An unquoted name that needs quotes is read as something else, or not at all. */
  lemma UncleanName(cells: seq<string>, name: string, sep: char, rest: string) returns (w: string)
    requires NeedsQuotes(name) && sep != '"'
    ensures var end := FeedAll(At([], cells), name + [sep] + rest);
            end.mode.Start? ==> w != name && Committed(end, cells + [w])
  {
    var i := PlainLength(name);
    if i == 0 && name[0] == '"' {
      assert name + [sep] + rest == "\"" + (name[1..] + [sep] + rest);
      assert name == "\"" + name[1..];
      w := QuotedName(cells, name[1..], sep, rest);
    } else {
      w := name[..i];
      var after := name[i + 1..] + [sep] + rest;
      assert name + [sep] + rest == w + ([name[i]] + after);
      CutName(cells, w, name[i], after);
      assert |w| < |name|;
    }
  }

  /** What follows the first name of a header. */
  function AfterName(cols: seq<string>, tail: string): string
    requires cols != []
  {
    if |cols| == 1 then tail else Join(cols[1..], ",") + "\n" + tail
  }

  lemma HeaderSplits(cols: seq<string>, tail: string)
    requires cols != []
    ensures Join(cols, ",") + "\n" + tail
         == cols[0] + [if |cols| == 1 then '\n' else ','] + AfterName(cols, tail)
  {
  }

  /** Names read up to the first unclean one are as written; that one is not. */
  lemma {:induction false} UncleanHeader(
    cells: seq<string>, cols: seq<string>, tail: string)
    returns (first: seq<string>)
    requires cols != [] && !CleanNames(cols)
    ensures var end := FeedAll(At([], cells), Join(cols, ",") + "\n" + tail);
            end.mode.Start? ==>
              Committed(end, first) && |first| <= |cells + cols| && first != (cells + cols)[..|first|]
    decreases |cols|
  {
    var sep := if |cols| == 1 then '\n' else ',';
    HeaderSplits(cols, tail);
    if NeedsQuotes(cols[0]) {
      var w := UncleanName(cells, cols[0], sep, AfterName(cols, tail));
      first := cells + [w];
      assert (cells + cols)[..|first|] == cells + [cols[0]];
      assert first[|cells|] == w && (cells + [cols[0]])[|cells|] == cols[0];
    } else {
      assert cols == [cols[0]] + cols[1..];
      FeedCellThen([], cells, cols[0], ',');
      FeedConcat(At([], cells), cols[0] + [','], AfterName(cols, tail));
      first := UncleanHeader(cells + [cols[0]], cols[1..], tail);
      Associate(cells, [cols[0]], cols[1..]);
    }
  }

  /** Without any column the first record is read as one empty cell. */
  lemma NoColumns(tail: string)
    ensures var end := FeedAll(FRESH, "\n" + tail); end.mode.Start? ==> Committed(end, [""])
  {
    assert ("\n" + tail)[1..] == tail;
    assert [] + [[""]] == [[""]] && [] + [""] == [""];
    CommittedStays(Feed(FRESH, '\n'), [""], tail);
  }

  /**
   * Writing is invertible exactly when there is a column and no column name holds a comma,
   * a quote or a line feed.
   */
  lemma ReadBackIff(rows: seq<Row>, cols: seq<string>)
    requires rows != []
    ensures Read(ToCsv(rows, cols)) == Some([cols] + AllTexts(rows, cols)) <==> cols != [] && CleanNames(cols)
  {
    var tail := Join(Lines(rows, cols), "\n") + "\n";
    assert ToCsv(rows, cols) == Join(cols, ",") + "\n" + tail;
    assert ([cols] + AllTexts(rows, cols))[0] == cols;
    if cols == [] {
      NoColumns(tail);
      assert Join(cols, ",") + "\n" + tail == "\n" + tail;
    } else if CleanNames(cols) {
      ReadBack(rows, cols);
    } else {
      var first := UncleanHeader([], cols, tail);
      assert [] + cols == cols;
    }
  }
}
