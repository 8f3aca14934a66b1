/** appband/parsers/nettop.py: process rows printed by nettop. */
module Nettop {
  import opened Basics
  import opened Text

  datatype NettopRow = NettopRow(process: string, pid: Option<nat>, bytesIn: int, bytesOut: int)

  // ---------------------------------------------------------------------------------
  // The parser.

  /** The characters str.splitlines breaks at. */
  predicate IsLineBreak(c: char) {
    var u := c as int;
    10 <= u <= 13 || 28 <= u <= 30 || u == 0x85 || u == 0x2028 || u == 0x2029
  }

  function FindBreak(s: string): (i: nat)
    ensures i <= |s| && forall k :: 0 <= k < i ==> !IsLineBreak(s[k])
    ensures i < |s| ==> IsLineBreak(s[i])
  {
    if s == "" || IsLineBreak(s[0]) then 0 else FindBreak(s[1..]) + 1
  }

  /** str.splitlines: CR LF is one break, and a final break starts no line. */
  function SplitLines(s: string): seq<string>
    decreases |s|
  {
    if s == "" then []
    else
      var i := FindBreak(s);
      if i == |s| then [s]
      else if s[i] == '\r' && i + 1 < |s| && s[i + 1] == '\n' then [s[..i]] + SplitLines(s[i + 2..])
      else [s[..i]] + SplitLines(s[i + 1..])
  }

  /** The position of the last occurrence of a character, if there is one. */
  function FindLast(s: string, c: char): (i: Option<nat>)
    ensures i.Some? ==> i.value < |s| && s[i.value] == c && c !in s[i.value + 1..]
    ensures i.None? ==> c !in s
  {
    if s == "" then None
    else if s[|s| - 1] == c then Some(|s| - 1)
    else
      assert s == s[..|s| - 1] + [s[|s| - 1]];
      var i := FindLast(s[..|s| - 1], c);
      assert i.Some? ==> s[i.value + 1..] == s[..|s| - 1][i.value + 1..] + [s[|s| - 1]];
      i
  }

  /** Splits 'name.pid' at the last dot; the token is all name if no number follows it. */
  function SplitNamePid(token: string): (string, Option<nat>) {
    match FindLast(token, '.')
    case None => (token, None)
    case Some(i) =>
      var pid := token[i + 1..];
      if pid == "" || !AllDigits(pid) then (token, None) else (token[..i], Some(ReadNat(pid)))
  }

  /** The row a line stands for; header rows, short rows and rows without counters stand for none. */
  function ParseLine(text: string): Option<NettopRow> {
    var line := StripRight(text);
    if line == "" || StartsWith(line, "time,") || StartsWith(line, ",") then None
    else
      var parts := Split(line, ',');
      if |parts| < 3 then None
      else
        var bytesIn, bytesOut := ParseInt(Strip(parts[1])), ParseInt(Strip(parts[2]));
        if bytesIn.None? || bytesOut.None? then None
        else
          var (name, pid) := SplitNamePid(Strip(parts[0]));
          Some(NettopRow(name, pid, bytesIn.value, bytesOut.value))
  }

  function ParseLines(lines: seq<string>): seq<NettopRow> {
    Choose(lines, ParseLine)
  }

  method ParseNettop(text: string) returns (rows: seq<NettopRow>)
    ensures rows == ParseLines(SplitLines(text))
  {
    rows := [];
    var lines := SplitLines(text);
    for i := 0 to |lines|
      invariant rows == ParseLines(lines[..i])
    {
      assert lines[..i + 1][..i] == lines[..i];
      var line := StripRight(lines[i]);
      if line == "" || StartsWith(line, "time,") || StartsWith(line, ",") {
        continue;
      }
      var parts := Split(line, ',');
      if |parts| < 3 {
        continue;
      }
      var namePid := Strip(parts[0]);
      var bytesIn, bytesOut := ParseInt(Strip(parts[1])), ParseInt(Strip(parts[2]));
      if bytesIn.None? || bytesOut.None? {
        continue;
      }
      var (name, pid) := SplitNamePid(namePid);
      rows := rows + [NettopRow(name, pid, bytesIn.value, bytesOut.value)];
    }
    assert lines[..|lines|] == lines;
  }

  lemma {:induction false} StripKeepsStart(s: string, n: nat)
    requires 0 < n <= |s| && !IsSpace(s[n - 1])
    ensures |StripRight(s)| >= n
  {
    if |s| > n && IsSpace(s[|s| - 1]) {
      StripKeepsStart(s[..|s| - 1], n);
    }
  }

  /** Header lines stand for no row, whatever follows their first field. */
  lemma HeadersSkipped(rest: string)
    ensures ParseLine("time," + rest).None? && ParseLine("," + rest).None?
  {
    StripKeepsStart("time," + rest, 5);
    StripKeepsStart("," + rest, 1);
    assert StripRight("time," + rest)[..5] == "time,";
    assert StripRight("," + rest)[..1] == ",";
  }

  /** A line of fewer than three fields stands for no row, nor does one whose second or third field is no number. */
  lemma ShortLinesSkipped(line: string)
    ensures var fields := Split(StripRight(line), ',');
            ParseLine(line).Some? ==>
              && |fields| >= 3 && ParseInt(Strip(fields[1])).Some? && ParseInt(Strip(fields[2])).Some?
              && ParseLine(line).value.bytesIn == ParseInt(Strip(fields[1])).value
              && ParseLine(line).value.bytesOut == ParseInt(Strip(fields[2])).value
  {
  }

  // ---------------------------------------------------------------------------------
  // The printer it inverts: "name.pid,in,out," on each line.

  datatype Printable = Printable(name: string, pid: nat, bytesIn: nat, bytesOut: nat)

  function Row(p: Printable): NettopRow {
    NettopRow(p.name, Some(p.pid), p.bytesIn, p.bytesOut)
  }

  function PrintRow(p: Printable): string {
    (p.name + "." + PrintNat(p.pid)) + "," + (PrintNat(p.bytesIn) + "," + (PrintNat(p.bytesOut) + "," + ""))
  }

  function PrintRows(rows: seq<Printable>): string {
    if rows == [] then "" else PrintRow(rows[0]) + "\n" + PrintRows(rows[1..])
  }

  /** Names nettop rows can carry: no comma, no line break, no leading white space. */
  predicate CleanName(name: string) {
    && ',' !in name
    && (forall c :: c in name ==> !IsLineBreak(c))
    && (name == "" || !IsSpace(name[0]))
  }

  lemma {:induction false} LastFound(a: string, c: char, b: string)
    requires c !in b
    ensures FindLast(a + [c] + b, c) == Some(|a|)
  {
    if b != "" {
      var s := a + [c] + b;
      assert s[..|s| - 1] == a + [c] + b[..|b| - 1];
      LastFound(a, c, b[..|b| - 1]);
    }
  }

  /** Splitting at the last dot undoes printing, whatever dots the name contains. */
  lemma NamePidRecovered(name: string, pid: nat)
    ensures SplitNamePid(name + "." + PrintNat(pid)) == (name, Some(pid))
  {
    var token := name + ['.'] + PrintNat(pid);
    assert '.' !in PrintNat(pid);
    LastFound(name, '.', PrintNat(pid));
    assert token[..|name|] == name && token[|name| + 1..] == PrintNat(pid);
    ReadPrinted(pid);
  }

  lemma FirstField(a: string, rest: string)
    requires ',' !in a
    ensures Split(a + "," + rest, ',') == [a] + Split(rest, ',')
  {
    assert a + "," + rest == a + [','] + rest;
    SplitFirst(a, ',', rest);
  }

  lemma OneField(c: string)
    requires ',' !in c
    ensures Split(c + "," + "", ',') == [c, ""]
  {
    FirstField(c, "");
    assert Split("", ',') == [""];
  }

  lemma TwoFields(b: string, c: string)
    requires ',' !in b && ',' !in c
    ensures Split(b + "," + (c + "," + ""), ',') == [b, c, ""]
  {
    FirstField(b, c + "," + "");
    OneField(c);
  }

  lemma ThreeFields(a: string, b: string, c: string)
    requires ',' !in a && ',' !in b && ',' !in c
    ensures Split(a + "," + (b + "," + (c + "," + "")), ',') == [a, b, c, ""]
  {
    FirstField(a, b + "," + (c + "," + ""));
    TwoFields(b, c);
  }

  lemma PrintedFields(p: Printable)
    requires CleanName(p.name)
    ensures Split(PrintRow(p), ',') == [p.name + "." + PrintNat(p.pid), PrintNat(p.bytesIn), PrintNat(p.bytesOut), ""]
  {
    assert ',' !in PrintNat(p.bytesIn) && ',' !in PrintNat(p.bytesOut) && ',' !in PrintNat(p.pid);
    ThreeFields(p.name + "." + PrintNat(p.pid), PrintNat(p.bytesIn), PrintNat(p.bytesOut));
  }

  /** A printed row is never taken for a header. */
  lemma PrintedIsNoHeader(p: Printable)
    requires CleanName(p.name)
    ensures !StartsWith(PrintRow(p), "time,") && !StartsWith(PrintRow(p), ",")
  {
    var token := p.name + "." + PrintNat(p.pid);
    var rest := PrintNat(p.bytesIn) + "," + (PrintNat(p.bytesOut) + "," + "");
    assert ',' !in token && '.' in token;
    assert PrintRow(p) == token + [','] + rest;
    assert "time" + [','] + "" == "time,";
    PrefixCut(token, rest, "time", "", ',');
    StartsWithChar(PrintRow(p), ',');
    assert PrintRow(p)[0] == token[0] && token[0] in token;
  }

  lemma NumeralUnstripped(n: nat)
    ensures Strip(PrintNat(n)) == PrintNat(n)
  {
    var s := PrintNat(n);
    assert s[0] in s && s[|s| - 1] in s;
    StripNothing(s);
  }

  lemma TokenUnstripped(name: string, pid: nat)
    requires CleanName(name)
    ensures Strip(name + "." + PrintNat(pid)) == name + "." + PrintNat(pid)
  {
    var token, n := name + "." + PrintNat(pid), PrintNat(pid);
    assert token[|token| - 1] == n[|n| - 1] && n[|n| - 1] in n;
    assert token[0] == if name == "" then '.' else name[0];
    StripNothing(token);
  }

  lemma LineUnstripped(p: Printable)
    ensures StripRight(PrintRow(p)) == PrintRow(p)
  {
    var line := PrintRow(p);
    assert line[|line| - 1] == ',';
  }

  lemma RowRecovered(p: Printable)
    requires CleanName(p.name)
    ensures ParseLine(PrintRow(p)) == Some(Row(p))
  {
    var token := p.name + "." + PrintNat(p.pid);
    LineUnstripped(p);
    PrintedIsNoHeader(p);
    PrintedFields(p);
    NumeralUnstripped(p.bytesIn);
    NumeralUnstripped(p.bytesOut);
    ParsePrinted(p.bytesIn);
    ParsePrinted(p.bytesOut);
    TokenUnstripped(p.name, p.pid);
    NamePidRecovered(p.name, p.pid);
  }

  lemma {:induction false} BreakFound(line: string, rest: string)
    requires forall c :: c in line ==> !IsLineBreak(c)
    ensures FindBreak(line + "\n" + rest) == |line|
  {
    var s := line + "\n" + rest;
    if line != "" {
      assert s[1..] == line[1..] + "\n" + rest;
      BreakFound(line[1..], rest);
    }
  }

  lemma PrintedHasNoBreak(p: Printable)
    requires CleanName(p.name)
    ensures forall c :: c in PrintRow(p) ==> !IsLineBreak(c)
  {
    assert forall c :: c in PrintRow(p) ==> c in p.name || c == '.' || c == ',' || IsDigit(c);
  }

  lemma FirstLine(line: string, rest: string)
    requires forall c :: c in line ==> !IsLineBreak(c)
    ensures SplitLines(line + "\n" + rest) == [line] + SplitLines(rest)
  {
    var text := line + "\n" + rest;
    BreakFound(line, rest);
    assert text[..|line|] == line && text[|line| + 1..] == rest;
  }

  lemma FirstRow(line: string, r: NettopRow, more: seq<string>)
    requires ParseLine(line) == Some(r)
    ensures ParseLines([line] + more) == [r] + ParseLines(more)
  {
    ChooseAppend([line], more, ParseLine);
    SingleRow(line, _ => true, ParseLine);
  }

  function RowsOf(printed: seq<Printable>): seq<NettopRow> {
    if printed == [] then [] else [Row(printed[0])] + RowsOf(printed[1..])
  }

  /**
   * parse_nettop inverts printing: any list of rows whose names have no comma, no line
   * break and no leading white space comes back exactly, dots and trailing spaces included.
   */
  lemma {:induction false} RowsRecovered(rows: seq<Printable>)
    requires forall p :: p in rows ==> CleanName(p.name)
    ensures ParseLines(SplitLines(PrintRows(rows))) == RowsOf(rows)
  {
    if rows != [] {
      PrintedHasNoBreak(rows[0]);
      FirstLine(PrintRow(rows[0]), PrintRows(rows[1..]));
      RowRecovered(rows[0]);
      FirstRow(PrintRow(rows[0]), Row(rows[0]), SplitLines(PrintRows(rows[1..])));
      RowsRecovered(rows[1..]);
    }
  }

  lemma PrefixMembers(s: string, n: nat)
    requires n <= |s|
    ensures forall c :: c in s[..n] ==> c in s
  {
  }

  lemma StripMembers(s: string)
    ensures forall c :: c in Strip(s) ==> c in s
    ensures Strip(s) == "" || !IsSpace(Strip(s)[0])
  {
    var left := StripLeft(s);
    PrefixMembers(left, |StripRight(left)|);
  }

  lemma NameMembers(token: string)
    ensures var name := SplitNamePid(token).0;
            |name| <= |token| && name == token[..|name|]
  {
  }

  /** The other way round: whatever the text, every name that comes out is clean. */
  lemma ParsedNameIsClean(line: string)
    requires forall c :: c in line ==> !IsLineBreak(c)
    requires ParseLine(line).Some?
    ensures CleanName(ParseLine(line).value.process)
  {
    var stripped := StripRight(line);
    var field := Split(stripped, ',')[0];
    var token := Strip(field);
    var name := SplitNamePid(token).0;
    SplitHasNoSeparator(stripped, ',');
    NameMembers(token);
    CleanField(line, stripped, field, token, name);
    assert ParseLine(line).value.process == name;
  }

  lemma CleanField(line: string, stripped: string, field: string, token: string, name: string)
    requires forall c :: c in line ==> !IsLineBreak(c)
    requires stripped == StripRight(line) && token == Strip(field)
    requires ',' !in field && forall c :: c in field ==> c in stripped
    requires |name| <= |token| && name == token[..|name|]
    ensures CleanName(name)
  {
    StripMembers(field);
    PrefixMembers(line, |stripped|);
    PrefixMembers(token, |name|);
  }

  lemma {:induction false} LinesHaveNoBreak(s: string)
    ensures forall line :: line in SplitLines(s) ==> forall c :: c in line ==> !IsLineBreak(c)
    decreases |s|
  {
    if s != "" {
      var i := FindBreak(s);
      if i < |s| {
        LinesHaveNoBreak(s[i + 1..]);
        if s[i] == '\r' && i + 1 < |s| && s[i + 1] == '\n' {
          LinesHaveNoBreak(s[i + 2..]);
        }
      }
    }
  }

  lemma {:induction false} ChosenFrom(lines: seq<string>, r: NettopRow)
    requires r in ParseLines(lines)
    ensures exists line :: line in lines && ParseLine(line) == Some(r)
  {
    var n := |lines| - 1;
    if ParseLine(lines[n]) == Some(r) {
      assert lines[n] in lines;
    } else {
      ChosenFrom(lines[..n], r);
    }
  }

  lemma {:induction false} RowsOfMembers(printed: seq<Printable>, p: Printable)
    requires p in printed
    ensures Row(p) in RowsOf(printed)
  {
    if printed[0] != p {
      RowsOfMembers(printed[1..], p);
    }
  }

  /** Whatever comes out of a text is clean, so a row that comes back had a clean name. */
  lemma OnlyCleanComesBack(text: string, p: Printable)
    requires Row(p) in ParseLines(SplitLines(text))
    ensures CleanName(p.name)
  {
    var lines := SplitLines(text);
    ChosenFrom(lines, Row(p));
    var line :| line in lines && ParseLine(line) == Some(Row(p));
    LinesHaveNoBreak(text);
    ParsedNameIsClean(line);
  }

  /** A list of rows survives printing and parsing exactly when every name in it is clean. */
  lemma RecoveredIffClean(rows: seq<Printable>)
    ensures ParseLines(SplitLines(PrintRows(rows))) == RowsOf(rows) <==> forall p :: p in rows ==> CleanName(p.name)
  {
    if forall p :: p in rows ==> CleanName(p.name) {
      RowsRecovered(rows);
    }
    if ParseLines(SplitLines(PrintRows(rows))) == RowsOf(rows) {
      forall p | p in rows
        ensures CleanName(p.name)
      {
        RowsOfMembers(rows, p);
        OnlyCleanComesBack(PrintRows(rows), p);
      }
    }
  }
}
