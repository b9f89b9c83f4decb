/** The text that machines keep about each other in the shared config map: which machine reverses
    which resources, and which machines are connected.  The text is printed with `\n` escapes, put
    into a JSON merge patch, decoded there, stored, and parsed again by every reader.  Go's map
    iteration order is arbitrary, so printing is studied for every order of its rows. */
module VpnText {
  import opened Common
  import opened GoStrings

  const NEWLINE := "\n"
  const ESCAPED_NEWLINE := "\\n"
  const SPLITTER := "#"
  const COMMA := ","

  /** Machine address to the resources it reverses. */
  type Reverse = map<string, set<string>>

  function SetOf(xs: seq<string>): set<string> {
    set x | x in xs
  }

  // ---------------------------------------------------------------- editing

  function AddRecord(t: Reverse, mac: string, rs: set<string>): Reverse {
    if mac in t then t[mac := t[mac] + rs] else t[mac := rs]
  }

  function RemoveRecord(t: Reverse, mac: string, rs: set<string>): Reverse {
    if mac !in t then t
    else if t[mac] - rs == {} then t - {mac}
    else t[mac := t[mac] - rs]
  }

  ghost predicate Under(t: Reverse, mac: string, r: string) {
    mac in t && r in t[mac]
  }

  /** An addition adds the resources named to the machine named, and nothing else changes. */
  lemma AddedMembers(t: Reverse, mac: string, rs: set<string>, m: string, r: string)
    ensures Under(AddRecord(t, mac, rs), m, r) <==> Under(t, m, r) || (m == mac && r in rs)
  {
  }

  /** A removal removes the resources named from the machine named, and nothing else changes. */
  lemma RemovedMembers(t: Reverse, mac: string, rs: set<string>, m: string, r: string)
    ensures Under(RemoveRecord(t, mac, rs), m, r) <==> Under(t, m, r) && !(m == mac && r in rs)
  {
    if mac in t && m == mac && r in t[mac] && r !in rs {
      assert r in t[mac] - rs;
    }
  }

  // ---------------------------------------------------------------- parsing

  function AddLine(t: Reverse, line: string): Reverse {
    if Count(line, SPLITTER) == 1 then
      var i := Split(line, SPLITTER);
      AddRecord(t, i[0], SetOf(Split(i[1], COMMA)))
    else t
  }

  function AddLines(t: Reverse, lines: seq<string>): Reverse
    decreases |lines|
  {
    if lines == [] then t else AddLines(AddLine(t, lines[0]), lines[1..])
  }

  function ParseReverse(s: string): Reverse {
    AddLines(map[], Split(s, NEWLINE))
  }

  /** A line says that a machine reverses a resource: the machine, one "#", and a list with the resource. */
  ghost predicate Says(line: string, m: string, r: string) {
    var fields := Split(line, "#");
    |fields| == 2 && fields[0] == m && r in Split(fields[1], ",")
  }

  lemma AddLineSays(t: Reverse, line: string, m: string, r: string)
    ensures Under(AddLine(t, line), m, r) <==> Under(t, m, r) || Says(line, m, r)
  {
    if Count(line, SPLITTER) == 1 {
      var f := Split(line, SPLITTER);
      AddedMembers(t, f[0], SetOf(Split(f[1], COMMA)), m, r);
    }
  }

  lemma {:induction false} AddLinesSay(t: Reverse, lines: seq<string>, m: string, r: string)
    ensures Under(AddLines(t, lines), m, r) <==> Under(t, m, r) || exists line :: line in lines && Says(line, m, r)
    decreases |lines|
  {
    if lines != [] {
      AddLineSays(t, lines[0], m, r);
      AddLinesSay(AddLine(t, lines[0]), lines[1..], m, r);
      assert forall line :: line in lines <==> line == lines[0] || line in lines[1..];
    }
  }

  /** What a text means: a machine reverses a resource if and only if some line says so. */
  lemma ParsedExactly(s: string, m: string, r: string)
    ensures Under(ParseReverse(s), m, r) <==> exists line :: line in Split(s, "\n") && Says(line, m, r)
  {
    AddLinesSay(map[], Split(s, NEWLINE), m, r);
  }

  lemma {:induction false} AddLinesSnoc(t: Reverse, lines: seq<string>, line: string)
    ensures AddLines(t, lines + [line]) == AddLine(AddLines(t, lines), line)
    decreases |lines|
  {
    if lines == [] {
      assert lines + [line] == [line];
      assert AddLines(AddLine(t, line), []) == AddLine(t, line);
    } else {
      assert (lines + [line])[1..] == lines[1..] + [line];
      AddLinesSnoc(AddLine(t, lines[0]), lines[1..], line);
    }
  }

  /** Empty lines add nothing. */
  lemma {:induction false} BlankLines(t: Reverse, blanks: seq<string>)
    requires forall i :: 0 <= i < |blanks| ==> blanks[i] == ""
    ensures AddLines(t, blanks) == t
    decreases |blanks|
  {
    if blanks != [] {
      assert Count("", SPLITTER) == 0;
      BlankLines(t, blanks[1..]);
    }
  }

  method FromStringToReverseTotal(s: string) returns (t: Reverse)
    ensures t == ParseReverse(s)
  {
    t := map[];
    if |s| == 0 {
      BlankLines(map[], [""]);
      return;
    }
    var items := Split(s, NEWLINE);
    for n := 0 to |items|
      invariant t == AddLines(map[], items[..n])
    {
      AddLinesSnoc(map[], items[..n], items[n]);
      assert items[..n + 1] == items[..n] + [items[n]];
      if Count(items[n], SPLITTER) == 1 {
        var i := Split(items[n], SPLITTER);
        t := AddRecord(t, i[0], SetOf(Split(i[1], COMMA)));
      }
    }
    assert items[..|items|] == items;
  }

  // ---------------------------------------------------------------- printing, in any order

  datatype Row = Row(mac: string, resources: seq<string>)

  /** The rows list every machine once, each with its resources in some order. */
  ghost predicate Enumerates(rows: seq<Row>, t: Reverse) {
    if rows == [] then t == map[]
    else
      && rows[0].mac in t && SetOf(rows[0].resources) == t[rows[0].mac]
      && Enumerates(rows[1..], t - {rows[0].mac})
  }

  function LineOf(row: Row): string {
    row.mac + SPLITTER + Join(row.resources, COMMA)
  }

  function LinesOf(rows: seq<Row>): seq<string> {
    seq(|rows|, n requires 0 <= n < |rows| => LineOf(rows[n]))
  }

  /** Lines, each followed by an escaped newline. */
  function PrintBody(lines: seq<string>): string {
    if lines == [] then "" else PrintBody(lines[..|lines| - 1]) + (lines[|lines| - 1] + ESCAPED_NEWLINE)
  }

  function PrintLines(lines: seq<string>): string {
    PrintBody(lines) + ESCAPED_NEWLINE
  }

  function PrintRows(rows: seq<Row>): string {
    PrintLines(LinesOf(rows))
  }

  lemma {:induction false} EnumeratesSnoc(rows: seq<Row>, t: Reverse, row: Row)
    requires Enumerates(rows, t) && row.mac !in t
    ensures Enumerates(rows + [row], t[row.mac := SetOf(row.resources)])
    decreases |rows|
  {
    var t' := t[row.mac := SetOf(row.resources)];
    if rows == [] {
      assert (rows + [row])[1..] == [];
      assert t' - {row.mac} == map[];
    } else {
      var mac := rows[0].mac;
      EnumeratesSnoc(rows[1..], t - {mac}, row);
      assert (rows + [row])[1..] == rows[1..] + [row];
      assert t' - {mac} == (t - {mac})[row.mac := SetOf(row.resources)];
    }
  }

  /** The keys of a set, in some order. */
  method KeySet(keys: set<string>) returns (list: seq<string>)
    ensures SetOf(list) == keys && forall i, j :: 0 <= i < j < |list| ==> list[i] != list[j]
  {
    list := [];
    var todo := keys;
    while todo != {}
      invariant todo <= keys && SetOf(list) == keys - todo
      invariant forall i, j :: 0 <= i < j < |list| ==> list[i] != list[j]
      decreases todo
    {
      var k :| k in todo;
      assert SetOf(list + [k]) == SetOf(list) + {k};
      assert forall i :: 0 <= i < |list| ==> list[i] in SetOf(list);
      list := list + [k];
      todo := todo - {k};
    }
  }

  method ToString(t: Reverse) returns (out: string, ghost rows: seq<Row>)
    ensures Enumerates(rows, t) && out == PrintRows(rows)
  {
    out, rows := "", [];
    var todo := t.Keys;
    ghost var done: Reverse := map[];
    while todo != {}
      invariant todo <= t.Keys && done == t - todo
      invariant Enumerates(rows, done) && out == PrintBody(LinesOf(rows))
      decreases todo
    {
      var mac :| mac in todo;
      var resources := KeySet(t[mac]);
      ghost var row := Row(mac, resources);
      EnumeratesSnoc(rows, done, row);
      assert LinesOf(rows + [row]) == LinesOf(rows) + [LineOf(row)];
      out := out + (mac + SPLITTER + Join(resources, COMMA) + ESCAPED_NEWLINE);
      rows := rows + [row];
      todo := todo - {mac};
      done := done[mac := t[mac]];
    }
    assert done == t;
    out := out + ESCAPED_NEWLINE;
  }

  // ---------------------------------------------------------------- JSON strings (section 7 of RFC 8259)

  /** Characters that may stand in a JSON string without an escape. */
  predicate Unescaped(c: char) {
    c != '\"' && c != '\\' && ' ' <= c
  }

  /** Decode the inside of a JSON string; `\u` escapes are not modelled. */
  function Unescape(s: string): Option<string> {
    if s == [] then Some([])
    else if s[0] == '\\' then
      if |s| < 2 then None
      else
        var c := match s[1]
          case '\"' => Some('\"')
          case '\\' => Some('\\')
          case '/' => Some('/')
          case 'b' => Some(8 as char)
          case 'f' => Some(12 as char)
          case 'n' => Some('\n')
          case 'r' => Some('\r')
          case 't' => Some('\t')
          case _ => None;
        var rest := Unescape(s[2..]);
        if c.None? || rest.None? then None else Some([c.value] + rest.value)
    else if !Unescaped(s[0]) then None
    else
      var rest := Unescape(s[1..]);
      if rest.None? then None else Some([s[0]] + rest.value)
  }

  ghost predicate Plain(s: string) {
    forall i :: 0 <= i < |s| ==> Unescaped(s[i])
  }

  lemma {:induction false} UnescapePlain(a: string, rest: string)
    requires Plain(a)
    ensures Unescape(a + rest) == if Unescape(rest).None? then None else Some(a + Unescape(rest).value)
    decreases |a|
  {
    if a == [] {
      assert a + rest == rest;
      assert Unescape(rest).Some? ==> a + Unescape(rest).value == Unescape(rest).value;
    } else {
      assert (a + rest)[1..] == a[1..] + rest;
      UnescapePlain(a[1..], rest);
      assert a == [a[0]] + a[1..];
      if Unescape(rest).Some? {
        assert [a[0]] + (a[1..] + Unescape(rest).value) == a + Unescape(rest).value;
      }
    }
  }

  /** Without escapes a string is legal if and only if it has no quotes and no control characters, and then it
      stands for itself. */
  lemma {:induction false} UnescapeBare(s: string)
    requires '\\' !in s
    ensures Unescape(s) == if Plain(s) then Some(s) else None
  {
    if s != [] {
      UnescapeBare(s[1..]);
      assert s == [s[0]] + s[1..];
    }
  }

  lemma UnescapeNewline(rest: string)
    requires Unescape(rest).Some?
    ensures Unescape(ESCAPED_NEWLINE + rest) == Some(NEWLINE + Unescape(rest).value)
  {
    assert (ESCAPED_NEWLINE + rest)[2..] == rest;
  }

  // ---------------------------------------------------------------- what can be kept in the text

  predicate MacOk(mac: string) {
    '#' !in mac && forall i :: 0 <= i < |mac| ==> Unescaped(mac[i])
  }

  predicate ResourceOk(r: string) {
    MacOk(r) && ',' !in r
  }

  /** All strings are free of the text's own signs. */
  ghost predicate SignFree(t: Reverse) {
    forall mac :: mac in t ==> MacOk(mac) && forall r :: r in t[mac] ==> ResourceOk(r)
  }

  /** And every machine has at least one resource. */
  ghost predicate WellFormed(t: Reverse) {
    SignFree(t) && forall mac :: mac in t ==> t[mac] != {}
  }

  lemma AddKeepsWellFormed(t: Reverse, mac: string, rs: set<string>)
    requires WellFormed(t) && MacOk(mac) && rs != {} && forall r :: r in rs ==> ResourceOk(r)
    ensures WellFormed(AddRecord(t, mac, rs))
  {
    var x :| x in rs;
    assert mac in t ==> x in t[mac] + rs;
  }

  lemma RemoveKeepsWellFormed(t: Reverse, mac: string, rs: set<string>)
    requires WellFormed(t)
    ensures WellFormed(RemoveRecord(t, mac, rs))
  {
  }

  lemma SplitLine(mac: string, tail: string)
    requires '#' !in mac && '#' !in tail
    ensures Split(mac + SPLITTER + tail, SPLITTER) == [mac, tail]
    ensures Count(mac + SPLITTER + tail, SPLITTER) == 1
  {
    var parts := [mac, tail];
    assert Join(parts[1..], SPLITTER) == tail;
    assert Join(parts, SPLITTER) == mac + SPLITTER + tail;
    assert Pivot(SPLITTER, 0);
    SplitJoin(parts, SPLITTER, 0);
  }

  lemma {:induction false} JoinChars(parts: seq<string>, c: char)
    requires forall i :: 0 <= i < |parts| ==> MacOk(parts[i])
    requires c == ','
    ensures MacOk(Join(parts, [c]))
  {
    if |parts| > 1 {
      JoinChars(parts[1..], c);
    }
  }

  /** What reading a printed list of resources gives: no resources come back as one with the empty name. */
  function Reread(resources: seq<string>): set<string> {
    if resources == [] then {""} else SetOf(resources)
  }

  lemma RowRoundTrip(t: Reverse, row: Row)
    requires RowOk(row)
    ensures MacOk(Join(row.resources, COMMA)) && Plain(LineOf(row))
    ensures AddLine(t, LineOf(row)) == AddRecord(t, row.mac, Reread(row.resources))
  {
    JoinChars(row.resources, ',');
    SplitLine(row.mac, Join(row.resources, COMMA));
    assert Pivot(COMMA, 0);
    if row.resources == [] {
      assert Split("", COMMA) == [""] && SetOf([""]) == {""};
    } else {
      SplitJoin(row.resources, COMMA, 0);
    }
  }

  // ---------------------------------------------------------------- the round trip

  function TextBody(lines: seq<string>): string {
    if lines == [] then "" else TextBody(lines[..|lines| - 1]) + (lines[|lines| - 1] + NEWLINE)
  }

  function TextOf(lines: seq<string>): string {
    TextBody(lines) + NEWLINE
  }

  ghost predicate AllPlain(lines: seq<string>) {
    forall n :: 0 <= n < |lines| ==> Plain(lines[n])
  }

  lemma BodySnoc(lines: seq<string>, rest: string)
    requires lines != []
    ensures var front, last := lines[..|lines| - 1], lines[|lines| - 1];
            && PrintBody(lines) + rest == PrintBody(front) + (last + (ESCAPED_NEWLINE + rest))
            && TextBody(lines) + rest == TextBody(front) + (last + (NEWLINE + rest))
  {
  }

  /** Decoding the patch gives each line followed by a newline. */
  lemma {:induction false} PatchDecodes(lines: seq<string>, rest: string, text: string)
    requires AllPlain(lines) && Unescape(rest) == Some(text)
    ensures Unescape(PrintBody(lines) + rest) == Some(TextBody(lines) + text)
    decreases |lines|
  {
    if lines == [] {
      assert "" + rest == rest && "" + text == text;
    } else {
      var front, last := lines[..|lines| - 1], lines[|lines| - 1];
      BodySnoc(lines, rest);
      BodySnoc(lines, text);
      OneLineDecodes(last, rest, text);
      PatchDecodes(front, last + (ESCAPED_NEWLINE + rest), last + (NEWLINE + text));
    }
  }

  lemma OneLineDecodes(line: string, rest: string, text: string)
    requires Plain(line) && Unescape(rest) == Some(text)
    ensures Unescape(line + (ESCAPED_NEWLINE + rest)) == Some(line + (NEWLINE + text))
  {
    UnescapeNewline(rest);
    UnescapePlain(line, ESCAPED_NEWLINE + rest);
  }

  /** Splitting off the first line of a text. */
  lemma SplitFirst(line: string, rest: string)
    requires Plain(line)
    ensures Split(line + (NEWLINE + rest), NEWLINE) == [line] + Split(rest, NEWLINE)
  {
    assert '\n' !in line;
    assert Pivot(NEWLINE, 0);
    IndexOfField(line, NEWLINE, 0, rest);
    var s := line + NEWLINE + rest;
    assert s == line + (NEWLINE + rest);
    assert s[..|line|] == line && s[|line| + 1..] == rest;
  }

  lemma Snoc(lines: seq<string>, tail: seq<string>)
    requires lines != []
    ensures lines[..|lines| - 1] + ([lines[|lines| - 1]] + tail) == lines + tail
  {
  }

  lemma {:induction false} SplitText(lines: seq<string>, rest: string, tail: seq<string>)
    requires AllPlain(lines) && Split(rest, NEWLINE) == tail
    ensures Split(TextBody(lines) + rest, NEWLINE) == lines + tail
    decreases |lines|
  {
    if lines == [] {
      assert TextBody(lines) + rest == rest && lines + tail == tail;
    } else {
      var front, last := lines[..|lines| - 1], lines[|lines| - 1];
      assert AllPlain(front) && Plain(last);
      SplitFirst(last, rest);
      SplitText(front, last + (NEWLINE + rest), [last] + tail);
      BodySnoc(lines, rest);
      Snoc(lines, tail);
    }
  }

  /** What readers find in the config map after lines were printed into a patch. */
  lemma LinesRoundTrip(lines: seq<string>)
    requires AllPlain(lines)
    ensures Unescape(PrintLines(lines)) == Some(TextOf(lines))
    ensures Split(TextOf(lines), NEWLINE) == lines + ["", ""]
    ensures TextAllowed(TextOf(lines))
  {
    UnescapeNewline("");
    assert ESCAPED_NEWLINE + "" == ESCAPED_NEWLINE && NEWLINE + "" == NEWLINE;
    PatchDecodes(lines, ESCAPED_NEWLINE, NEWLINE);
    SplitFirst("", "");
    assert NEWLINE == "" + (NEWLINE + "") && Split("", NEWLINE) == [""];
    SplitText(lines, NEWLINE, ["", ""]);
    TextBodyAllowed(lines);
  }

  /** Texts that can be stored: no quotes, backslashes or control characters but newlines. */
  ghost predicate TextAllowed(s: string) {
    forall i :: 0 <= i < |s| ==> s[i] == '\n' || Unescaped(s[i])
  }

  lemma {:induction false} TextBodyAllowed(lines: seq<string>)
    requires AllPlain(lines)
    ensures TextAllowed(TextBody(lines))
  {
    if lines != [] {
      TextBodyAllowed(lines[..|lines| - 1]);
    }
  }

  // ---------------------------------------------------------------- reversed resources

  ghost predicate RowsOk(rows: seq<Row>) {
    forall n :: 0 <= n < |rows| ==> RowOk(rows[n])
  }

  ghost predicate RowOk(row: Row) {
    && MacOk(row.mac)
    && forall i :: 0 <= i < |row.resources| ==> ResourceOk(row.resources[i])
  }

  ghost function Gather(t: Reverse, rows: seq<Row>): Reverse
    decreases |rows|
  {
    if rows == [] then t else Gather(AddRecord(t, rows[0].mac, Reread(rows[0].resources)), rows[1..])
  }

  lemma RowsPlain(rows: seq<Row>)
    requires RowsOk(rows)
    ensures AllPlain(LinesOf(rows))
  {
    forall n | 0 <= n < |rows| ensures Plain(LinesOf(rows)[n]) {
      RowRoundTrip(map[], rows[n]);
    }
  }

  lemma {:induction false} RowsParse(t: Reverse, rows: seq<Row>)
    requires RowsOk(rows)
    ensures AddLines(t, LinesOf(rows) + ["", ""]) == Gather(t, rows)
    decreases |rows|
  {
    var lines := LinesOf(rows) + ["", ""];
    if rows == [] {
      BlankLines(t, lines);
    } else {
      RowRoundTrip(t, rows[0]);
      RowsParse(AddLine(t, lines[0]), rows[1..]);
      assert lines[1..] == LinesOf(rows[1..]) + ["", ""];
    }
  }

  /** The table in which machines without resources have the empty name instead. */
  ghost function Filled(t: Reverse): Reverse {
    map mac | mac in t :: if t[mac] == {} then {""} else t[mac]
  }

  lemma {:induction false} GatherEnumerated(acc: Reverse, rows: seq<Row>, t: Reverse)
    requires Enumerates(rows, t) && acc.Keys !! t.Keys
    ensures Gather(acc, rows) == acc + Filled(t)
    decreases |rows|
  {
    if rows != [] {
      var mac, rs := rows[0].mac, rows[0].resources;
      RereadIs(rs);
      GatherEnumerated(acc[mac := Reread(rs)], rows[1..], t - {mac});
      assert acc[mac := Reread(rs)] + Filled(t - {mac}) == acc + Filled(t);
    } else {
      assert acc + Filled(t) == acc;
    }
  }

  lemma RereadIs(rs: seq<string>)
    ensures Reread(rs) == if SetOf(rs) == {} then {""} else SetOf(rs)
  {
    if rs != [] {
      assert rs[0] in SetOf(rs);
    }
  }

  lemma {:induction false} EnumeratedRowsOk(rows: seq<Row>, t: Reverse)
    requires Enumerates(rows, t) && SignFree(t)
    ensures RowsOk(rows)
    decreases |rows|
  {
    if rows != [] {
      EnumeratedRowsOk(rows[1..], t - {rows[0].mac});
      var r0 := rows[0];
      assert RowOk(r0) by {
        assert forall i :: 0 <= i < |r0.resources| ==> r0.resources[i] in SetOf(r0.resources);
      }
      forall n | 0 <= n < |rows| ensures RowOk(rows[n]) {
        if n > 0 {
          assert rows[n] == rows[1..][n - 1];
        }
      }
    }
  }

  /** What readers find after a table was printed, in whatever order, and patched. */
  lemma PrintedIsFilled(t: Reverse, rows: seq<Row>)
    requires SignFree(t) && Enumerates(rows, t)
    ensures Unescape(PrintRows(rows)).Some?
    ensures ParseReverse(Unescape(PrintRows(rows)).value) == Filled(t)
    ensures TextAllowed(Unescape(PrintRows(rows)).value)
  {
    EnumeratedRowsOk(rows, t);
    RowsPlain(rows);
    RowsParse(map[], rows);
    LinesRoundTrip(LinesOf(rows));
    GatherEnumerated(map[], rows, t);
    assert map[] + Filled(t) == Filled(t);
  }

  /** In whatever order it is printed, a table free of the text's signs comes back from the patch unchanged
      if and only if no machine has an empty set. */
  lemma ReverseRoundTrip(t: Reverse, rows: seq<Row>)
    requires SignFree(t) && Enumerates(rows, t)
    ensures Unescape(PrintRows(rows)).Some? && TextAllowed(Unescape(PrintRows(rows)).value)
    ensures ParseReverse(Unescape(PrintRows(rows)).value) == t <==> forall mac :: mac in t ==> t[mac] != {}
  {
    PrintedIsFilled(t, rows);
    FilledSame(t);
  }

  lemma FilledSame(t: Reverse)
    ensures Filled(t) == t <==> forall mac :: mac in t ==> t[mac] != {}
  {
    if Filled(t) == t {
      forall mac | mac in t ensures t[mac] != {} {
        assert Filled(t)[mac] == t[mac];
      }
    }
  }

  /** A machine without resources comes back with one that has the empty name. */
  lemma EmptySetIsLost(mac: string, rows: seq<Row>)
    requires MacOk(mac) && Enumerates(rows, map[mac := {}])
    ensures Unescape(PrintRows(rows)).Some? && ParseReverse(Unescape(PrintRows(rows)).value) == map[mac := {""}]
  {
    PrintedIsFilled(map[mac := {}], rows);
  }

  // ---------------------------------------------------------------- read, edit, write back

  lemma PlainField(field: string, s: string)
    requires Plain(s) && forall x :: x in field ==> x in s
    ensures Plain(field)
  {
    forall i | 0 <= i < |field| ensures Unescaped(field[i]) {
      assert field[i] in field;
    }
  }

  lemma AddLineWellFormed(t: Reverse, line: string)
    requires WellFormed(t) && Plain(line)
    ensures WellFormed(AddLine(t, line))
  {
    if Count(line, SPLITTER) == 1 {
      var i := Split(line, SPLITTER);
      SplitFields(line, '#', i[0]);
      SplitFields(line, '#', i[1]);
      PlainField(i[0], line);
      PlainField(i[1], line);
      forall r | r in Split(i[1], COMMA) ensures ResourceOk(r) {
        SplitFields(i[1], ',', r);
        PlainField(r, i[1]);
      }
      assert Split(i[1], COMMA)[0] in SetOf(Split(i[1], COMMA));
      AddKeepsWellFormed(t, i[0], SetOf(Split(i[1], COMMA)));
    }
  }

  lemma {:induction false} AddLinesWellFormed(t: Reverse, lines: seq<string>)
    requires WellFormed(t) && AllPlain(lines)
    ensures WellFormed(AddLines(t, lines))
    decreases |lines|
  {
    if lines != [] {
      AddLineWellFormed(t, lines[0]);
      AddLinesWellFormed(AddLine(t, lines[0]), lines[1..]);
    }
  }

  lemma LinePlain(s: string, line: string)
    requires TextAllowed(s) && line in Split(s, NEWLINE)
    ensures Plain(line)
  {
    SplitFields(s, '\n', line);
    forall i | 0 <= i < |line| ensures Unescaped(line[i]) {
      assert line[i] in line;
      var j :| 0 <= j < |s| && s[j] == line[i];
    }
  }

  /** Whatever a stored text says, its table is well formed. */
  lemma ParsedWellFormed(s: string)
    requires TextAllowed(s)
    ensures WellFormed(ParseReverse(s))
  {
    var lines := Split(s, NEWLINE);
    forall n | 0 <= n < |lines| ensures Plain(lines[n]) {
      LinePlain(s, lines[n]);
    }
    AddLinesWellFormed(map[], lines);
  }

  datatype Edit = Add(mac: string, rs: set<string>) | Remove(mac: string, rs: set<string>)

  function Do(t: Reverse, e: Edit): Reverse {
    match e
    case Add(mac, rs) => AddRecord(t, mac, rs)
    case Remove(mac, rs) => RemoveRecord(t, mac, rs)
  }

  ghost predicate EditOk(e: Edit) {
    e.Add? ==> MacOk(e.mac) && e.rs != {} && forall r :: r in e.rs ==> ResourceOk(r)
  }

  /** One update of the config map: parse, edit, print in some order, patch. */
  ghost predicate Updated(s: string, e: Edit, s': string) {
    exists rows :: Enumerates(rows, Do(ParseReverse(s), e)) && Unescape(PrintRows(rows)) == Some(s')
  }

  lemma UpdateReverseConfigMap(s: string, e: Edit, s': string)
    requires TextAllowed(s) && EditOk(e) && Updated(s, e, s')
    ensures TextAllowed(s') && ParseReverse(s') == Do(ParseReverse(s), e)
  {
    ParsedWellFormed(s);
    if e.Add? {
      AddKeepsWellFormed(ParseReverse(s), e.mac, e.rs);
    } else {
      RemoveKeepsWellFormed(ParseReverse(s), e.mac, e.rs);
    }
    var rows :| Enumerates(rows, Do(ParseReverse(s), e)) && Unescape(PrintRows(rows)) == Some(s');
    ReverseRoundTrip(Do(ParseReverse(s), e), rows);
  }

  /** Resource by resource: readers see after an update what they saw before, with the resources named added
      to, or removed from, the machine named. */
  lemma UpdateMembers(s: string, e: Edit, s': string, m: string, r: string)
    requires TextAllowed(s) && EditOk(e) && Updated(s, e, s')
    ensures Under(ParseReverse(s'), m, r) <==>
            if e.Add? then Under(ParseReverse(s), m, r) || (m == e.mac && r in e.rs)
            else Under(ParseReverse(s), m, r) && !(m == e.mac && r in e.rs)
  {
    UpdateReverseConfigMap(s, e, s');
    AddedMembers(ParseReverse(s), e.mac, e.rs, m, r);
    RemovedMembers(ParseReverse(s), e.mac, e.rs, m, r);
  }

  function DoAll(t: Reverse, es: seq<Edit>): Reverse {
    if es == [] then t else Do(DoAll(t, es[..|es| - 1]), es[|es| - 1])
  }

  /** After any number of updates through the text, readers see exactly the edits. */
  lemma {:induction false} TextTracksEdits(texts: seq<string>, es: seq<Edit>)
    requires |texts| == |es| + 1 && TextAllowed(texts[0])
    requires forall i :: 0 <= i < |es| ==> EditOk(es[i]) && Updated(texts[i], es[i], texts[i + 1])
    ensures TextAllowed(texts[|es|]) && ParseReverse(texts[|es|]) == DoAll(ParseReverse(texts[0]), es)
  {
    if es != [] {
      var n := |es| - 1;
      TextTracksEdits(texts[..n + 1], es[..n]);
      UpdateReverseConfigMap(texts[n], es[n], texts[n + 1]);
    }
  }

  // ---------------------------------------------------------------- machines that update at once

  /** An update is two requests: a machine fetches the text, and later stores its edit of what it fetched. */
  datatype Access = Fetch(machine: nat) | Store(machine: nat, e: Edit)

  datatype Shared = Shared(text: string, fetched: map<nat, string>)

  ghost predicate Accessed(s: Shared, a: Access, s': Shared) {
    match a
    case Fetch(m) => s' == s.(fetched := s.fetched[m := s.text])
    case Store(m, e) => m in s.fetched && Updated(s.fetched[m], e, s'.text) && s'.fetched == s.fetched
  }

  /** The edits a text has in it, and how many had been stored when it was written. */
  datatype View = View(edits: seq<Edit>, stores: nat)

  datatype Views = Views(now: View, fetched: map<nat, View>)

  /** What a machine stores has the edits of what it fetched, and its own. */
  function Follow(v: Views, a: Access): Views {
    match a
    case Fetch(m) => v.(fetched := v.fetched[m := v.now])
    case Store(m, e) =>
      var base := if m in v.fetched then v.fetched[m].edits else [];
      v.(now := View(base + [e], v.now.stores + 1))
  }

  function FollowAll(as_: seq<Access>): Views {
    if as_ == [] then Views(View([], 0), map[]) else Follow(FollowAll(as_[..|as_| - 1]), as_[|as_| - 1])
  }

  ghost predicate IsSharing(ss: seq<Shared>, as_: seq<Access>) {
    && |ss| == |as_| + 1 && TextAllowed(ss[0].text) && ss[0].fetched == map[]
    && forall i :: 0 <= i < |as_| ==>
         Accessed(ss[i], as_[i], ss[i + 1]) && (as_[i].Store? ==> EditOk(as_[i].e))
  }

  ghost predicate Shows(text: string, t0: Reverse, v: View) {
    TextAllowed(text) && ParseReverse(text) == DoAll(t0, v.edits)
  }

  ghost predicate AllShow(s: Shared, t0: Reverse, v: Views) {
    && Shows(s.text, t0, v.now) && s.fetched.Keys == v.fetched.Keys
    && forall m :: m in s.fetched ==> Shows(s.fetched[m], t0, v.fetched[m])
  }

  lemma AccessShows(s: Shared, a: Access, s': Shared, t0: Reverse, v: Views)
    requires AllShow(s, t0, v) && Accessed(s, a, s') && (a.Store? ==> EditOk(a.e))
    ensures AllShow(s', t0, Follow(v, a))
  {
    if a.Store? {
      UpdateReverseConfigMap(s.fetched[a.machine], a.e, s'.text);
      var base := v.fetched[a.machine].edits;
      assert (base + [a.e])[..|base|] == base;
    }
  }

  /** Whatever machines do at once, the text has exactly the edits that the last store followed from. */
  lemma {:induction false} SharedTextShows(ss: seq<Shared>, as_: seq<Access>)
    requires IsSharing(ss, as_)
    ensures AllShow(ss[|as_|], ParseReverse(ss[0].text), FollowAll(as_))
  {
    if as_ != [] {
      var n := |as_| - 1;
      SharedTextShows(ss[..n + 1], as_[..n]);
      AccessShows(ss[n], as_[n], ss[n + 1], ParseReverse(ss[0].text), FollowAll(as_[..n]));
    }
  }

  /** All edits in the order in which they were stored. */
  function EditsOf(as_: seq<Access>): seq<Edit> {
    if as_ == [] then []
    else
      var rest, a := EditsOf(as_[..|as_| - 1]), as_[|as_| - 1];
      if a.Store? then rest + [a.e] else rest
  }

  /** Nobody stored between a machine's fetch and its store. */
  ghost predicate Fresh(v: Views, a: Access) {
    a.Store? ==> a.machine in v.fetched && v.fetched[a.machine].stores == v.now.stores
  }

  ghost predicate AllFresh(as_: seq<Access>) {
    forall i :: 0 <= i < |as_| ==> Fresh(FollowAll(as_[..i]), as_[i])
  }

  ghost predicate AllFetched(as_: seq<Access>) {
    forall i :: 0 <= i < |as_| ==> as_[i].Store? ==> as_[i].machine in FollowAll(as_[..i]).fetched
  }

  /** Nobody has a complete view once a store was stale. */
  ghost predicate Lossy(v: Views) {
    |v.now.edits| < v.now.stores && forall m :: m in v.fetched ==> |v.fetched[m].edits| < v.now.stores
  }

  ghost predicate Counted(v: Views) {
    && |v.now.edits| <= v.now.stores
    && forall m :: m in v.fetched ==> |v.fetched[m].edits| <= v.fetched[m].stores <= v.now.stores
  }

  lemma FollowCounts(v: Views, a: Access)
    requires Counted(v) && (a.Store? ==> a.machine in v.fetched)
    ensures Counted(Follow(v, a))
    ensures Lossy(v) || !Fresh(v, a) ==> Lossy(Follow(v, a))
  {
  }

  lemma AllSplit(as_: seq<Access>)
    requires as_ != []
    ensures var n := |as_| - 1;
            && (AllFresh(as_) <==> AllFresh(as_[..n]) && Fresh(FollowAll(as_[..n]), as_[n]))
            && (AllFetched(as_) ==> AllFetched(as_[..n]))
  {
    var n := |as_| - 1;
    assert forall i :: 0 <= i < n ==> as_[..n][..i] == as_[..i] && as_[..n][i] == as_[i];
  }

  lemma {:induction false} LossAccount(as_: seq<Access>)
    requires AllFetched(as_)
    ensures Counted(FollowAll(as_)) && FollowAll(as_).now.stores == |EditsOf(as_)|
    ensures !AllFresh(as_) ==> Lossy(FollowAll(as_))
  {
    if as_ != [] {
      var n := |as_| - 1;
      AllSplit(as_);
      LossAccount(as_[..n]);
      FollowCounts(FollowAll(as_[..n]), as_[n]);
    }
  }

  /** When every store is fresh, a view that is up to date has all edits in order. */
  lemma {:induction false} FreshKeepsAll(as_: seq<Access>)
    requires AllFetched(as_) && AllFresh(as_)
    ensures var v := FollowAll(as_);
            && v.now.edits == EditsOf(as_)
            && forall m :: m in v.fetched && v.fetched[m].stores == v.now.stores ==> v.fetched[m].edits == EditsOf(as_)
  {
    if as_ != [] {
      var n := |as_| - 1;
      AllSplit(as_);
      FreshKeepsAll(as_[..n]);
      LossAccount(as_[..n]);
    }
  }

  /** No edit is lost if and only if nobody stores between a machine's fetch and its store; then readers
      see all edits in the order in which they were stored. */
  lemma NothingLostExactly(ss: seq<Shared>, as_: seq<Access>)
    requires IsSharing(ss, as_)
    ensures FollowAll(as_).now.edits == EditsOf(as_) <==> AllFresh(as_)
    ensures AllFresh(as_) ==> ParseReverse(ss[|as_|].text) == DoAll(ParseReverse(ss[0].text), EditsOf(as_))
  {
    SharedTextShows(ss, as_);
    SharingFetches(ss, as_);
    LossAccount(as_);
    if AllFresh(as_) {
      FreshKeepsAll(as_);
    }
  }

  lemma {:induction false} SharingFetches(ss: seq<Shared>, as_: seq<Access>)
    requires IsSharing(ss, as_)
    ensures AllFetched(as_)
  {
    forall i | 0 <= i < |as_| && as_[i].Store? ensures as_[i].machine in FollowAll(as_[..i]).fetched {
      assert Accessed(ss[i], as_[i], ss[i + 1]);
      SharedTextShows(ss[..i + 1], as_[..i]);
    }
  }

  /** Two machines that fetch the same text: the first edit is undone by the second store exactly if it
      changed anything. */
  lemma SecondStoreUndoesFirst(t: Reverse, first: Edit, second: Edit)
    requires first.mac != second.mac
    ensures Do(t, second) == Do(Do(t, first), second) <==> Do(t, first) == t
  {
    if Do(t, second) == Do(Do(t, first), second) {
      forall mac ensures Get(Do(t, first), mac) == Get(t, mac) {
        assert mac != first.mac ==> Get(Do(t, first), mac) == Get(t, mac);
        assert mac == first.mac ==> Get(Do(Do(t, first), second), mac) == Get(Do(t, first), mac) &&
                                    Get(Do(t, second), mac) == Get(t, mac);
      }
      SameLookups(Do(t, first), t);
    }
  }

  // ---------------------------------------------------------------- connected machines

  function ParseConnect(s: string): set<string> {
    set mac | mac in Split(s, NEWLINE) && mac != ""
  }

  method FromStringToConnectInfo(s: string) returns (list: set<string>)
    ensures list == ParseConnect(s)
  {
    list := {};
    var lines := Split(s, NEWLINE);
    for i := 0 to |lines|
      invariant list == set mac | mac in lines[..i] && mac != ""
    {
      assert lines[..i + 1] == lines[..i] + [lines[i]];
      if |lines[i]| != 0 {
        list := list + {lines[i]};
      }
    }
    assert lines[..|lines|] == lines;
  }

  /** The lines printed for a list of machines: empty names are skipped. */
  function ConnectLines(macs: seq<string>): seq<string> {
    if macs == [] then []
    else
      var rest := ConnectLines(macs[..|macs| - 1]);
      if macs[|macs| - 1] == "" then rest else rest + [macs[|macs| - 1]]
  }

  function PrintConnect(macs: seq<string>): string {
    PrintLines(ConnectLines(macs))
  }

  method ConnectToString(macs: seq<string>) returns (out: string)
    ensures out == PrintConnect(macs)
  {
    out := "";
    for i := 0 to |macs|
      invariant out == PrintBody(ConnectLines(macs[..i]))
    {
      assert macs[..i + 1][..i] == macs[..i];
      if |macs[i]| != 0 {
        ghost var lines := ConnectLines(macs[..i]);
        assert (lines + [macs[i]])[..|lines|] == lines;
        out := out + (macs[i] + ESCAPED_NEWLINE);
      }
    }
    assert macs[..|macs|] == macs;
    out := out + ESCAPED_NEWLINE;
  }

  lemma {:induction false} ConnectLinesAre(macs: seq<string>, mac: string)
    ensures mac in ConnectLines(macs) <==> mac in macs && mac != ""
    decreases |macs|
  {
    if macs != [] {
      ConnectLinesAre(macs[..|macs| - 1], mac);
      assert macs == macs[..|macs| - 1] + [macs[|macs| - 1]];
    }
  }

  /** The connect list survives the patch in whatever order it is printed. */
  lemma ConnectRoundTrip(list: set<string>, macs: seq<string>)
    requires SetOf(macs) == list && forall mac :: mac in list ==> Plain(mac)
    ensures Unescape(PrintConnect(macs)).Some?
    ensures ParseConnect(Unescape(PrintConnect(macs)).value) == list - {""}
    ensures TextAllowed(Unescape(PrintConnect(macs)).value)
  {
    var lines := ConnectLines(macs);
    forall n | 0 <= n < |lines| ensures Plain(lines[n]) {
      ConnectLinesAre(macs, lines[n]);
      assert lines[n] in SetOf(macs);
    }
    LinesRoundTrip(lines);
    var parsed := ParseConnect(TextOf(lines));
    forall mac ensures mac in parsed <==> mac in list - {""} {
      assert mac in lines + ["", ""] <==> mac in lines || mac == "";
      ConnectLinesAre(macs, mac);
      assert mac in macs <==> mac in SetOf(macs);
    }
  }

  /** One update of the connect list: parse, insert or delete this machine, print in some order, patch. */
  ghost predicate ConnectUpdated(s: string, mac: string, insert: bool, s': string) {
    exists macs ::
      && SetOf(macs) == (if insert then ParseConnect(s) + {mac} else ParseConnect(s) - {mac})
      && Unescape(PrintConnect(macs)) == Some(s')
  }

  lemma UpdateConnectConfigMap(s: string, mac: string, insert: bool, s': string)
    requires TextAllowed(s) && Plain(mac) && mac != "" && ConnectUpdated(s, mac, insert, s')
    ensures TextAllowed(s')
    ensures ParseConnect(s') == if insert then ParseConnect(s) + {mac} else ParseConnect(s) - {mac}
  {
    var macs :| SetOf(macs) == (if insert then ParseConnect(s) + {mac} else ParseConnect(s) - {mac})
      && Unescape(PrintConnect(macs)) == Some(s');
    var list := SetOf(macs);
    forall x | x in list ensures Plain(x) {
      if x != mac {
        LinePlain(s, x);
      }
    }
    ConnectRoundTrip(list, macs);
    assert "" !in list;
  }
}
