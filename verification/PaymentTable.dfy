/** The table reader that stands in when the model cannot be reached. */
module PaymentTable {
  import opened Text
  import opened Wrappers
  import opened IntakeValue
  import opened IntakeEvidence
  import opened IntakeGate
  import opened IntakePayment

  type Header = string -> string

  // ----- lines and cells -----

  function Cells(s: string): (r: seq<string>)
    ensures r != []
  {
    if s == "" then [""]
    else if s[0] == '|' then [""] + Cells(s[1..])
    else
      var rest := Cells(s[1..]);
      [[s[0]] + rest[0]] + rest[1..]
  }

  function Trims(cells: seq<string>): (r: seq<string>)
    ensures |r| == |cells|
  {
    if cells == [] then [] else [Trim(cells[0])] + Trims(cells[1..])
  }

  predicate IsRow(line: string) {
    && line != "" && !HasPrefix(line, "###")
    && Trim(Without(Without(line, '|'), '-')) != ""
    && '|' in line && |Cells(line)| >= 3
  }

  function RowsOf(lines: seq<string>): seq<seq<string>> {
    if lines == [] then []
    else
      var last := Trim(lines[|lines| - 1]);
      RowsOf(lines[..|lines| - 1]) + if IsRow(last) then [Trims(Cells(last))] else []
  }

  function Headers(h: Header, cells: seq<string>): (r: seq<string>)
    ensures |r| == |cells|
  {
    if cells == [] then [] else [h(cells[0])] + Headers(h, cells[1..])
  }

  predicate Dashes(cells: seq<string>) {
    forall c | c in cells :: Trim(c) == "" || Without(c, '-') == ""
  }

  function DataRows(rows: seq<seq<string>>): seq<seq<string>>
    requires rows != []
  {
    if |rows| > 1 && Dashes(rows[1]) then rows[2..] else rows[1..]
  }

  // The cell under a header; of several equal headers the last one counts, and missing cells are empty.
  function Cell(header: seq<string>, cells: seq<string>, name: string): string {
    if header == [] then ""
    else
      var i := |header| - 1;
      if header[i] == name then (if i < |cells| then cells[i] else "") else Cell(header[..i], cells, name)
  }

  // ----- rows to schedules -----

  function CellAmount(k: Reader, header: seq<string>, cells: seq<string>): Option<real> {
    k.number(Without(Cell(header, cells, "amount"), ','))
  }

  predicate Readable(k: Reader, header: seq<string>, cells: seq<string>) {
    && Cell(header, cells, "due_date") != "" && Cell(header, cells, "amount") != ""
    && CellAmount(k, header, cells).Some?
  }

  function FirstNonEmpty(a: string, b: string): string {
    if Trim(a) != "" then a else if Trim(b) != "" then b else ""
  }

  function TimingText(k: Reader, cell: string): string {
    match TimingOf(k, String(cell))
    case Some(Prepaid) => "prepaid"
    case Some(Postpaid) => "postpaid"
    case None => ""
  }

  function Truthy(k: Reader, cell: string, default: bool): bool {
    var read := k.truth(Lower(Trim(cell)));
    if read.Some? then read.value else default
  }

  function RowSchedule(k: Reader, header: seq<string>, cells: seq<string>): Json
    requires Readable(k, header, cells)
  {
    var due := Cell(header, cells, "due_date");
    var kind := if Cell(header, cells, "amount_type") == "" then "fixed_rent" else Cell(header, cells, "amount_type");
    var component := Cell(header, cells, "component");
    Object(map[
      "period_start" := String(FirstNonEmpty(Cell(header, cells, "period_start"), due)),
      "period_end" := String(FirstNonEmpty(Cell(header, cells, "period_end"), due)),
      "due_date" := String(due),
      "amount" := Number(CellAmount(k, header, cells).value),
      "payment_timing" := String(TimingText(k, Cell(header, cells, "payment_timing"))),
      "is_fixed" := Bool(Truthy(k, Cell(header, cells, "is_fixed"), kind != "turnover_rent" && kind != "variable_rent")),
      "is_lease_component" := Bool(Truthy(k, Cell(header, cells, "is_lease_component"),
                                          component != "non_lease" && kind != "cam" && kind != "service_fee")),
      "amount_type" := String(kind),
      "currency" := String(Cell(header, cells, "currency")),
      "confidence" := Number(0.65)])
  }

  function Schedules(k: Reader, header: seq<string>, rows: seq<seq<string>>): seq<Json> {
    if rows == [] then []
    else
      var last := rows[|rows| - 1];
      Schedules(k, header, rows[..|rows| - 1]) + if Readable(k, header, last) then [RowSchedule(k, header, last)] else []
  }

  function Strings(items: seq<string>): (r: seq<Json>)
    ensures |r| == |items|
  {
    if items == [] then [] else [String(items[0])] + Strings(items[1..])
  }

  function Answer(schedules: seq<Json>, confidence: real, missing: seq<string>, warning: string): Json {
    Object(map["schedules" := List(schedules), "overall_confidence" := Number(confidence),
               "missing_fields" := List(Strings(missing)), "warnings" := List([String(warning)])])
  }

  function Required(header: seq<string>): seq<string> {
    (if "due_date" in header then [] else ["due_date"]) + (if "amount" in header then [] else ["amount"])
  }

  function Fallback(k: Reader, h: Header, lines: seq<string>, reason: string): Json {
    var rows := RowsOf(lines);
    if rows == [] then Answer([], 0.0, ["all"], reason)
    else
      var header := Headers(h, rows[0]);
      if Required(header) != [] then Answer([], 0.0, Required(header), reason)
      else
        var schedules := Schedules(k, header, DataRows(rows));
        if schedules == [] then Answer([], 0.0, ["all"], reason) else Answer(schedules, 0.65, [], reason)
  }

  method ReadRows(lines: seq<string>) returns (rows: seq<seq<string>>)
    ensures rows == RowsOf(lines)
  {
    hide IsRow, Trims, Cells, Trim;
    rows := [];
    for i := 0 to |lines|
      invariant rows == RowsOf(lines[..i])
    {
      assert lines[..i + 1][..i] == lines[..i];
      var line := Trim(lines[i]);
      if IsRow(line) {
        rows := rows + [Trims(Cells(line))];
      }
    }
    assert lines[..|lines|] == lines;
  }

  method FallbackParse(k: Reader, h: Header, lines: seq<string>, reason: string) returns (parsed: Json)
    ensures parsed == Fallback(k, h, lines, reason)
  {
    hide RowsOf, Readable, RowSchedule, Headers, Dashes;
    var rows := ReadRows(lines);
    if |rows| == 0 {
      return Answer([], 0.0, ["all"], reason);
    }
    var header := Headers(h, rows[0]);
    if Required(header) != [] {
      return Answer([], 0.0, Required(header), reason);
    }
    var data := DataRows(rows);
    var schedules: seq<Json> := [];
    for i := 0 to |data|
      invariant schedules == Schedules(k, header, data[..i])
    {
      assert data[..i + 1][..i] == data[..i];
      if Readable(k, header, data[i]) {
        schedules := schedules + [RowSchedule(k, header, data[i])];
      }
    }
    assert data[..|data|] == data;
    parsed := if |schedules| > 0 then Answer(schedules, 0.65, [], reason) else Answer([], 0.0, ["all"], reason);
  }

  // ----- what the table reader takes a table to be -----

  /** Cells are what stands between the bars. */
  lemma {:induction false} CellsBetweenBars(cell: string, rest: string)
    requires '|' !in cell
    ensures Cells(cell) == [cell]
    ensures Cells(cell + "|" + rest) == [cell] + Cells(rest)
  {
    var s := cell + "|" + rest;
    if cell == "" {
      assert s[1..] == rest;
    } else {
      assert cell[0] in cell && forall c :: c in cell[1..] ==> c in cell;
      CellsBetweenBars(cell[1..], rest);
      assert s[1..] == cell[1..] + "|" + rest;
      assert [cell[0]] + cell[1..] == cell;
    }
  }

  lemma {:induction false} BarsCutCells(s: string)
    ensures |Cells(s)| >= 2 <==> '|' in s
    ensures |Cells(s)| >= 3 <==> exists i, j :: 0 <= i < j < |s| && s[i] == '|' && s[j] == '|'
  {
    if s != "" {
      BarsCutCells(s[1..]);
      assert s == [s[0]] + s[1..];
      if i, j :| 0 <= i < j < |s[1..]| && s[1..][i] == '|' && s[1..][j] == '|' {
        assert s[i + 1] == '|' && s[j + 1] == '|';
      }
      if i, j :| 0 <= i < j < |s| && s[i] == '|' && s[j] == '|' {
        assert s[1..][j - 1] == '|';
        assert i > 0 ==> s[1..][i - 1] == '|';
      }
      if s[0] == '|' && '|' in s[1..] {
        var j :| 0 <= j < |s[1..]| && s[1..][j] == '|';
        assert s[0] == '|' && s[j + 1] == '|';
      }
    }
  }

  /** A line is a row when it is no heading, has two bars or more, and something but bars, dashes and space. */
  lemma RowIff(line: string)
    ensures IsRow(line) <==>
              && line != "" && !("###" <= line) && Trim(Without(Without(line, '|'), '-')) != ""
              && exists i, j :: 0 <= i < j < |line| && line[i] == '|' && line[j] == '|'
  {
    BarsCutCells(line);
    hide Trim, Without, Cells;
  }

  lemma {:induction false} TrimsEach(cells: seq<string>, i: nat)
    requires i < |cells|
    ensures Trims(cells)[i] == Trim(cells[i])
  {
    if i > 0 {
      TrimsEach(cells[1..], i - 1);
    }
  }

  lemma {:induction false} HeadersEach(h: Header, cells: seq<string>, i: nat)
    requires i < |cells|
    ensures Headers(h, cells)[i] == h(cells[i])
  {
    if i > 0 {
      HeadersEach(h, cells[1..], i - 1);
    }
  }

  lemma {:induction false} StringsEach(items: seq<string>, i: nat)
    requires i < |items|
    ensures Strings(items)[i] == String(items[i])
  {
    if i > 0 {
      StringsEach(items[1..], i - 1);
    }
  }

  /** Rows are read line by line, and every cell of them is trimmed. */
  lemma RowsLineByLine(lines: seq<string>, line: string)
    ensures RowsOf([]) == []
    ensures RowsOf(lines + [line]) == RowsOf(lines) + if IsRow(Trim(line)) then [Trims(Cells(Trim(line)))] else []
  {
    hide IsRow, Trims, Cells, Trim;
    assert (lines + [line])[..|lines|] == lines;
  }

  /** A row of dashes below the header is skipped. */
  lemma DataBelowHeader(rows: seq<seq<string>>)
    requires rows != []
    ensures DataRows(rows) ==
            if |rows| > 1 && forall c :: c in rows[1] ==> Trim(c) == "" || Without(c, '-') == "" then rows[2..] else rows[1..]
  {
    hide Trim, Without;
  }

  /** The cell under a name is that of the last column with that header, if the row is long enough. */
  lemma {:induction false} CellUnderLastHeader(header: seq<string>, cells: seq<string>, i: nat)
    requires i < |header| && forall j :: i < j < |header| ==> header[j] != header[i]
    ensures Cell(header, cells, header[i]) == if i < |cells| then cells[i] else ""
  {
    var n := |header| - 1;
    if i < n {
      assert header[n] != header[i];
      forall j | i < j < n ensures header[..n][j] != header[..n][i] {
        assert header[..n][j] == header[j];
      }
      CellUnderLastHeader(header[..n], cells, i);
    }
  }

  lemma {:induction false} NoCellWithoutHeader(header: seq<string>, cells: seq<string>, name: string)
    requires name !in header
    ensures Cell(header, cells, name) == ""
  {
    if header != [] {
      NoCellWithoutHeader(header[..|header| - 1], cells, name);
    }
  }

  /** A row can be read when it has a due date and an amount that is a number without its commas. */
  lemma ReadableIff(k: Reader, header: seq<string>, cells: seq<string>)
    ensures Readable(k, header, cells) <==>
              && Cell(header, cells, "due_date") != "" && Cell(header, cells, "amount") != ""
              && k.number(Without(Cell(header, cells, "amount"), ',')).Some?
  {
    hide Cell, Without;
  }

  /** Column by column, what a readable row becomes, and what stands for its empty cells. */
  lemma ColumnsOfRow(k: Reader, header: seq<string>, cells: seq<string>)
    requires Readable(k, header, cells)
    ensures var due, kind := Cell(header, cells, "due_date"), Cell(header, cells, "amount_type");
            var row := RowSchedule(k, header, cells);
            && Field(row, "due_date") == String(due)
            && Field(row, "amount") == Number(k.number(Without(Cell(header, cells, "amount"), ',')).value)
            && Field(row, "amount_type") == String(if kind == "" then "fixed_rent" else kind)
            && Field(row, "currency") == String(Cell(header, cells, "currency"))
            && Field(row, "confidence") == Number(0.65)
  {
    hide Cell, Without, Trim, Truthy, TimingText, FirstNonEmpty;
  }

  /** A period without a start or an end starts or ends on the due date. */
  lemma PeriodOfRow(k: Reader, header: seq<string>, cells: seq<string>)
    requires Readable(k, header, cells)
    ensures var row, due := RowSchedule(k, header, cells), Cell(header, cells, "due_date");
            var from, to := Cell(header, cells, "period_start"), Cell(header, cells, "period_end");
            && (Trim(from) != "" ==> Field(row, "period_start") == String(from))
            && (Trim(from) == "" && Trim(due) != "" ==> Field(row, "period_start") == String(due))
            && (Trim(to) != "" ==> Field(row, "period_end") == String(to))
            && (Trim(to) == "" && Trim(due) != "" ==> Field(row, "period_end") == String(due))
  {
    hide Cell, Without, Trim, Truthy, TimingText, Readable;
  }

  /** And its flags and timing. */
  lemma FlagsOfRow(k: Reader, header: seq<string>, cells: seq<string>)
    requires Readable(k, header, cells)
    ensures var kind, component := Cell(header, cells, "amount_type"), Cell(header, cells, "component");
            var timing := Cell(header, cells, "payment_timing");
            var row, isFixed := RowSchedule(k, header, cells), k.truth(Lower(Trim(Cell(header, cells, "is_fixed"))));
            var isLease := k.truth(Lower(Trim(Cell(header, cells, "is_lease_component"))));
            && Field(row, "is_fixed") == Bool(if isFixed.Some? then isFixed.value else kind !in {"turnover_rent", "variable_rent"})
            && Field(row, "is_lease_component")
               == Bool(if isLease.Some? then isLease.value else component != "non_lease" && kind !in {"cam", "service_fee"})
            && Field(row, "payment_timing") ==
               String(if Lower(Trim(timing)) in {"prepaid", "advance", "先付", "期初", "预付"} then "prepaid"
                      else if Lower(Trim(timing)) in {"postpaid", "arrears", "后付", "期末"} then "postpaid" else "")
  {
    hide Cell, Without, Trim, Lower, FirstNonEmpty, CellAmount;
  }

  /** What the table reader answers: the readable rows with confidence 0.65, or - without rows, without a required column,
      or without a readable row - nothing, with what is missing; and always the reason as a warning. */
  lemma AnswersOfTable(k: Reader, h: Header, lines: seq<string>, reason: string)
    ensures var rows, parsed := RowsOf(lines), Fallback(k, h, lines, reason);
            var header := if rows == [] then [] else Headers(h, rows[0]);
            var required := (if "due_date" in header then [] else ["due_date"]) + (if "amount" in header then [] else ["amount"]);
            var read := if rows == [] || required != [] then [] else Schedules(k, header, DataRows(rows));
            && Field(parsed, "schedules") == List(read)
            && Field(parsed, "overall_confidence") == Number(if read == [] then 0.0 else 0.65)
            && Field(parsed, "missing_fields")
               == List(Strings(if read != [] then [] else if rows == [] || required == [] then ["all"] else required))
            && Field(parsed, "warnings") == List([String(reason)])
            && Field(parsed, "evidence") == Field(parsed, "evidence_refs") == Null
  {
    hide RowsOf, Headers, Schedules, DataRows, Strings;
  }

  lemma ReadableRowsInOrder(k: Reader, header: seq<string>, rows: seq<seq<string>>, cells: seq<string>)
    ensures Schedules(k, header, []) == []
    ensures Schedules(k, header, rows + [cells])
         == Schedules(k, header, rows) + if Readable(k, header, cells) then [RowSchedule(k, header, cells)] else []
  {
    hide Readable, RowSchedule;
    assert (rows + [cells])[..|rows|] == rows;
  }

  // ----- honesty -----

  // The schedule is what this row of the table says.
  predicate Says(k: Reader, header: seq<string>, cells: seq<string>, schedule: Json) {
    && Readable(k, header, cells)
    && Field(schedule, "due_date") == String(Cell(header, cells, "due_date"))
    && Field(schedule, "amount") == Number(CellAmount(k, header, cells).value)
    && Field(schedule, "currency") == String(Cell(header, cells, "currency"))
    && Field(schedule, "confidence") == Number(0.65)
  }

  lemma RowScheduleSays(k: Reader, header: seq<string>, cells: seq<string>)
    requires Readable(k, header, cells)
    ensures Says(k, header, cells, RowSchedule(k, header, cells))
  {
    hide Readable, Cell, CellAmount, TimingText, Truthy, FirstNonEmpty;
  }

  lemma {:induction false} SchedulesComeFromRows(k: Reader, header: seq<string>, rows: seq<seq<string>>)
    ensures forall s :: s in Schedules(k, header, rows) ==> exists cells :: cells in rows && Says(k, header, cells, s)
  {
    if rows != [] {
      hide Readable, RowSchedule, Says;
      var init, last := rows[..|rows| - 1], rows[|rows| - 1];
      SchedulesComeFromRows(k, header, init);
      assert rows == init + [last];
      if Readable(k, header, last) {
        RowScheduleSays(k, header, last);
      }
      forall s | s in Schedules(k, header, rows) ensures exists cells :: cells in rows && Says(k, header, cells, s) {
        if s in Schedules(k, header, init) {
          var cells :| cells in init && Says(k, header, cells, s);
          assert cells in rows;
        } else {
          assert last in rows && Says(k, header, last, s);
        }
      }
    }
  }

  /** Nothing is fabricated: every schedule repeats the due date, amount and currency of one row of the table
      below its header, with a confidence below the review threshold. */
  lemma FallbackNeverFabricates(k: Reader, h: Header, lines: seq<string>, reason: string)
    ensures forall s :: s in AsList(Field(Fallback(k, h, lines, reason), "schedules")) ==>
      RowsOf(lines) != [] && exists cells :: cells in RowsOf(lines)[1..] && Says(k, Headers(h, RowsOf(lines)[0]), cells, s)
  {
    hide RowsOf, Readable, RowSchedule, Headers, Dashes, Says, Strings;
    var rows := RowsOf(lines);
    if rows != [] && Required(Headers(h, rows[0])) == [] {
      var header, data := Headers(h, rows[0]), DataRows(rows);
      SchedulesComeFromRows(k, header, data);
      forall s | s in Schedules(k, header, data) ensures exists cells :: cells in rows[1..] && Says(k, header, cells, s) {
        var cells :| cells in data && Says(k, header, cells, s);
        var i :| 0 <= i < |data| && data[i] == cells;
        assert cells == rows[1..][if data == rows[1..] then i else i + 1];
      }
    }
  }

  /** A draft read from the table has no evidence of its own, so it is never complete: whatever the adapter's
      locators are, there is nothing to verify. */
  lemma FallbackIsNeverComplete(k: Reader, h: Header, lines: seq<string>, reason: string, available: seq<Locator>)
    ensures EvidenceOf(k, Fallback(k, h, lines, reason), available) == map[]
    ensures var parsed := Fallback(k, h, lines, reason);
            !FullyCovered([], RowCount(parsed), Kept(k, AsList(Field(parsed, "schedules"))))
  {
    hide RowsOf, Schedules, Headers, Dashes, Strings, Kept;
    var parsed := Fallback(k, h, lines, reason);
    assert ProposedEvidence(parsed) == Null;
    assert ResolvedAll(k, available, []) == [] && ByKey([]) == map[];
    var schedules := Kept(k, AsList(Field(parsed, "schedules")));
    KeptAreAcceptable(k, AsList(Field(parsed, "schedules")));
    if FullyCovered([], RowCount(parsed), schedules) {
      FullyCoveredHasEvidence([], RowCount(parsed), schedules);
    }
  }
}
