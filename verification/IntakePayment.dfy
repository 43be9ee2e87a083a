/** The producing side of payment intake: rows are validated, evidence is resolved, and the draft is
    assembled, whatever the model answered. */
module IntakePayment {
  import opened Text
  import opened TextSort
  import opened Wrappers
  import opened IntakeValue
  import opened IntakeEvidence
  import opened IntakeGate

  // ----- rows -----

  function TimingOf(k: Reader, v: Json): Option<Timing> {
    var s := Lower(Trim(ToString(k, v)));
    if s in ["prepaid", "advance", "先付", "期初", "预付"] then Some(Prepaid)
    else if s in ["postpaid", "arrears", "后付", "期末"] then Some(Postpaid)
    else None
  }

  function DueDate(k: Reader, row: Json): string {
    Trim(ToString(k, Field(row, "due_date")))
  }

  predicate Complete(k: Reader, row: Json) {
    DueDate(k, row) != "" && !IsEmpty(Field(row, "amount"))
  }

  function AmountOf(k: Reader, row: Json): Option<real> {
    k.number(Without(ToString(k, Field(row, "amount")), ','))
  }

  // A row that is kept: complete, with a positive readable amount and a known timing.
  predicate Usable(k: Reader, row: Json) {
    Complete(k, row) && AmountOf(k, row).Some? && AmountOf(k, row).value > 0.0 && TimingOf(k, Field(row, "payment_timing")).Some?
  }

  function ScheduleOf(k: Reader, row: Json): Schedule
    requires Usable(k, row)
  {
    var due := DueDate(k, row);
    Schedule(TextOr(k, Field(row, "period_start"), due), TextOr(k, Field(row, "period_end"), due), due,
             AmountOf(k, row).value, TimingOf(k, Field(row, "payment_timing")),
             CoerceBool(k, Field(row, "is_fixed"), true), CoerceBool(k, Field(row, "is_lease_component"), true),
             ToString(k, Field(row, "amount_type")), ToString(k, Field(row, "currency")), Confidence(k, Field(row, "confidence")))
  }

  function Kept(k: Reader, rows: seq<Json>): seq<Schedule> {
    if rows == [] then []
    else
      var last := rows[|rows| - 1];
      Kept(k, rows[..|rows| - 1]) + if Usable(k, last) then [ScheduleOf(k, last)] else []
  }

  function DateWarning(k: Reader, row: Json, i: nat, column: string): seq<Warning> {
    var value := Trim(ToString(k, Field(row, column)));
    if value != "" && |value| != 10 then [DateFormat(i + 1, column, value)] else []
  }

  // What is said about a row; the first fatal defect is the one reported.
  function RowWarnings(k: Reader, row: Json, i: nat): seq<Warning> {
    if !Complete(k, row) then [RowIncomplete(i + 1)]
    else
      DateWarning(k, row, i, "period_start") + DateWarning(k, row, i, "period_end") + DateWarning(k, row, i, "due_date")
      + (if AmountOf(k, row).None? then [AmountUnreadable(i + 1)]
         else if AmountOf(k, row).value <= 0.0 then [AmountNotPositive(i + 1)]
         else if TimingOf(k, Field(row, "payment_timing")).None? then [TimingMissing(i + 1)]
         else [])
  }

  function AllRowWarnings(k: Reader, rows: seq<Json>): seq<Warning> {
    if rows == [] then []
    else AllRowWarnings(k, rows[..|rows| - 1]) + RowWarnings(k, rows[|rows| - 1], |rows| - 1)
  }

  function RowMissing(k: Reader, row: Json): seq<string> {
    if Complete(k, row) && AmountOf(k, row).Some? && AmountOf(k, row).value > 0.0 && TimingOf(k, Field(row, "payment_timing")).None?
    then ["payment_timing"] else []
  }

  function AllRowMissing(k: Reader, rows: seq<Json>): seq<string> {
    if rows == [] then [] else AllRowMissing(k, rows[..|rows| - 1]) + RowMissing(k, rows[|rows| - 1])
  }

  function LowCount(schedules: seq<Schedule>): nat {
    if schedules == [] then 0
    else LowCount(schedules[..|schedules| - 1]) + if schedules[|schedules| - 1].confidence < 0.8 then 1 else 0
  }

  predicate Has(schedules: seq<Schedule>, t: Timing) {
    exists s | s in schedules :: s.timing == Some(t)
  }

  function SummaryWarnings(schedules: seq<Schedule>): seq<Warning> {
    (if LowCount(schedules) > 0 then [LowConfidence(LowCount(schedules))] else [])
    + (if Has(schedules, Prepaid) && Has(schedules, Postpaid) then [MixedTiming] else [])
  }

  function Reports(texts: seq<string>): seq<Warning> {
    if texts == [] then [] else Reports(texts[..|texts| - 1]) + [Reported(texts[|texts| - 1])]
  }

  /** Every kept row satisfies the consumer, except that nothing has looked at its dates. */
  lemma {:induction false} KeptAreAcceptable(k: Reader, rows: seq<Json>)
    ensures forall s :: s in Kept(k, rows) ==>
      s.amount > 0.0 && s.timing.Some? && 0.0 <= s.confidence <= 1.0 && s.dueDate != "" && s.periodStart != "" && s.periodEnd != ""
    ensures |Kept(k, rows)| <= |rows|
    ensures |Kept(k, rows)| == |rows| <==> forall row :: row in rows ==> Usable(k, row)
  {
    hide Usable, ScheduleOf, DueDate, AmountOf, TimingOf, CoerceBool;
    if rows != [] {
      var init, last := rows[..|rows| - 1], rows[|rows| - 1];
      KeptAreAcceptable(k, init);
      assert rows == init + [last];
      UsableRowsAreAcceptable(k, last);
    }
  }

  lemma UsableRowsAreAcceptable(k: Reader, row: Json)
    ensures Usable(k, row) ==>
      var s := ScheduleOf(k, row);
      s.amount > 0.0 && s.timing.Some? && 0.0 <= s.confidence <= 1.0 && s.dueDate != "" && s.periodStart != "" && s.periodEnd != ""
  {
  }

  lemma {:induction false} KeptConcat(k: Reader, a: seq<Json>, b: seq<Json>)
    ensures Kept(k, a + b) == Kept(k, a) + Kept(k, b)
  {
    hide Usable, ScheduleOf;
    if b == [] {
      assert a + b == a;
    } else {
      KeptConcat(k, a, b[..|b| - 1]);
      assert (a + b)[..|a + b| - 1] == a + b[..|b| - 1];
    }
  }

  /** One row among others: it adds its schedule at its place, or nothing. */
  lemma KeptAtItsPlace(k: Reader, before: seq<Json>, row: Json, after: seq<Json>)
    ensures Kept(k, before + [row] + after) == Kept(k, before) + (if Usable(k, row) then [ScheduleOf(k, row)] else []) + Kept(k, after)
  {
    KeptConcat(k, before + [row], after);
    KeptConcat(k, before, [row]);
    assert [row][..0] == [];
    hide Usable, ScheduleOf;
  }

  /** Each row is reported under its number, in order. */
  lemma ReportedUnderItsNumber(k: Reader, before: seq<Json>, row: Json)
    ensures AllRowWarnings(k, before + [row]) == AllRowWarnings(k, before) + RowWarnings(k, row, |before|)
    ensures AllRowMissing(k, before + [row]) == AllRowMissing(k, before) + RowMissing(k, row)
  {
    assert (before + [row])[..|before|] == before;
    hide RowWarnings, RowMissing;
  }

  /** Fewer than 0.8: the schedules the summary counts. */
  lemma {:induction false} LowCounts(schedules: seq<Schedule>)
    ensures LowCount(schedules) == |set i | 0 <= i < |schedules| && schedules[i].confidence < 0.8|
  {
    if schedules != [] {
      var init, n := schedules[..|schedules| - 1], |schedules| - 1;
      LowCounts(init);
      var low, all := set i | 0 <= i < |init| && init[i].confidence < 0.8, set i | 0 <= i < |schedules| && schedules[i].confidence < 0.8;
      assert all == if schedules[n].confidence < 0.8 then low + {n} else low;
    }
  }

  /** The summary: how many confidences are below 0.8, if any, and whether both timings occur. */
  lemma SummaryIff(schedules: seq<Schedule>)
    ensures var low := |set i | 0 <= i < |schedules| && schedules[i].confidence < 0.8|;
            var mixed := (exists s :: s in schedules && s.timing == Some(Prepaid)) && exists s :: s in schedules && s.timing == Some(Postpaid);
            SummaryWarnings(schedules) == (if low > 0 then [LowConfidence(low)] else []) + if mixed then [MixedTiming] else []
  {
    LowCounts(schedules);
  }

  lemma ReportsInOrder(texts: seq<string>, text: string)
    ensures Reports([]) == [] && Reports(texts + [text]) == Reports(texts) + [Reported(text)]
  {
    assert (texts + [text])[..|texts|] == texts;
  }

  /** A row is kept when it has a due date and an amount, the amount without its commas is a positive number, and the
      timing is one of the known words. */
  lemma UsableIff(k: Reader, row: Json)
    ensures var amount := k.number(Without(ToString(k, Field(row, "amount")), ','));
            Usable(k, row) <==>
              && Trim(ToString(k, Field(row, "due_date"))) != "" && !IsEmpty(Field(row, "amount"))
              && amount.Some? && amount.value > 0.0
              && Lower(Trim(ToString(k, Field(row, "payment_timing")))) in
                   {"prepaid", "advance", "先付", "期初", "预付", "postpaid", "arrears", "后付", "期末"}
  {
    hide ToString, Trim, Lower, Without, IsEmpty;
  }

  /** Which column of a kept row feeds what. */
  lemma ColumnsOfSchedule(k: Reader, row: Json)
    requires Usable(k, row)
    ensures var s, due := ScheduleOf(k, row), Trim(ToString(k, Field(row, "due_date")));
            var from, to := Trim(ToString(k, Field(row, "period_start"))), Trim(ToString(k, Field(row, "period_end")));
            && s.dueDate == due && Some(s.amount) == k.number(Without(ToString(k, Field(row, "amount")), ','))
            && s.periodStart == (if from != "" then from else due) && s.periodEnd == (if to != "" then to else due)
            && (s.timing == Some(Prepaid) <==>
                  Lower(Trim(ToString(k, Field(row, "payment_timing")))) in {"prepaid", "advance", "先付", "期初", "预付"})
            && s.isFixed == CoerceBool(k, Field(row, "is_fixed"), true)
            && s.isLeaseComponent == CoerceBool(k, Field(row, "is_lease_component"), true)
            && s.amountType == ToString(k, Field(row, "amount_type")) && s.currency == ToString(k, Field(row, "currency"))
            && s.confidence == Confidence(k, Field(row, "confidence"))
  {
    hide ToString, Trim, Lower, Without, IsEmpty, Confidence, CoerceBool;
  }

  /** What is said about a row, under its number: that it lacks its due date or amount, and then nothing else; or each
      date that does not have ten characters, and the one defect for which it is skipped. */
  lemma RowIsReported(k: Reader, row: Json, i: nat)
    ensures var whole := Trim(ToString(k, Field(row, "due_date"))) != "" && !IsEmpty(Field(row, "amount"));
            var amount := k.number(Without(ToString(k, Field(row, "amount")), ','));
            && (!whole ==> RowWarnings(k, row, i) == [RowIncomplete(i + 1)])
            && (whole ==> forall w :: w in RowWarnings(k, row, i) <==>
                  || BadDate(k, row, "period_start", w, i + 1) || BadDate(k, row, "period_end", w, i + 1)
                  || BadDate(k, row, "due_date", w, i + 1)
                  || (w == AmountUnreadable(i + 1) && amount.None?)
                  || (w == AmountNotPositive(i + 1) && amount.Some? && amount.value <= 0.0)
                  || (w == TimingMissing(i + 1) && amount.Some? && amount.value > 0.0 && !Usable(k, row)))
            && RowMissing(k, row) == if whole && amount.Some? && amount.value > 0.0 && !Usable(k, row) then ["payment_timing"] else []
  {
    hide ToString, Trim, Lower, Without, IsEmpty, TimingOf;
    DatesAreReported(k, row, i);
    hide DateWarning, BadDate;
  }

  predicate BadDate(k: Reader, row: Json, column: string, w: Warning, number: nat) {
    var value := Trim(ToString(k, Field(row, column)));
    value != "" && |value| != 10 && w == DateFormat(number, column, value)
  }

  lemma DatesAreReported(k: Reader, row: Json, i: nat)
    ensures forall column, w :: w in DateWarning(k, row, i, column) <==> BadDate(k, row, column, w, i + 1)
  {
    hide ToString, Trim;
  }

  method ReadRow(k: Reader, row: Json, i: nat) returns (schedule: Option<Schedule>, warnings: seq<Warning>, missing: seq<string>)
    ensures schedule == (if Usable(k, row) then Some(ScheduleOf(k, row)) else None)
    ensures warnings == RowWarnings(k, row, i) && missing == RowMissing(k, row)
  {
    hide DueDate, TimingOf, CoerceBool, TextOr, IsEmpty, DateWarning;
    if DueDate(k, row) == "" || IsEmpty(Field(row, "amount")) {
      return None, [RowIncomplete(i + 1)], [];
    }
    var dates := DateWarning(k, row, i, "period_start") + DateWarning(k, row, i, "period_end") + DateWarning(k, row, i, "due_date");
    var amount := AmountOf(k, row);
    if amount.None? {
      return None, dates + [AmountUnreadable(i + 1)], [];
    }
    if amount.value <= 0.0 {
      return None, dates + [AmountNotPositive(i + 1)], [];
    }
    if TimingOf(k, Field(row, "payment_timing")).None? {
      return None, dates + [TimingMissing(i + 1)], ["payment_timing"];
    }
    return Some(ScheduleOf(k, row)), dates + [], [];
  }

  method ValidateSchedules(k: Reader, parsed: Json) returns (schedules: seq<Schedule>, missing: seq<string>, warnings: seq<Warning>)
    ensures var rows := AsList(Field(parsed, "schedules"));
            && schedules == Kept(k, rows)
            && missing == AsStrings(k, AsList(Field(parsed, "missing_fields"))) + AllRowMissing(k, rows)
            && warnings == Reports(AsStrings(k, AsList(Field(parsed, "warnings")))) + AllRowWarnings(k, rows) + SummaryWarnings(Kept(k, rows))
  {
    hide Usable, RowWarnings, RowMissing, ToString, Field, AsStrings, Reports, SummaryWarnings;
    var rows := AsList(Field(parsed, "schedules"));
    var rowWarnings: seq<Warning>, rowMissing: seq<string> := [], [];
    schedules := [];
    for i := 0 to |rows|
      invariant schedules == Kept(k, rows[..i])
      invariant rowWarnings == AllRowWarnings(k, rows[..i])
      invariant rowMissing == AllRowMissing(k, rows[..i])
    {
      assert rows[..i + 1][..i] == rows[..i];
      var schedule, said, lacks := ReadRow(k, rows[i], i);
      if schedule.Some? {
        schedules := schedules + [schedule.value];
      }
      rowWarnings, rowMissing := rowWarnings + said, rowMissing + lacks;
    }
    assert rows[..|rows|] == rows;
    var summary := Summarize(schedules);
    missing := AsStrings(k, AsList(Field(parsed, "missing_fields"))) + rowMissing;
    warnings := Reports(AsStrings(k, AsList(Field(parsed, "warnings")))) + rowWarnings + summary;
  }

  method Summarize(schedules: seq<Schedule>) returns (warnings: seq<Warning>)
    ensures warnings == SummaryWarnings(schedules)
  {
    var low, prepaid, postpaid := 0, false, false;
    for i := 0 to |schedules|
      invariant low == LowCount(schedules[..i])
      invariant prepaid == Has(schedules[..i], Prepaid) && postpaid == Has(schedules[..i], Postpaid)
    {
      var s := schedules[i];
      assert schedules[..i + 1][..i] == schedules[..i];
      assert schedules[..i + 1] == schedules[..i] + [s];
      if s.confidence < 0.8 {
        low := low + 1;
      }
      prepaid, postpaid := prepaid || s.timing == Some(Prepaid), postpaid || s.timing == Some(Postpaid);
    }
    assert schedules[..|schedules|] == schedules;
    warnings := (if low > 0 then [LowConfidence(low)] else []) + (if prepaid && postpaid then [MixedTiming] else []);
  }

  // ----- evidence fields -----

  datatype Column = PeriodStart | PeriodEnd | DueDateColumn | AmountColumn | TimingColumn | CurrencyColumn

  const COLUMNS := {PeriodStart, PeriodEnd, DueDateColumn, AmountColumn, TimingColumn, CurrencyColumn}

  lemma AllColumns()
    ensures forall c: Column :: c in COLUMNS
  {
    forall c: Column ensures c in COLUMNS {
      match c {
        case PeriodStart =>
        case PeriodEnd =>
        case DueDateColumn =>
        case AmountColumn =>
        case TimingColumn =>
        case CurrencyColumn =>
      }
    }
  }

  function ColumnName(c: Column): string {
    match c
    case PeriodStart => "period_start"
    case PeriodEnd => "period_end"
    case DueDateColumn => "due_date"
    case AmountColumn => "amount"
    case TimingColumn => "payment_timing"
    case CurrencyColumn => "currency"
  }

  predicate Filled(s: Schedule, c: Column) {
    match c
    case PeriodStart => s.periodStart != ""
    case PeriodEnd => s.periodEnd != ""
    case DueDateColumn => s.dueDate != ""
    case AmountColumn => s.amount != 0.0
    case TimingColumn => s.timing.Some?
    case CurrencyColumn => s.currency != ""
  }

  function FieldName(i: nat, c: Column): string {
    RecordName(i) + "." + ColumnName(c)
  }

  /** The evidence fields by name, and when a schedule has them. */
  lemma FieldsByName(i: nat, s: Schedule)
    ensures var record := "schedules[" + Decimal(i) + "]";
            && FieldName(i, PeriodStart) == record + "." + "period_start" && FieldName(i, PeriodEnd) == record + "." + "period_end"
            && FieldName(i, DueDateColumn) == record + "." + "due_date" && FieldName(i, AmountColumn) == record + "." + "amount"
            && FieldName(i, TimingColumn) == record + "." + "payment_timing" && FieldName(i, CurrencyColumn) == record + "." + "currency"
    ensures && (Filled(s, PeriodStart) <==> s.periodStart != "") && (Filled(s, PeriodEnd) <==> s.periodEnd != "")
            && (Filled(s, DueDateColumn) <==> s.dueDate != "") && (Filled(s, AmountColumn) <==> s.amount != 0.0)
            && (Filled(s, TimingColumn) <==> s.timing != None) && (Filled(s, CurrencyColumn) <==> s.currency != "")
  {
    hide Decimal;
  }

  predicate IsField(schedules: seq<Schedule>, f: string, i: nat, c: Column) {
    i < |schedules| && Filled(schedules[i], c) && f == FieldName(i, c)
  }

  /** The names of all filled columns of all schedules, in any order - unless a row was skipped: then none. */
  method EvidenceFields(rowCount: nat, schedules: seq<Schedule>) returns (fields: seq<string>)
    ensures rowCount != |schedules| ==> fields == []
    ensures rowCount == |schedules| ==> forall f :: f in fields <==> exists i: nat, c :: IsField(schedules, f, i, c)
  {
    fields := [];
    if rowCount != |schedules| {
      return;
    }
    hide FieldName, Filled;
    for i := 0 to |schedules|
      invariant forall f :: f in fields <==> exists j: nat, c :: j < i && IsField(schedules, f, j, c)
    {
      var left := COLUMNS;
      while left != {}
        invariant left <= COLUMNS
        invariant forall f :: f in fields <==> exists j: nat, c :: IsField(schedules, f, j, c) && (j < i || (j == i && c !in left))
        decreases left
      {
        var c :| c in left;
        left := left - {c};
        ghost var before := fields;
        if Filled(schedules[i], c) {
          fields := fields + [FieldName(i, c)];
          assert IsField(schedules, FieldName(i, c), i, c);
        }
        assert forall f :: f in fields <==> f in before || IsField(schedules, f, i, c);
      }
      AllColumns();
    }
  }

  // ----- the envelope -----

  datatype Command = Command(fileId: string, objectName: string, contentType: string)

  const REVIEW_THRESHOLD := 0.8

  function ReviewReasons(overall: real, missing: seq<string>, warnings: seq<Warning>, complete: bool): seq<Reason> {
    [AssistModeReason]
    + (if overall < REVIEW_THRESHOLD then [LowConfidenceReason] else [])
    + (if missing != [] then [MissingFieldsReason] else [])
    + (if warnings != [] then [WarningsReason] else [])
    + (if !complete then [EvidenceReason] else [])
  }

  function IntakeMetadata(cmd: Command, scores: map<string, real>, missing: seq<string>, warnings: seq<Warning>,
                          locators: seq<Locator>, complete: bool, missingReason: string): Metadata {
    Metadata(SCHEMA_VERSION, "intake_frozen_payment_schedule", "task_ps_" + cmd.fileId, cmd.fileId, "assist",
             "payment_schedule_draft", "draft_generated", scores, missing, warnings,
             Evidence(cmd.fileId, cmd.objectName, cmd.contentType, locators, complete,
                      if complete then "" else if missingReason == "" then "field_locators_not_produced_by_adapter" else missingReason),
             true, ReviewReasons(if "overall" in scores then scores["overall"] else 0.0, missing, warnings, complete), REVIEW_THRESHOLD)
  }

  /** The envelope of a draft: its identity is the source file's, it is always up for review, and the reasons say why. */
  lemma EnvelopeOfDraft(cmd: Command, scores: map<string, real>, missing: seq<string>, warnings: seq<Warning>,
                        locators: seq<Locator>, complete: bool, missingReason: string)
    requires "overall" in scores
    ensures var m := IntakeMetadata(cmd, scores, missing, warnings, locators, complete, missingReason);
            && m.schemaVersion == "ai-intake.v1" && m.intakeId == "intake_frozen_payment_schedule" && m.taskId == "task_ps_" + cmd.fileId
            && m.mode == "assist" && m.draftType == "payment_schedule_draft" && m.status == "draft_generated"
            && m.fileId == m.evidence.sourceFileId == cmd.fileId
            && m.evidence.objectName == cmd.objectName && m.evidence.contentType == cmd.contentType
            && m.scores == scores && m.missing == missing && m.warnings == warnings
            && m.evidence.locators == locators && m.evidence.complete == complete
            && m.evidence.missingReason == (if complete then "" else if missingReason != "" then missingReason
                                            else "field_locators_not_produced_by_adapter")
            && m.reviewRequired && m.threshold == 0.8 && AssistModeReason in m.reasons
            && (LowConfidenceReason in m.reasons <==> scores["overall"] < 0.8) && (MissingFieldsReason in m.reasons <==> missing != [])
            && (WarningsReason in m.reasons <==> warnings != []) && (EvidenceReason in m.reasons <==> !complete)
  {
  }

  function TotalConfidence(schedules: seq<Schedule>): real {
    if schedules == [] then 0.0 else TotalConfidence(schedules[..|schedules| - 1]) + schedules[|schedules| - 1].confidence
  }

  lemma TotalOfOneMore(schedules: seq<Schedule>, s: Schedule)
    ensures TotalConfidence([]) == 0.0 && TotalConfidence(schedules + [s]) == TotalConfidence(schedules) + s.confidence
  {
    assert (schedules + [s])[..|schedules|] == schedules;
  }

  ghost predicate IsAverage(avg: real, schedules: seq<Schedule>) {
    if schedules == [] then avg == 0.0 else avg * |schedules| as real == TotalConfidence(schedules)
  }

  method Average(schedules: seq<Schedule>) returns (avg: real)
    requires forall s :: s in schedules ==> 0.0 <= s.confidence <= 1.0
    ensures 0.0 <= avg <= 1.0
    ensures IsAverage(avg, schedules)
    ensures if schedules == [] then avg == 0.0 else avg * |schedules| as real == TotalConfidence(schedules)
  {
    if |schedules| == 0 {
      return 0.0;
    }
    var sum := 0.0;
    for i := 0 to |schedules|
      invariant 0.0 <= sum <= i as real && sum == TotalConfidence(schedules[..i])
    {
      assert schedules[..i + 1][..i] == schedules[..i];
      sum := sum + schedules[i].confidence;
    }
    assert schedules[..|schedules|] == schedules;
    avg := sum / |schedules| as real;
    Quotient(sum, |schedules|);
  }

  lemma Quotient(sum: real, n: nat)
    requires n > 0 && 0.0 <= sum <= n as real
    ensures 0.0 <= sum / n as real <= 1.0 && (sum / n as real) * n as real == sum
  {
  }

  // Every emitted column of every schedule, and no row was skipped.
  ghost predicate FullyCovered(locators: seq<Locator>, rowCount: nat, schedules: seq<Schedule>) {
    && rowCount == |schedules| > 0
    && forall i: nat, c :: i < |schedules| && Filled(schedules[i], c) ==> Covered(locators, FieldName(i, c))
  }

  /** Covering every column covers every record the consumer asks for. */
  lemma CoveredColumnsCoverRecords(locators: seq<Locator>, rowCount: nat, schedules: seq<Schedule>)
    requires FullyCovered(locators, rowCount, schedules) && forall s :: s in schedules ==> s.dueDate != ""
    ensures RecordsCovered(locators, |schedules|)
  {
    hide RecordName;
    forall i | 0 <= i < |schedules| ensures RecordCovered(locators, i) {
      assert schedules[i] in schedules && Filled(schedules[i], DueDateColumn);
      var f := FieldName(i, DueDateColumn);
      assert Covered(locators, f);
      var l :| l in locators && l.field != "" && (l.field == f || HasPrefix(l.field, f + "."));
      assert HasPrefix(f, RecordName(i) + ".");
      assert HasPrefix(l.field, f);
    }
  }

  lemma CoveredFieldsAreFull(locators: seq<Locator>, rowCount: nat, schedules: seq<Schedule>, fields: seq<string>)
    requires rowCount != |schedules| ==> fields == []
    requires rowCount == |schedules| ==> forall f :: f in fields <==> exists i: nat, c :: IsField(schedules, f, i, c)
    requires forall s :: s in schedules ==> s.dueDate != ""
    ensures (locators != [] && fields != [] && forall f :: f in fields ==> Covered(locators, f)) <==> FullyCovered(locators, rowCount, schedules)
  {
    hide FieldName;
    if rowCount == |schedules| && schedules != [] {
      assert schedules[0] in schedules && Filled(schedules[0], DueDateColumn);
      assert IsField(schedules, FieldName(0, DueDateColumn), 0, DueDateColumn);
      assert FieldName(0, DueDateColumn) in fields;
      if forall f :: f in fields ==> Covered(locators, f) {
        forall i: nat, c | i < |schedules| && Filled(schedules[i], c) ensures Covered(locators, FieldName(i, c)) {
          assert IsField(schedules, FieldName(i, c), i, c);
        }
      }
    }
    if fields != [] {
      assert fields[0] in fields;
    }
  }

  // The payment rows as the row counter sees them: a single object counts as no list.
  function RowCount(parsed: Json): nat {
    if Field(parsed, "schedules").List? then |Field(parsed, "schedules").items| else 0
  }

  method Verified(k: Reader, parsed: Json, available: seq<Locator>) returns (verified: seq<Locator>)
    ensures forall l :: l in verified ==> Anchored(available, l)
    ensures forall l :: l in verified <==> exists key :: key in EvidenceOf(k, parsed, available) && l == EvidenceOf(k, parsed, available)[key]
  {
    hide Anchored, IntakeEvidence.Evidence;
    var raw := ProposedEvidence(parsed);
    EvidenceIsAnchored(k, raw, available);
    verified := ResolveEvidence(k, raw, available);
    ghost var m := EvidenceOf(k, parsed, available);
    assert m == IntakeEvidence.Evidence(k, raw, available);
    forall l | l in verified ensures Anchored(available, l) {
      var key :| key in m && l == m[key];
    }
  }

  function ProposedEvidence(parsed: Json): Json {
    if parsed.Object? && "evidence" in parsed.fields then parsed.fields["evidence"] else Field(parsed, "evidence_refs")
  }

  function EvidenceOf(k: Reader, parsed: Json, available: seq<Locator>): map<string, Locator> {
    IntakeEvidence.Evidence(k, ProposedEvidence(parsed), available)
  }

  /** The payment rows that are counted, and where the model's evidence is looked for. */
  lemma CountedAndProposed(parsed: Json)
    ensures RowCount(parsed) ==
            if parsed.Object? && "schedules" in parsed.fields && parsed.fields["schedules"].List? then |parsed.fields["schedules"].items| else 0
    ensures ProposedEvidence(parsed) ==
            if parsed.Object? && "evidence" in parsed.fields then parsed.fields["evidence"]
            else if parsed.Object? && "evidence_refs" in parsed.fields then parsed.fields["evidence_refs"] else Null
  {
  }

  lemma AnchoredIsWhole(available: seq<Locator>, l: Locator)
    requires Anchored(available, l) && forall a :: a in available ==> WholeLocator(a)
    ensures WholeLocator(l)
  {
  }

  lemma FullyCoveredHasEvidence(locators: seq<Locator>, rowCount: nat, schedules: seq<Schedule>)
    requires FullyCovered(locators, rowCount, schedules) && forall s :: s in schedules ==> s.dueDate != ""
    ensures locators != []
  {
    assert schedules[0] in schedules && Filled(schedules[0], DueDateColumn);
    assert Covered(locators, FieldName(0, DueDateColumn));
  }

  /** Whatever the model or the table reader answered: the draft passes every check of the consumer except
      those of the dates; its evidence is complete exactly when no row was skipped and every filled column of
      every schedule has a verified locator; and its locators are the verified ones, all anchored in the
      adapter's, or the adapter's own when nothing could be verified. */
  method ProducePayment(k: Reader, cmd: Command, parsed: Json, available: seq<Locator>) returns (d: Draft, verified: seq<Locator>)
    requires cmd.fileId != "" && cmd.objectName != "" && cmd.contentType != ""
    requires forall a :: a in available ==> WholeLocator(a)
    ensures DraftAccepted(k, d) <==> forall s :: s in d.schedules ==> DatesValid(k, s)
    ensures d.schedules == Kept(k, AsList(Field(parsed, "schedules")))
    ensures forall l :: l in verified ==> Anchored(available, l)
    ensures forall l :: l in verified <==> exists key :: key in EvidenceOf(k, parsed, available) && l == EvidenceOf(k, parsed, available)[key]
    ensures d.metadata.evidence.locators == if verified == [] then available else verified
    ensures d.metadata.evidence.complete <==> FullyCovered(verified, RowCount(parsed), d.schedules)
    ensures AssistMode in d.metadata.warnings
    ensures d.metadata == IntakeMetadata(cmd, d.metadata.scores, d.metadata.missing, d.metadata.warnings, d.metadata.evidence.locators,
              d.metadata.evidence.complete,
              if available == [] then "field_locators_not_produced_by_document_adapter" else "field_mapping_not_verified_by_llm")
    ensures d.metadata.scores.Keys == {"overall", "average_item"}
    ensures d.metadata.scores["overall"] == Confidence(k, Field(parsed, "overall_confidence"))
    ensures IsAverage(d.metadata.scores["average_item"], d.schedules)
    ensures forall f :: f in d.metadata.missing <==>
              f != "" && f in AsStrings(k, AsList(Field(parsed, "missing_fields"))) + AllRowMissing(k, AsList(Field(parsed, "schedules")))
    ensures d.metadata.warnings == Reports(AsStrings(k, AsList(Field(parsed, "warnings"))))
              + AllRowWarnings(k, AsList(Field(parsed, "schedules"))) + SummaryWarnings(d.schedules) + [AssistMode]
  {
    hide Kept, AllRowWarnings, AllRowMissing, SummaryWarnings, Reports, AsStrings, RecordName, FieldName, EvidenceOf, Anchored,
      Covered, IntakeMetadata, MetadataAccepted, IsAverage, DraftAccepted, FullyCovered, RecordsCovered, WholeLocator;
    var schedules, missing, warnings := ValidateSchedules(k, parsed);
    KeptAreAcceptable(k, AsList(Field(parsed, "schedules")));
    verified := Verified(k, parsed, available);
    var fields := EvidenceFields(RowCount(parsed), schedules);
    var complete := EvidenceCovers(verified, fields);
    CoveredFieldsAreFull(verified, RowCount(parsed), schedules, fields);
    var locators := if verified == [] then available else verified;
    if complete {
      FullyCoveredHasEvidence(verified, RowCount(parsed), schedules);
      CoveredColumnsCoverRecords(verified, RowCount(parsed), schedules);
    }
    forall l | l in locators ensures WholeLocator(l) {
      if verified != [] {
        AnchoredIsWhole(available, l);
      }
    }
    var reason := if available == [] then "field_locators_not_produced_by_document_adapter" else "field_mapping_not_verified_by_llm";
    var m := Envelope(k, cmd, parsed, schedules, missing, warnings, locators, complete, reason);
    d := Draft(m, schedules);
    AcceptedUpToDates(k, d);
  }

  lemma AcceptedUpToDates(k: Reader, d: Draft)
    requires MetadataAccepted(d.metadata, "payment_schedule_draft")
    requires d.metadata.evidence.complete ==> RecordsCovered(d.metadata.evidence.locators, |d.schedules|)
    requires forall s :: s in d.schedules ==> s.amount > 0.0 && s.timing.Some? && 0.0 <= s.confidence <= 1.0
    ensures DraftAccepted(k, d) <==> forall s :: s in d.schedules ==> DatesValid(k, s)
  {
    hide MetadataAccepted, RecordsCovered, DatesValid;
  }

  /** The envelope: both scores, the missing fields once each, and the warning about the mode behind the others. */
  method Envelope(k: Reader, cmd: Command, parsed: Json, schedules: seq<Schedule>, missing: seq<string>, warnings: seq<Warning>,
                  locators: seq<Locator>, complete: bool, reason: string)
    returns (m: Metadata)
    requires cmd.fileId != "" && cmd.objectName != "" && cmd.contentType != ""
    requires forall s :: s in schedules ==> 0.0 <= s.confidence <= 1.0
    requires (complete ==> locators != []) && forall l :: l in locators ==> WholeLocator(l)
    ensures MetadataAccepted(m, "payment_schedule_draft")
    ensures m == IntakeMetadata(cmd, m.scores, m.missing, m.warnings, locators, complete, reason)
    ensures m.evidence.locators == locators && m.evidence.complete == complete && m.warnings == warnings + [AssistMode]
    ensures m.scores.Keys == {"overall", "average_item"} && m.scores["overall"] == Confidence(k, Field(parsed, "overall_confidence"))
    ensures IsAverage(m.scores["average_item"], schedules)
    ensures forall f :: f in m.missing <==> f != "" && f in missing
  {
    hide IntakeMetadata, MetadataAccepted, WholeLocator, IsAverage;
    var avg := Average(schedules);
    var unique := SortedUnique(missing);
    var overall := Confidence(k, Field(parsed, "overall_confidence"));
    m := IntakeMetadata(cmd, map["overall" := overall, "average_item" := avg], unique, warnings + [AssistMode], locators, complete, reason);
    MetadataIsAccepted(cmd, overall, avg, unique, warnings + [AssistMode], locators, complete, reason);
    EnvelopeOfDraft(cmd, map["overall" := overall, "average_item" := avg], unique, warnings + [AssistMode], locators, complete, reason);
  }

  lemma MetadataIsAccepted(cmd: Command, overall: real, avg: real, missing: seq<string>, warnings: seq<Warning>,
                           locators: seq<Locator>, complete: bool, reason: string)
    requires cmd.fileId != "" && cmd.objectName != "" && cmd.contentType != ""
    requires 0.0 <= overall <= 1.0 && 0.0 <= avg <= 1.0
    requires (complete ==> locators != []) && forall l :: l in locators ==> WholeLocator(l)
    ensures var m := IntakeMetadata(cmd, map["overall" := overall, "average_item" := avg], missing, warnings, locators, complete, reason);
            && MetadataAccepted(m, "payment_schedule_draft")
            && m.evidence.complete == complete && m.evidence.locators == locators && m.warnings == warnings
  {
  }

  /** A draft is rejected for its metadata exactly when the source's identity is missing: the producer itself
      never makes it wrong. */
  lemma MetadataAcceptedIffIdentified(cmd: Command, overall: real, avg: real, missing: seq<string>, warnings: seq<Warning>,
                                      locators: seq<Locator>, complete: bool, reason: string)
    requires 0.0 <= overall <= 1.0 && 0.0 <= avg <= 1.0
    requires complete ==> locators != []
    ensures MetadataAccepted(IntakeMetadata(cmd, map["overall" := overall, "average_item" := avg], missing, warnings, locators, complete, reason),
                             "payment_schedule_draft")
       <==> cmd.fileId != "" && cmd.objectName != "" && cmd.contentType != "" && forall l :: l in locators ==> WholeLocator(l)
  {
    if cmd.fileId != "" && cmd.objectName != "" && cmd.contentType != "" && forall l :: l in locators ==> WholeLocator(l) {
      MetadataIsAccepted(cmd, overall, avg, missing, warnings, locators, complete, reason);
    }
  }
}
