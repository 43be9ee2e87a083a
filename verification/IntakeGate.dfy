/** The core side of payment intake: what it demands of a draft before anything is built from it. */
module IntakeGate {
  import opened Text
  import opened Wrappers
  import opened IntakeValue
  import opened IntakeEvidence

  datatype Timing = Prepaid | Postpaid

  datatype Schedule = Schedule(
    periodStart: string, periodEnd: string, dueDate: string, amount: real, timing: Option<Timing>,
    isFixed: bool, isLeaseComponent: bool, amountType: string, currency: string, confidence: real)

  // file, row: what a message is about. Reported carries the model's own warnings.
  datatype Warning =
    | RowIncomplete(row: nat) | DateFormat(row: nat, column: string, value: string) | AmountUnreadable(row: nat)
    | AmountNotPositive(row: nat) | TimingMissing(row: nat) | LowConfidence(count: nat) | MixedTiming
    | Reported(text: string) | AssistMode

  datatype Reason = AssistModeReason | LowConfidenceReason | MissingFieldsReason | WarningsReason | EvidenceReason

  datatype Evidence = Evidence(
    sourceFileId: string, objectName: string, contentType: string, locators: seq<Locator>, complete: bool, missingReason: string)

  datatype Metadata = Metadata(
    schemaVersion: string, intakeId: string, taskId: string, fileId: string, mode: string, draftType: string, status: string,
    scores: map<string, real>, missing: seq<string>, warnings: seq<Warning>, evidence: Evidence,
    reviewRequired: bool, reasons: seq<Reason>, threshold: real)

  datatype Draft = Draft(metadata: Metadata, schedules: seq<Schedule>)

  const SCHEMA_VERSION := "ai-intake.v1"

  predicate WholeLocator(l: Locator) {
    l.field != "" && l.source != "" && l.quote != ""
  }

  predicate MetadataAccepted(m: Metadata, draftType: string) {
    && m.schemaVersion == SCHEMA_VERSION
    && m.intakeId != "" && m.taskId != "" && m.fileId != ""
    && m.mode == "assist" && m.draftType == draftType && m.status == "draft_generated"
    && m.evidence.sourceFileId == m.fileId
    && m.evidence.objectName != "" && m.evidence.contentType != ""
    && (m.evidence.complete ==> m.evidence.locators != [])
    && (!m.evidence.complete ==> m.evidence.missingReason != "")
    && (forall l | l in m.evidence.locators :: WholeLocator(l))
    && m.reviewRequired && AssistModeReason in m.reasons
    && 0.0 < m.threshold <= 1.0
    && "overall" in m.scores
    && forall name | name in m.scores :: 0.0 <= m.scores[name] <= 1.0
  }

  function RecordName(i: nat): string {
    "schedules[" + Decimal(i) + "]"
  }

  predicate RecordCovered(locators: seq<Locator>, i: nat) {
    exists l | l in locators :: l.field == RecordName(i) || HasPrefix(l.field, RecordName(i) + ".")
  }

  // Complete evidence has to cover every record.
  predicate RecordsCovered(locators: seq<Locator>, count: nat) {
    forall i | 0 <= i < count :: RecordCovered(locators, i)
  }

  predicate DatesValid(k: Reader, s: Schedule) {
    k.date(s.periodStart) && k.date(s.periodEnd) && k.date(s.dueDate)
  }

  predicate ScheduleAccepted(k: Reader, s: Schedule) {
    s.amount > 0.0 && s.timing.Some? && DatesValid(k, s) && 0.0 <= s.confidence <= 1.0
  }

  /** What the consumer demands of a payment draft's metadata. */
  lemma MetadataAcceptedIff(m: Metadata, draftType: string)
    ensures MetadataAccepted(m, draftType) <==>
              && m.schemaVersion == "ai-intake.v1" && m.mode == "assist" && m.status == "draft_generated" && m.draftType == draftType
              && "" !in {m.intakeId, m.taskId, m.fileId, m.evidence.objectName, m.evidence.contentType}
              && m.evidence.sourceFileId == m.fileId
              && (if m.evidence.complete then m.evidence.locators != [] else m.evidence.missingReason != "")
              && (forall l :: l in m.evidence.locators ==> "" !in {l.field, l.source, l.quote})
              && m.reviewRequired && AssistModeReason in m.reasons && 0.0 < m.threshold <= 1.0
              && "overall" in m.scores && forall name :: name in m.scores ==> 0.0 <= m.scores[name] <= 1.0
  {
  }

  /** A record is covered by a locator for it, or for a field behind its name and a dot. */
  lemma RecordCoveredIff(locators: seq<Locator>, i: nat)
    ensures var record := "schedules[" + Decimal(i) + "]";
            RecordCovered(locators, i) <==> exists l :: l in locators && (l.field == record || record + "." <= l.field)
  {
  }

  /** A payment draft is taken when its metadata is, when complete evidence covers every schedule by its number, and
      when each schedule has a positive amount, a timing, three readable dates and a confidence between 0 and 1. */
  lemma DraftAcceptedIff(k: Reader, d: Draft)
    ensures DraftAccepted(k, d) <==>
              && MetadataAccepted(d.metadata, "payment_schedule_draft")
              && (d.metadata.evidence.complete ==>
                    forall i: nat :: i < |d.schedules| ==> RecordCovered(d.metadata.evidence.locators, i))
              && forall s :: s in d.schedules ==>
                   s.amount > 0.0 && s.timing != None && k.date(s.periodStart) && k.date(s.periodEnd) && k.date(s.dueDate)
                   && 0.0 <= s.confidence <= 1.0
  {
    hide MetadataAccepted, RecordCovered;
  }

  predicate DraftAccepted(k: Reader, d: Draft) {
    && MetadataAccepted(d.metadata, "payment_schedule_draft")
    && (d.metadata.evidence.complete ==> RecordsCovered(d.metadata.evidence.locators, |d.schedules|))
    && forall s | s in d.schedules :: ScheduleAccepted(k, s)
  }
}
