/** Concrete runs of the revocation protocol: what the exact conditions of RevocationProtocol leave open
    does happen. */
module RevocationRuns {
  import opened Wrappers
  import opened AccessScope
  import opened Capability
  import opened RevocationProtocol
  import G = GrantStore
  import T = Text

  const CLAIMS := Claims("aud", "t", "u", "", "r", 0, SECOND, Scope.Scope(true, "", [], [], [], [], [], []), ["p"], ["tool"])

  const UNMARKED := Local(map[], map[], map[], map[])

  function MarkedAt(time: int): Local {
    UNMARKED.(runs := map["r" := time])
  }

  const ROW := G.Row("r", "u", SECOND, None)

  function TheParse(startedAt: int, phase: Phase): RevocationProtocol.Parse {
    RevocationProtocol.Parse(0, CLAIMS, startedAt, phase)
  }

  // Two instances, each with tokens of one second; the only token has been registered.
  function Known(now: int, locals: seq<Local>, table: G.Table, parses: seq<RevocationProtocol.Parse>, revocations: seq<Revocation>): World {
    World(now, [SECOND, SECOND], locals, table, map["t" := Signed(CLAIMS, SECOND)], {"t"}, parses, revocations)
  }

  // Nothing has happened yet, and the token has been signed.
  const EMPTY := World(0, [SECOND, SECOND], [UNMARKED, UNMARKED], map[], map[], {}, [], [])
  const SIGNED := EMPTY.(signed := map["t" := Signed(CLAIMS, SECOND)])

  const ISSUED: seq<Step> := [Sign(0, CLAIMS, SECOND), Register("t")]

  lemma Names()
    ensures T.Trim("t") == "t" && T.Trim("u") == "u" && T.Trim("r") == "r" && T.Trim("") == ""
  {
  }

  lemma TokenIsSigned()
    ensures Next(EMPTY, ISSUED[0], SIGNED)
  {
    Names();
    hide T.Trim;
    assert NumericDate(0) == 0 && NumericDate(SECOND) == SECOND;
  }

  lemma TokenIsRegistered()
    ensures Next(SIGNED, ISSUED[1], Known(0, NONE_MARKED, map["t" := ROW], [], []))
  {
    Names();
    hide T.Trim;
  }

  // ----- a parse that stalls across expiry and cleanup -----

  const OTHER_MARKED: seq<Local> := [UNMARKED, MarkedAt(0)]
  const NONE_MARKED: seq<Local> := [UNMARKED, UNMARKED]

  function OtherRevokes(stage: Stage): seq<Revocation> {
    [Revocation(1, OfRun("r"), "", 0, stage)]
  }

  // Instance 0 parses the token and stops before the lookup; instance 1 revokes the run; time passes until the
  // row has expired and is deleted; then the lookup finds nothing.
  const STALLED_STEPS: seq<Step> := ISSUED +
    [StartParse(0, CLAIMS), ReadClock(0), CheckLocally(0),
     Mark(1, OfRun("r")), TimeRevocation(0), StoreRevocation(0),
     Tick(SECOND), Cleanup(SECOND), LookUp(0)]

  const STALLED_WORLDS: seq<World> :=
    [EMPTY, SIGNED, Known(0, NONE_MARKED, map["t" := ROW], [], [])] +
    [Known(0, NONE_MARKED, map["t" := ROW], [TheParse(0, DatesChecked)], []),
     Known(0, NONE_MARKED, map["t" := ROW], [TheParse(0, ClockRead(0))], []),
     Known(0, NONE_MARKED, map["t" := ROW], [TheParse(0, LocallyChecked(0))], []),
     Known(0, OTHER_MARKED, map["t" := ROW], [TheParse(0, LocallyChecked(0))], OtherRevokes(Marked)),
     Known(0, OTHER_MARKED, map["t" := ROW], [TheParse(0, LocallyChecked(0))], OtherRevokes(Timed(SECOND))),
     Known(0, OTHER_MARKED, map["t" := ROW.(revokedAt := Some(0))], [TheParse(0, LocallyChecked(0))], OtherRevokes(Sent)),
     Known(SECOND, OTHER_MARKED, map["t" := ROW.(revokedAt := Some(0))], [TheParse(0, LocallyChecked(0))], OtherRevokes(Sent)),
     Known(SECOND, OTHER_MARKED, map[], [TheParse(0, LocallyChecked(0))], OtherRevokes(Sent)),
     Known(SECOND, OTHER_MARKED, map[], [TheParse(0, Accepted(SECOND))], OtherRevokes(Sent))]

  lemma ParseStarts(locals: seq<Local>, now: int)
    requires |locals| == 2 && 0 <= now < SECOND
    ensures Next(Known(now, locals, map["t" := ROW], [], []), StartParse(0, CLAIMS),
                 Known(now, locals, map["t" := ROW], [TheParse(now, DatesChecked)], []))
  {
    var w := Known(now, locals, map["t" := ROW], [], []);
    assert w.parses + [TheParse(now, DatesChecked)] == [TheParse(now, DatesChecked)];
  }

  lemma ParseReadsClock(w: World, startedAt: int)
    requires |w.locals| == 2 && w.parses == [TheParse(startedAt, DatesChecked)]
    ensures Next(w, ReadClock(0), w.(parses := [TheParse(startedAt, ClockRead(w.now))]))
  {
    assert w.parses[0 := TheParse(startedAt, ClockRead(w.now))] == [TheParse(startedAt, ClockRead(w.now))];
  }

  lemma ParsePassesOwnCheck(w: World, startedAt: int, now: int)
    requires |w.locals| == 2 && w.parses == [TheParse(startedAt, ClockRead(now))]
    requires w.locals[0] == UNMARKED || exists at :: now < at && w.locals[0] == MarkedAt(at)
    ensures Next(w, CheckLocally(0), w.(parses := [TheParse(startedAt, LocallyChecked(now))]))
  {
    assert PassesOwnCheck(w, 0);
    assert w.parses[0 := TheParse(startedAt, LocallyChecked(now))] == [TheParse(startedAt, LocallyChecked(now))];
  }

  lemma ParsePassesLookUp(w: World, startedAt: int, now: int)
    requires |w.locals| == 2 && w.parses == [TheParse(startedAt, LocallyChecked(now))]
    requires w.table == map[] || (w.table == map["t" := ROW] && now < SECOND)
    ensures Next(w, LookUp(0), w.(parses := [TheParse(startedAt, Accepted(w.now))]))
  {
    assert PassesLookUp(w, 0);
    assert w.parses[0 := TheParse(startedAt, Accepted(w.now))] == [TheParse(startedAt, Accepted(w.now))];
  }

  lemma RunIsMarked(w: World, i: nat)
    requires i < |w.locals| == 2 && w.locals[i].owners == map[] && w.locals[i].runOwners == map[]
    requires !ReadLocked(w, i)
    ensures Next(w, Mark(i, OfRun("r")),
                 w.(locals := w.locals[i := w.locals[i].(runs := w.locals[i].runs["r" := w.now])],
                    revocations := w.revocations + [Revocation(i, OfRun("r"), "", w.now, Marked)]))
  {
    Names();
    hide T.Trim;
  }

  lemma OtherRevocationIsStored(w: World)
    requires w.table == map["t" := ROW] && w.now == 0 && w.revocations == OtherRevokes(Timed(SECOND))
    ensures Next(w, StoreRevocation(0), w.(table := map["t" := ROW.(revokedAt := Some(0))], revocations := OtherRevokes(Sent)))
  {
    Names();
    hide T.Trim;
    assert G.RunRevoked(w.table, "r", "", SECOND, 0) == map["t" := ROW.(revokedAt := Some(0))];
    assert w.revocations[0 := w.revocations[0].(stage := Sent)] == OtherRevokes(Sent);
  }

  lemma OtherRevocationIsTimed(w: World)
    requires w.now == 0 && w.ttls == [SECOND, SECOND] && w.revocations == OtherRevokes(Marked)
    ensures Next(w, TimeRevocation(0), w.(revocations := OtherRevokes(Timed(SECOND))))
  {
    assert w.revocations[0 := w.revocations[0].(stage := Timed(SECOND))] == OtherRevokes(Timed(SECOND));
  }

  lemma StalledUntilChecked(i: nat)
    requires i < 5
    ensures Next(STALLED_WORLDS[i], STALLED_STEPS[i], STALLED_WORLDS[i + 1])
  {
    hide Next;
    match i
    case 0 => TokenIsSigned();
    case 1 => TokenIsRegistered();
    case 2 => ParseStarts(NONE_MARKED, 0);
    case 3 => ParseReadsClock(STALLED_WORLDS[3], 0);
    case _ => ParsePassesOwnCheck(STALLED_WORLDS[4], 0, 0);
  }

  lemma StalledRevocation(i: nat)
    requires 5 <= i < 8
    ensures Next(STALLED_WORLDS[i], STALLED_STEPS[i], STALLED_WORLDS[i + 1])
  {
    assert !ReadLocked(STALLED_WORLDS[5], 1);
    RunIsMarked(STALLED_WORLDS[5], 1);
    OtherRevocationIsTimed(STALLED_WORLDS[6]);
    OtherRevocationIsStored(STALLED_WORLDS[7]);
    hide Next, ReadLocked;
    assert NONE_MARKED[1 := MarkedAt(0)] == OTHER_MARKED;
    assert map[]["r" := 0] == map["r" := 0];
  }

  lemma StalledCleanup(i: nat)
    requires 8 <= i < 11
    ensures Next(STALLED_WORLDS[i], STALLED_STEPS[i], STALLED_WORLDS[i + 1])
  {
    assert G.Cleaned(map["t" := ROW.(revokedAt := Some(0))], SECOND) == map[];
    ParsePassesLookUp(STALLED_WORLDS[10], 0, 0);
  }

  /** One instance's parse checks the maps and stops; another instance revokes the run in the table; the row
      expires and is deleted; the lookup then lets the revoked token through, at exactly the earliest time that
      RevokedTokenAcceptedIff leaves open. */
  lemma StalledParseIsAccepted()
    ensures RevokedAt(STALLED_WORLDS, STALLED_STEPS, 7, CLAIMS) && CLAIMS.id in STALLED_WORLDS[7].table
    ensures STALLED_WORLDS[10].parses == [TheParse(0, LocallyChecked(0))] && STALLED_WORLDS[11].parses == [TheParse(0, Accepted(SECOND))]
    ensures STALLED_WORLDS[11].now == STALLED_WORLDS[7].revocations[0].markedAt + STALLED_WORLDS[7].ttls[1]
  {
    hide Next;
    forall i | 0 <= i < |STALLED_STEPS| ensures Next(STALLED_WORLDS[i], STALLED_STEPS[i], STALLED_WORLDS[i + 1]) {
      if i < 5 {
        StalledUntilChecked(i);
      } else if i < 8 {
        StalledRevocation(i);
      } else {
        StalledCleanup(i);
      }
    }
  }

  // ----- a parse that reads its clock before the mark -----

  function OwnMark(time: int): Revocation {
    Revocation(0, OfRun("r"), "", time, Marked)
  }

  // The instance that parses marks the run between the parse's clock reading and its lock, and its statement never
  // reaches the table.
  const STALE_STEPS: seq<Step> := ISSUED +
    [StartParse(0, CLAIMS), ReadClock(0), Tick(1), Mark(0, OfRun("r")), CheckLocally(0), LookUp(0)]

  const STALE_WORLDS: seq<World> :=
    [EMPTY, SIGNED, Known(0, NONE_MARKED, map["t" := ROW], [], [])] +
    [Known(0, NONE_MARKED, map["t" := ROW], [TheParse(0, DatesChecked)], []),
     Known(0, NONE_MARKED, map["t" := ROW], [TheParse(0, ClockRead(0))], []),
     Known(1, NONE_MARKED, map["t" := ROW], [TheParse(0, ClockRead(0))], []),
     Known(1, [MarkedAt(1), UNMARKED], map["t" := ROW], [TheParse(0, ClockRead(0))], [OwnMark(1)]),
     Known(1, [MarkedAt(1), UNMARKED], map["t" := ROW], [TheParse(0, LocallyChecked(0))], [OwnMark(1)]),
     Known(1, [MarkedAt(1), UNMARKED], map["t" := ROW], [TheParse(0, Accepted(1))], [OwnMark(1)])]

  lemma TimePasses(w: World, to: int)
    requires w.now <= to
    ensures Next(w, Tick(to), w.(now := to))
  {
  }

  lemma StaleUntilMarked(i: nat)
    requires 2 <= i < 6
    ensures Next(STALE_WORLDS[i], STALE_STEPS[i], STALE_WORLDS[i + 1])
  {
    hide Next;
    match i
    case 2 => ParseStarts(NONE_MARKED, 0);
    case 3 => ParseReadsClock(STALE_WORLDS[3], 0);
    case 4 => TimePasses(STALE_WORLDS[4], 1);
    case _ => LateMark();
  }

  lemma LateMark()
    ensures Next(STALE_WORLDS[5], STALE_STEPS[5], STALE_WORLDS[6])
  {
    assert !ReadLocked(STALE_WORLDS[5], 0);
    hide Next, ReadLocked;
    RunIsMarked(STALE_WORLDS[5], 0);
    assert [UNMARKED, UNMARKED][0 := MarkedAt(1)] == [MarkedAt(1), UNMARKED] && map[]["r" := 1] == map["r" := 1];
  }

  lemma StaleAndAccepted(i: nat)
    requires 6 <= i < |STALE_STEPS|
    ensures Next(STALE_WORLDS[i], STALE_STEPS[i], STALE_WORLDS[i + 1])
  {
    hide Next;
    ParsePassesOwnCheck(STALE_WORLDS[6], 0, 0);
    ParsePassesLookUp(STALE_WORLDS[7], 0, 0);
  }

  /** A parse that read its clock before the mark is accepted by the marking instance itself, after the mark. */
  lemma StaleClockIsAccepted()
    ensures LastMark(STALE_WORLDS, STALE_STEPS, 5, 8, 0, "r")
    ensures STALE_WORLDS[6].parses == [TheParse(0, ClockRead(0))] && STALE_WORLDS[8].parses == [TheParse(0, Accepted(1))]
  {
    TokenIsSigned();
    TokenIsRegistered();
    hide Next;
    forall i | 0 <= i < |STALE_STEPS| ensures Next(STALE_WORLDS[i], STALE_STEPS[i], STALE_WORLDS[i + 1]) {
      if 2 <= i < 6 {
        StaleUntilMarked(i);
      } else if i >= 6 {
        StaleAndAccepted(i);
      }
    }
  }

  // The run is already marked when the parse starts, and is marked again while the parse waits for the lock.
  const REMARKED_STEPS: seq<Step> := ISSUED +
    [Mark(0, OfRun("r")), Tick(1), StartParse(0, CLAIMS), ReadClock(0), Tick(2), Mark(0, OfRun("r")), CheckLocally(0), LookUp(0)]

  const REMARKED_WORLDS: seq<World> :=
    [EMPTY, SIGNED, Known(0, NONE_MARKED, map["t" := ROW], [], [])] +
    [Known(0, [MarkedAt(0), UNMARKED], map["t" := ROW], [], [OwnMark(0)]),
     Known(1, [MarkedAt(0), UNMARKED], map["t" := ROW], [], [OwnMark(0)]),
     Known(1, [MarkedAt(0), UNMARKED], map["t" := ROW], [TheParse(1, DatesChecked)], [OwnMark(0)]),
     Known(1, [MarkedAt(0), UNMARKED], map["t" := ROW], [TheParse(1, ClockRead(1))], [OwnMark(0)]),
     Known(2, [MarkedAt(0), UNMARKED], map["t" := ROW], [TheParse(1, ClockRead(1))], [OwnMark(0)]),
     Known(2, [MarkedAt(2), UNMARKED], map["t" := ROW], [TheParse(1, ClockRead(1))], [OwnMark(0), OwnMark(2)]),
     Known(2, [MarkedAt(2), UNMARKED], map["t" := ROW], [TheParse(1, LocallyChecked(1))], [OwnMark(0), OwnMark(2)]),
     Known(2, [MarkedAt(2), UNMARKED], map["t" := ROW], [TheParse(1, Accepted(2))], [OwnMark(0), OwnMark(2)])]

  lemma RemarkedUntilParsed(i: nat)
    requires 2 <= i < 6
    ensures Next(REMARKED_WORLDS[i], REMARKED_STEPS[i], REMARKED_WORLDS[i + 1])
  {
    hide Next;
    match i
    case 2 => FirstMark();
    case 3 => TimePasses(REMARKED_WORLDS[3], 1);
    case 4 => MarkedParseStarts();
    case _ => ParseReadsClock(REMARKED_WORLDS[5], 1);
  }

  lemma FirstMark()
    ensures Next(REMARKED_WORLDS[2], REMARKED_STEPS[2], REMARKED_WORLDS[3])
  {
    assert !ReadLocked(REMARKED_WORLDS[2], 0);
    hide Next, ReadLocked;
    RunIsMarked(REMARKED_WORLDS[2], 0);
    assert [UNMARKED, UNMARKED][0 := MarkedAt(0)] == [MarkedAt(0), UNMARKED] && map[]["r" := 0] == map["r" := 0];
  }

  lemma SecondMark()
    ensures Next(REMARKED_WORLDS[7], REMARKED_STEPS[7], REMARKED_WORLDS[8])
  {
    assert !ReadLocked(REMARKED_WORLDS[7], 0);
    hide Next, ReadLocked;
    RunIsMarked(REMARKED_WORLDS[7], 0);
    assert [MarkedAt(0), UNMARKED][0 := MarkedAt(2)] == [MarkedAt(2), UNMARKED] && map["r" := 0]["r" := 2] == map["r" := 2];
  }

  lemma MarkedParseStarts()
    ensures Next(REMARKED_WORLDS[4], REMARKED_STEPS[4], REMARKED_WORLDS[5])
  {
    assert REMARKED_WORLDS[4].parses + [TheParse(1, DatesChecked)] == [TheParse(1, DatesChecked)];
  }

  lemma RemarkedAndAccepted(i: nat)
    requires 6 <= i < |REMARKED_STEPS|
    ensures Next(REMARKED_WORLDS[i], REMARKED_STEPS[i], REMARKED_WORLDS[i + 1])
  {
    hide Next;
    match i
    case 6 => TimePasses(REMARKED_WORLDS[6], 2);
    case 7 => SecondMark();
    case 8 => ParsePassesOwnCheck(REMARKED_WORLDS[8], 1, 1);
    case _ => ParsePassesLookUp(REMARKED_WORLDS[9], 1, 1);
  }

  /** Marking a run again moves the mark forward: a parse that started after the first mark is accepted. */
  lemma SecondMarkReopensRun()
    ensures LastMark(REMARKED_WORLDS, REMARKED_STEPS, 7, 10, 0, "r") && MarksRun(REMARKED_STEPS[2], 0, "r")
    ensures REMARKED_STEPS[4] == StartParse(0, CLAIMS) && REMARKED_WORLDS[10].parses == [TheParse(1, Accepted(2))]
  {
    TokenIsSigned();
    TokenIsRegistered();
    hide Next;
    forall i | 0 <= i < |REMARKED_STEPS| ensures Next(REMARKED_WORLDS[i], REMARKED_STEPS[i], REMARKED_WORLDS[i + 1]) {
      if 2 <= i < 6 {
        RemarkedUntilParsed(i);
      } else if i >= 6 {
        RemarkedAndAccepted(i);
      }
    }
  }
}
