/** Several issuers over one grants table: every interleaving of issuing, registering, revoking, cleaning
    up and parsing. Each clock reading, each hold of an instance's lock and each SQL statement is a step of
    its own. */
module RevocationProtocol {
  import opened Text
  import opened Wrappers
  import opened Capability
  import G = GrantStore
  import AccessScope

  // A parse reads the clock for the JWT dates, reads it again, takes the read lock for the local maps and
  // keeps it while it asks the table.
  datatype Phase = DatesChecked | ClockRead(now: int) | LocallyChecked(now: int) | Accepted(at: int) | Refused

  datatype Parse = Parse(issuer: nat, claims: Claims, startedAt: int, phase: Phase)

  datatype Target = OfToken(id: string) | OfRun(runId: string)

  // A revocation marks its target and reads the owner under the lock, reads the clock again for the row's
  // new expiry, and then sends its statement - which may never arrive.
  datatype Stage = Marked | Timed(expiresAt: int) | Sent

  datatype Revocation = Revocation(issuer: nat, target: Target, owner: string, markedAt: int, stage: Stage)

  // Signed claims, and the expiry that goes to the table with them.
  datatype Signed = Signed(claims: Claims, expiry: int)

  datatype World = World(
    now: int,
    ttls: seq<Lifespan>,  // of the instances
    locals: seq<Local>,
    table: G.Table,
    signed: map<string, Signed>,  // by token id
    registered: set<string>,
    parses: seq<Parse>,
    revocations: seq<Revocation>)

  datatype Step =
    | Tick(to: int)
    | Sign(issuer: nat, claims: Claims, expiry: int)
    | Register(id: string)
    | NoteOwner(issuer: nat, id: string)
    | Mark(issuer: nat, target: Target)
    | TimeRevocation(revocation: nat)
    | StoreRevocation(revocation: nat)
    | Cleanup(before: int)
    | StartParse(issuer: nat, claims: Claims)
    | ReadClock(parse: nat)
    | CheckLocally(parse: nat)
    | LookUp(parse: nat)
    | FailLookUp(parse: nat)

  ghost predicate Init(w: World) {
    && w.table == map[] && w.signed == map[] && w.registered == {} && w.parses == [] && w.revocations == []
    && |w.ttls| == |w.locals|
    && forall i :: 0 <= i < |w.locals| ==> w.locals[i] == Local(map[], map[], map[], map[])
  }

  // What Issue guarantees of the identities in a token.
  predicate WellFormed(c: Claims) {
    && Trimmed(c.id) && Trimmed(c.userId) && Trimmed(c.runId) && c.id != "" && c.userId != "" && c.runId != ""
  }

  predicate IsSigned(w: World, c: Claims) {
    c.id in w.signed && w.signed[c.id].claims == c
  }

  predicate InParse(w: World, k: nat) {
    k < |w.parses| && w.parses[k].issuer < |w.locals|
  }

  // A parse of the instance holds the read lock, so nothing is written to its maps.
  predicate ReadLocked(w: World, i: nat) {
    exists k :: 0 <= k < |w.parses| && w.parses[k].issuer == i && w.parses[k].phase.LocallyChecked?
  }

  function OwnerOf(l: Local, t: Target): string {
    match t
    case OfToken(id) => if id in l.owners then l.owners[id] else ""
    case OfRun(r) => if r in l.runOwners then l.runOwners[r] else ""
  }

  function WithMark(l: Local, t: Target, now: int): Local {
    match t
    case OfToken(id) => l.(byJti := l.byJti[id := now])
    case OfRun(r) => l.(runs := l.runs[r := now])
  }

  predicate Named(t: Target) {
    match t
    case OfToken(id) => Trimmed(id) && id != ""
    case OfRun(r) => Trimmed(r) && r != ""
  }

  // The statement a revocation sends.
  function Revoked(t: G.Table, r: Revocation, now: int): G.Table
    requires r.stage.Timed?
  {
    match r.target
    case OfToken(id) => G.TokenRevoked(t, id, r.owner, r.stage.expiresAt, now)
    case OfRun(run) => G.RunRevoked(t, run, r.owner, r.stage.expiresAt, now)
  }

  // The local maps let the parse pass, for the clock it has read.
  predicate PassesOwnCheck(w: World, k: nat)
    requires InParse(w, k) && w.parses[k].phase.ClockRead?
  {
    !RevokedLocally(w.locals[w.parses[k].issuer], w.parses[k].claims, w.parses[k].phase.now)
  }

  // The table lets the parse pass, for the same reading.
  predicate PassesLookUp(w: World, k: nat)
    requires k < |w.parses| && w.parses[k].phase.LocallyChecked?
  {
    !G.IsRevoked(w.table, w.parses[k].claims.id, w.parses[k].claims.runId, w.parses[k].phase.now)
  }

  function At(w: World, k: nat, p: Phase): World
    requires k < |w.parses|
  {
    w.(parses := w.parses[k := w.parses[k].(phase := p)])
  }

  function Staged(w: World, j: nat, s: Stage): World
    requires j < |w.revocations|
  {
    w.(revocations := w.revocations[j := w.revocations[j].(stage := s)])
  }

  ghost predicate Next(w: World, s: Step, w': World) {
    match s
    case Tick(to) => w.now <= to && w' == w.(now := to)
    case Sign(i, c, expiry) =>
      && i < |w.ttls| && WellFormed(c) && c.id !in w.signed
      && w.now < expiry <= w.now + w.ttls[i]
      && c.issuedAt == NumericDate(w.now) && c.expiresAt == NumericDate(expiry)
      && w' == w.(signed := w.signed[c.id := Signed(c, expiry)])
    case Register(id) =>
      && id in w.signed && id !in w.registered
      && (var c := w.signed[id].claims;
          w' == w.(table := G.Registered(w.table, id, c.runId, c.userId, w.signed[id].expiry), registered := w.registered + {id}))
    case NoteOwner(i, id) =>
      && i < |w.locals| && id in w.registered && id in w.signed && !ReadLocked(w, i)
      && (var c, l := w.signed[id].claims, w.locals[i];
          w' == w.(locals := w.locals[i := l.(owners := l.owners[id := c.userId], runOwners := l.runOwners[c.runId := c.userId])]))
    case Mark(i, t) =>
      && i < |w.locals| && Named(t) && !ReadLocked(w, i)
      && w' == w.(locals := w.locals[i := WithMark(w.locals[i], t, w.now)],
                  revocations := w.revocations + [Revocation(i, t, OwnerOf(w.locals[i], t), w.now, Marked)])
    case TimeRevocation(j) =>
      && j < |w.revocations| && w.revocations[j].stage.Marked? && w.revocations[j].issuer < |w.ttls|
      && w' == Staged(w, j, Timed(w.now + w.ttls[w.revocations[j].issuer]))
    case StoreRevocation(j) =>
      && j < |w.revocations| && w.revocations[j].stage.Timed?
      && w' == Staged(w, j, Sent).(table := Revoked(w.table, w.revocations[j], w.now))
    case Cleanup(before) => before <= w.now && w' == w.(table := G.Cleaned(w.table, before))
    case StartParse(i, c) =>
      && i < |w.locals| && IsSigned(w, c) && LiveJwt(c, w.now)
      && w' == w.(parses := w.parses + [Parse(i, c, w.now, DatesChecked)])
    case ReadClock(k) =>
      InParse(w, k) && w.parses[k].phase.DatesChecked? && w' == At(w, k, ClockRead(w.now))
    case CheckLocally(k) =>
      && InParse(w, k) && w.parses[k].phase.ClockRead?
      && w' == At(w, k, if PassesOwnCheck(w, k) then LocallyChecked(w.parses[k].phase.now) else Refused)
    case LookUp(k) =>
      && InParse(w, k) && w.parses[k].phase.LocallyChecked?
      && w' == At(w, k, if PassesLookUp(w, k) then Accepted(w.now) else Refused)
    case FailLookUp(k) =>
      InParse(w, k) && w.parses[k].phase.LocallyChecked? && w' == At(w, k, Refused)
  }

  // A finite behaviour: steps[i] leads from worlds[i] to worlds[i + 1].
  ghost predicate Behaviour(worlds: seq<World>, steps: seq<Step>) {
    && |worlds| == |steps| + 1
    && Init(worlds[0])
    && forall i {:trigger steps[i]} :: 0 <= i < |steps| ==> Next(worlds[i], steps[i], worlds[i + 1])
  }

  // ----- the row of a token outlives the token -----

  ghost predicate Guarded(w: World, id: string) {
    && id in w.signed
    && (var c := w.signed[id].claims;
        && c.id == id && WellFormed(c)
        && if id in w.table then
             w.table[id].runId == c.runId && w.table[id].userId == c.userId && c.expiresAt <= w.table[id].expiresAt
           else c.expiresAt <= w.now)
  }

  ghost predicate SignedInv(w: World) {
    forall id :: id in w.signed ==>
      w.signed[id].claims.id == id && WellFormed(w.signed[id].claims) && w.signed[id].claims.expiresAt <= w.signed[id].expiry
  }

  ghost predicate RegisteredInv(w: World) {
    forall id :: id in w.registered ==> Guarded(w, id)
  }

  // A revocation's new expiry is a whole token lifetime after its mark.
  predicate RevocationInv(w: World, r: Revocation) {
    && r.issuer < |w.ttls| && Named(r.target) && r.markedAt <= w.now
    && (r.stage.Timed? ==> r.markedAt + w.ttls[r.issuer] <= r.stage.expiresAt)
  }

  ghost predicate RevocationsInv(w: World) {
    forall j :: 0 <= j < |w.revocations| ==> RevocationInv(w, w.revocations[j])
  }

  predicate ParseInv(w: World, p: Parse) {
    LiveJwt(p.claims, p.startedAt) && p.startedAt <= w.now
    && (p.phase.ClockRead? || p.phase.LocallyChecked? ==> p.startedAt <= p.phase.now <= w.now)
  }

  ghost predicate ParsesInv(w: World) {
    forall k :: 0 <= k < |w.parses| ==> ParseInv(w, w.parses[k])
  }

  ghost predicate Inv(w: World) {
    |w.ttls| == |w.locals| && SignedInv(w) && RegisteredInv(w) && RevocationsInv(w) && ParsesInv(w)
  }

  lemma NumericDateRoundsDown(t: int)
    ensures NumericDate(t) <= t < NumericDate(t) + SECOND
  {
  }

  lemma SignedStep(w: World, s: Step, w': World)
    requires SignedInv(w) && Next(w, s, w')
    ensures SignedInv(w')
  {
    hide Trim, LiveJwt, RevokedLocally, G.IsRevoked, ReadLocked, WellFormed;
    if s.Sign? {
      NumericDateRoundsDown(s.expiry);
    }
  }

  lemma GuardedStep(w: World, s: Step, w': World, id: string)
    requires SignedInv(w) && RegisteredInv(w) && Next(w, s, w') && id in w'.registered
    ensures Guarded(w', id)
  {
    hide Trim, LiveJwt, RevokedLocally, G.IsRevoked, ReadLocked, WithMark, OwnerOf, NumericDate;
    assert id in w.registered || s == Register(id);
  }

  lemma RevocationsStep(w: World, s: Step, w': World)
    requires RevocationsInv(w) && |w.ttls| == |w.locals| && Next(w, s, w')
    ensures RevocationsInv(w')
  {
    hide Trim, LiveJwt, RevokedLocally, G.IsRevoked, ReadLocked, Named, WellFormed;
  }

  lemma ParsesStep(w: World, s: Step, w': World)
    requires ParsesInv(w) && Next(w, s, w')
    ensures ParsesInv(w')
  {
    hide Trim, RevokedLocally, G.IsRevoked, ReadLocked, Named, WellFormed;
  }

  lemma InvStep(w: World, s: Step, w': World)
    requires Inv(w) && Next(w, s, w')
    ensures Inv(w')
  {
    SignedStep(w, s, w');
    RevocationsStep(w, s, w');
    ParsesStep(w, s, w');
    forall id | id in w'.registered ensures Guarded(w', id) {
      GuardedStep(w, s, w', id);
    }
    SameInstances(w, s, w');
    hide Next, SignedInv, RevocationsInv, ParsesInv, Guarded;
  }

  lemma SameInstances(w: World, s: Step, w': World)
    requires Next(w, s, w')
    ensures w'.ttls == w.ttls && |w'.locals| == |w.locals| && w.now <= w'.now
  {
  }

  lemma {:induction false} InvHolds(worlds: seq<World>, steps: seq<Step>, i: nat)
    requires Behaviour(worlds, steps) && i < |worlds|
    ensures Inv(worlds[i])
  {
    if i > 0 {
      hide Next, Inv;
      InvHolds(worlds, steps, i - 1);
      InvStep(worlds[i - 1], steps[i - 1], worlds[i]);
    }
  }

  // ----- a revocation that reached the table -----

  // The revocation is of this token, or of its run, and its owner matches.
  predicate Covers(r: Revocation, c: Claims) {
    && (r.owner == "" || r.owner == c.userId)
    && match r.target
       case OfToken(id) => id == c.id
       case OfRun(run) => run == c.runId
  }

  // From now on the token's row is revoked and lives at least until the given time, or is gone after it.
  ghost predicate BlockedUntil(w: World, c: Claims, until: int) {
    && IsSigned(w, c) && c.id in w.registered
    && if c.id in w.table then w.table[c.id].revokedAt.Some? && until <= w.table[c.id].expiresAt
       else until <= w.now && c.expiresAt <= w.now
  }

  // How long the row of c stays after the revocation: to the revocation's expiry, if the row was still there.
  function KeptUntil(w: World, j: nat, c: Claims): int
    requires j < |w.revocations| && w.revocations[j].stage.Timed?
  {
    if c.id in w.table then w.revocations[j].stage.expiresAt else c.expiresAt
  }

  lemma RevocationBlocks(w: World, j: nat, w': World, c: Claims)
    requires Inv(w) && Next(w, StoreRevocation(j), w') && IsSigned(w, c) && c.id in w.registered && Covers(w.revocations[j], c)
    requires Trimmed(w.revocations[j].owner)
    ensures BlockedUntil(w', c, KeptUntil(w, j, c))
  {
    assert Guarded(w, c.id) && RevocationInv(w, w.revocations[j]);
    hide Trim;
  }

  lemma BlockedStep(w: World, s: Step, w': World, c: Claims, until: int)
    requires Inv(w) && Next(w, s, w') && BlockedUntil(w, c, until)
    ensures BlockedUntil(w', c, until)
  {
    StepGrows(w, s, w', c);
    if s.Register? || s.StoreRevocation? {
      RowKeepsRevocation(w, s, w', c.id);
    } else if s.Cleanup? {
      assert Guarded(w, c.id) && w'.table == G.Cleaned(w.table, s.before) && s.before <= w.now;
    }
    hide Next, Inv;
  }

  lemma StepGrows(w: World, s: Step, w': World, c: Claims)
    requires Next(w, s, w')
    ensures w.now <= w'.now && w.registered <= w'.registered && (IsSigned(w, c) ==> IsSigned(w', c))
    ensures w'.table == w.table || s.Register? || s.StoreRevocation? || s.Cleanup?
    ensures s.Cleanup? ==> w'.now == w.now
  {
    hide Trim, LiveJwt, RevokedLocally, G.IsRevoked, ReadLocked, Named, WithMark, OwnerOf, NumericDate, Revoked, G.Registered, G.Cleaned;
  }

  // Registering again and revoking again leave a row revoked and take nothing from its life.
  lemma RowKeepsRevocation(w: World, s: Step, w': World, id: string)
    requires Inv(w) && Next(w, s, w') && (s.Register? || s.StoreRevocation?)
    ensures id !in w.registered || s != Register(id)
    ensures id !in w.table && s != Register(id) ==> id !in w'.table
    ensures id in w.table && w.table[id].revokedAt.Some? && id in w.registered ==>
              id in w'.table && w'.table[id].revokedAt.Some? && w.table[id].expiresAt <= w'.table[id].expiresAt
  {
    hide LiveJwt, RevokedLocally, G.IsRevoked, ReadLocked, Named, WithMark, OwnerOf, NumericDate;
    if s.Register? {
      assert WellFormed(w.signed[s.id].claims);
    }
    hide Trim;
  }

  ghost predicate OwnersTrimmed(w: World) {
    && (forall i :: 0 <= i < |w.locals| ==> LocalTrimmed(w.locals[i]))
    && forall j :: 0 <= j < |w.revocations| ==> Trimmed(w.revocations[j].owner)
  }

  ghost predicate LocalTrimmed(l: Local) {
    (forall id :: id in l.owners ==> Trimmed(l.owners[id])) && forall r :: r in l.runOwners ==> Trimmed(l.runOwners[r])
  }

  lemma LocalTrimmedStep(w: World, s: Step, w': World, i: nat)
    requires SignedInv(w) && OwnersTrimmed(w) && Next(w, s, w') && i < |w'.locals|
    ensures LocalTrimmed(w'.locals[i])
  {
    hide Trim, LiveJwt, RevokedLocally, G.IsRevoked, ReadLocked, Named, OwnerOf, Revoked, G.Registered, G.Cleaned, NumericDate;
    assert i < |w.locals| && LocalTrimmed(w.locals[i]);
  }

  lemma RevocationTrimmedStep(w: World, s: Step, w': World, j: nat)
    requires OwnersTrimmed(w) && Next(w, s, w') && j < |w'.revocations|
    ensures Trimmed(w'.revocations[j].owner)
  {
    assert Trimmed("");
    hide Trim, LiveJwt, RevokedLocally, G.IsRevoked, ReadLocked, Named, WithMark, Revoked, WellFormed, G.Registered, G.Cleaned, NumericDate;
    if s.Mark? {
      assert LocalTrimmed(w.locals[s.issuer]);
    }
  }

  lemma OwnersTrimmedStep(w: World, s: Step, w': World)
    requires SignedInv(w) && OwnersTrimmed(w) && Next(w, s, w')
    ensures OwnersTrimmed(w')
  {
    forall i | 0 <= i < |w'.locals| ensures LocalTrimmed(w'.locals[i]) {
      LocalTrimmedStep(w, s, w', i);
    }
    forall j | 0 <= j < |w'.revocations| ensures Trimmed(w'.revocations[j].owner) {
      RevocationTrimmedStep(w, s, w', j);
    }
  }

  lemma {:induction false} OwnersTrimmedHolds(worlds: seq<World>, steps: seq<Step>, i: nat)
    requires Behaviour(worlds, steps) && i < |worlds|
    ensures OwnersTrimmed(worlds[i])
  {
    if i > 0 {
      hide Next, OwnersTrimmed;
      OwnersTrimmedHolds(worlds, steps, i - 1);
      InvHolds(worlds, steps, i - 1);
      OwnersTrimmedStep(worlds[i - 1], steps[i - 1], worlds[i]);
    }
  }

  // Step a stores a revocation that covers the registered token c.
  ghost predicate RevokedAt(worlds: seq<World>, steps: seq<Step>, a: nat, c: Claims) {
    && Behaviour(worlds, steps) && a < |steps| && steps[a].StoreRevocation?
    && IsSigned(worlds[a], c) && c.id in worlds[a].registered
    && var j := steps[a].revocation;
       j < |worlds[a].revocations| && worlds[a].revocations[j].stage.Timed? && Covers(worlds[a].revocations[j], c)
  }

  lemma {:induction false} BlockedFrom(worlds: seq<World>, steps: seq<Step>, a: nat, b: nat, c: Claims)
    requires RevokedAt(worlds, steps, a, c) && a < b < |worlds|
    ensures BlockedUntil(worlds[b], c, KeptUntil(worlds[a], steps[a].revocation, c))
    decreases b
  {
    hide Next, Inv, BlockedUntil, KeptUntil, Covers;
    InvHolds(worlds, steps, b - 1);
    if a < b - 1 {
      BlockedFrom(worlds, steps, a, b - 1, c);
      BlockedStep(worlds[b - 1], steps[b - 1], worlds[b], c, KeptUntil(worlds[a], steps[a].revocation, c));
    } else {
      OwnersTrimmedHolds(worlds, steps, a);
      RevocationBlocks(worlds[a], steps[a].revocation, worlds[b], c);
    }
  }

  // Every row of the run is alive.
  ghost predicate RunAlive(t: G.Table, runId: string, now: int) {
    forall id :: id in t && t[id].runId == runId ==> !G.Dead(t[id], now)
  }

  lemma LookUpMeaning(t: G.Table, c: Claims, now: int)
    requires Trimmed(c.id) && Trimmed(c.runId) && (c.id in t ==> t[c.id].runId == c.runId)
    ensures G.IsRevoked(t, c.id, c.runId, now) <==> !RunAlive(t, c.runId, now)
  {
    if id :| id in t && t[id].runId == c.runId && G.Dead(t[id], now) {
      assert G.Guards(id, t[id], c.id, c.runId);
    }
  }

  /** Once a registered token or its run is revoked in the table, a lookup accepts the token exactly when its
      row has been cleaned up and every other row of its run is alive. That takes a parse that checked the
      dates while the token lived and reaches the table after it has expired, and - if the row was still there
      to be revoked - not before the revoking instance's mark plus its full token lifetime. */
  lemma RevokedTokenAcceptedIff(worlds: seq<World>, steps: seq<Step>, a: nat, b: nat, k: nat, c: Claims)
    requires RevokedAt(worlds, steps, a, c) && a < b < |worlds|
    requires k < |worlds[b].parses| && worlds[b].parses[k].claims == c && worlds[b].parses[k].phase.LocallyChecked?
    ensures var w, r := worlds[b], worlds[a].revocations[steps[a].revocation];
            && (PassesLookUp(w, k) <==> c.id !in w.table && RunAlive(w.table, c.runId, w.parses[k].phase.now))
            && (PassesLookUp(w, k) ==> w.parses[k].startedAt < c.expiresAt <= w.now)
            && r.issuer < |w.ttls|
            && (PassesLookUp(w, k) && c.id in worlds[a].table ==> r.markedAt + w.ttls[r.issuer] <= w.now)
  {
    InvHolds(worlds, steps, a);
    InvHolds(worlds, steps, b);
    BlockedFrom(worlds, steps, a, b, c);
    InstancesStay(worlds, steps, a, b);
    hide Next, Trim;
    var w, j := worlds[b], steps[a].revocation;
    assert Guarded(w, c.id) && ParseInv(w, w.parses[k]) && RevocationInv(worlds[a], worlds[a].revocations[j]);
    LookUpMeaning(w.table, c, w.parses[k].phase.now);
    if c.id in w.table {
      assert G.Dead(w.table[c.id], w.parses[k].phase.now);
    }
  }

  lemma {:induction false} InstancesStay(worlds: seq<World>, steps: seq<Step>, a: nat, b: nat)
    requires Behaviour(worlds, steps) && a <= b < |worlds|
    ensures worlds[b].ttls == worlds[a].ttls && worlds[a].now <= worlds[b].now
    decreases b
  {
    if a < b {
      hide Next;
      InstancesStay(worlds, steps, a, b - 1);
      SameInstances(worlds[b - 1], steps[b - 1], worlds[b]);
    }
  }

  /** No instance accepts a token while it lives, once its revocation is in the table. */
  lemma RevokedTokenNotAcceptedAlive(worlds: seq<World>, steps: seq<Step>, a: nat, b: nat, k: nat, c: Claims)
    requires RevokedAt(worlds, steps, a, c) && a < b < |steps|
    requires steps[b] == LookUp(k) && k < |worlds[b].parses| && worlds[b].parses[k].claims == c && worlds[b].now < c.expiresAt
    ensures k < |worlds[b + 1].parses| && worlds[b + 1].parses[k].phase == Refused
  {
    assert Next(worlds[b], LookUp(k), worlds[b + 1]);
    RevokedTokenAcceptedIff(worlds, steps, a, b, k, c);
  }

  // ----- the revoking instance itself -----

  predicate MarksRun(s: Step, i: nat, r: string) {
    s == Mark(i, OfRun(r))
  }

  lemma MarkStep(w: World, s: Step, w': World, i: nat, r: string)
    requires Next(w, s, w') && i < |w.locals| && r in w.locals[i].runs && !MarksRun(s, i, r)
    ensures i < |w'.locals| && r in w'.locals[i].runs && w'.locals[i].runs[r] == w.locals[i].runs[r]
  {
    hide Trim, LiveJwt, RevokedLocally, G.IsRevoked, ReadLocked, WellFormed;
  }

  // The last time before b that instance i marked the run was step a.
  ghost predicate LastMark(worlds: seq<World>, steps: seq<Step>, a: nat, b: nat, i: nat, r: string) {
    && Behaviour(worlds, steps) && a < b < |worlds| && MarksRun(steps[a], i, r)
    && forall x :: a < x < b ==> !MarksRun(steps[x], i, r)
  }

  lemma {:induction false} LastMarkStands(worlds: seq<World>, steps: seq<Step>, a: nat, b: nat, i: nat, r: string)
    requires LastMark(worlds, steps, a, b, i, r)
    ensures i < |worlds[b].locals| && r in worlds[b].locals[i].runs && worlds[b].locals[i].runs[r] == worlds[a].now
    decreases b
  {
    if a == b - 1 {
      assert Next(worlds[a], steps[a], worlds[b]);
    } else {
      hide Next;
      LastMarkStands(worlds, steps, a, b - 1, i, r);
      MarkStep(worlds[b - 1], steps[b - 1], worlds[b], i, r);
    }
  }

  /** After an instance has marked a run, a parse of one of its tokens passes the instance's own check exactly
      when it had read its clock before the time of the last mark (and the token itself is not marked). Whether
      the revocation reached the table plays no part. */
  lemma PassesOwnCheckIff(worlds: seq<World>, steps: seq<Step>, a: nat, b: nat, i: nat, k: nat, r: string)
    requires LastMark(worlds, steps, a, b, i, r)
    requires InParse(worlds[b], k) && worlds[b].parses[k].issuer == i && worlds[b].parses[k].claims.runId == r
    requires worlds[b].parses[k].phase.ClockRead?
    ensures var p := worlds[b].parses[k];
            PassesOwnCheck(worlds[b], k) <==>
              p.phase.now < worlds[a].now
              && !(p.claims.id != "" && p.claims.id in worlds[b].locals[i].byJti && worlds[b].locals[i].byJti[p.claims.id] <= p.phase.now)
  {
    LastMarkStands(worlds, steps, a, b, i, r);
  }

  lemma ReadingStep(w: World, s: Step, w': World, k: nat)
    requires Next(w, s, w') && k < |w.parses| && w.parses[k].phase.ClockRead?
    ensures k < |w'.parses| && w'.parses[k].claims == w.parses[k].claims && w'.parses[k].issuer == w.parses[k].issuer
    ensures w'.parses[k].phase == w.parses[k].phase || s == CheckLocally(k)
    ensures s == CheckLocally(k) ==> !w'.parses[k].phase.ClockRead?
  {
    hide Trim, LiveJwt, RevokedLocally, G.IsRevoked, ReadLocked, WellFormed;
  }

  lemma NeverReadAgain(w: World, s: Step, w': World, k: nat)
    requires Next(w, s, w') && k < |w.parses| && !w.parses[k].phase.DatesChecked? && !w.parses[k].phase.ClockRead?
    ensures k < |w'.parses| && !w'.parses[k].phase.DatesChecked? && !w'.parses[k].phase.ClockRead?
  {
    hide Trim, LiveJwt, RevokedLocally, G.IsRevoked, ReadLocked, WellFormed;
  }

  // The parse keeps the clock it read until it checks the maps.
  lemma {:induction false} ReadingStands(worlds: seq<World>, steps: seq<Step>, x: nat, b: nat, k: nat)
    requires Behaviour(worlds, steps) && x < b < |worlds| && steps[x] == ReadClock(k)
    ensures k < |worlds[b].parses|
    ensures if worlds[b].parses[k].phase.ClockRead? then worlds[b].parses[k].phase.now == worlds[x].now
            else !worlds[b].parses[k].phase.DatesChecked?
    decreases b
  {
    if x == b - 1 {
      assert Next(worlds[x], steps[x], worlds[b]);
    } else {
      hide Next;
      ReadingStands(worlds, steps, x, b - 1, k);
      if worlds[b - 1].parses[k].phase.ClockRead? {
        ReadingStep(worlds[b - 1], steps[b - 1], worlds[b], k);
        CheckedIsOver(worlds[b - 1], steps[b - 1], worlds[b], k);
      } else {
        NeverReadAgain(worlds[b - 1], steps[b - 1], worlds[b], k);
      }
    }
  }

  lemma CheckedIsOver(w: World, s: Step, w': World, k: nat)
    requires Next(w, s, w') && k < |w.parses| && w.parses[k].phase.ClockRead?
    ensures k < |w'.parses| && !w'.parses[k].phase.DatesChecked?
  {
    hide Trim, LiveJwt, RevokedLocally, G.IsRevoked, ReadLocked, WellFormed;
  }

  /** A parse that reads its clock after the instance's last mark of the run is refused by that instance. */
  lemma ReadAfterMarkIsRefused(worlds: seq<World>, steps: seq<Step>, a: nat, x: nat, b: nat, i: nat, k: nat, r: string)
    requires LastMark(worlds, steps, a, b, i, r) && a < x < b < |steps|
    requires steps[x] == ReadClock(k) && steps[b] == CheckLocally(k)
    requires k < |worlds[b].parses| && worlds[b].parses[k].issuer == i && worlds[b].parses[k].claims.runId == r
    ensures k < |worlds[b + 1].parses| && worlds[b + 1].parses[k].phase == Refused
  {
    assert Next(worlds[b], steps[b], worlds[b + 1]);
    hide Next;
    ReadingStands(worlds, steps, x, b, k);
    InstancesStay(worlds, steps, a, x);
    PassesOwnCheckIff(worlds, steps, a, b, i, k, r);
  }

  // ----- one owner per run -----

  ghost predicate OneOwnerPerRun(w: World) {
    forall a, b :: a in w.signed && b in w.signed && w.signed[a].claims.runId == w.signed[b].claims.runId ==>
      w.signed[a].claims.userId == w.signed[b].claims.userId
  }

  ghost predicate OwnsRun(w: World, user: string, r: string) {
    exists id :: id in w.signed && w.signed[id].claims.runId == r && w.signed[id].claims.userId == user
  }

  ghost predicate OwnersKnown(w: World) {
    && (forall i, r :: 0 <= i < |w.locals| && r in w.locals[i].runOwners ==> OwnsRun(w, w.locals[i].runOwners[r], r))
    && forall j :: 0 <= j < |w.revocations| && w.revocations[j].target.OfRun? ==>
         w.revocations[j].owner == "" || OwnsRun(w, w.revocations[j].owner, w.revocations[j].target.runId)
  }

  lemma OwnsRunStep(w: World, s: Step, w': World, user: string, r: string)
    requires Next(w, s, w') && OwnsRun(w, user, r)
    ensures OwnsRun(w', user, r)
  {
    hide Trim, LiveJwt, RevokedLocally, G.IsRevoked, ReadLocked;
    var id :| id in w.signed && w.signed[id].claims.runId == r && w.signed[id].claims.userId == user;
    assert id in w'.signed && w'.signed[id] == w.signed[id];
  }

  lemma LocalOwnersStep(w: World, s: Step, w': World, i: nat, r: string)
    requires Next(w, s, w') && OwnersKnown(w) && i < |w'.locals| && r in w'.locals[i].runOwners
    ensures OwnsRun(w', w'.locals[i].runOwners[r], r)
  {
    hide Trim, LiveJwt, RevokedLocally, G.IsRevoked, ReadLocked, WellFormed, Named;
    if s.NoteOwner? && s.issuer == i && w.signed[s.id].claims.runId == r {
      assert s.id in w'.signed;
    } else {
      OwnsRunStep(w, s, w', w.locals[i].runOwners[r], r);
    }
  }

  lemma RevocationOwnersStep(w: World, s: Step, w': World, j: nat)
    requires Next(w, s, w') && OwnersKnown(w) && j < |w'.revocations| && w'.revocations[j].target.OfRun?
    ensures w'.revocations[j].owner == "" || OwnsRun(w', w'.revocations[j].owner, w'.revocations[j].target.runId)
  {
    hide Trim, LiveJwt, RevokedLocally, G.IsRevoked, ReadLocked, WellFormed, Named;
    var r := w'.revocations[j];
    if j < |w.revocations| {
      assert w.revocations[j].target == r.target && w.revocations[j].owner == r.owner;
      if r.owner != "" {
        OwnsRunStep(w, s, w', r.owner, r.target.runId);
      }
    } else if r.owner != "" {
      OwnsRunStep(w, s, w', r.owner, r.target.runId);
    }
  }

  lemma {:induction false} OwnersKnownHolds(worlds: seq<World>, steps: seq<Step>, i: nat)
    requires Behaviour(worlds, steps) && i < |worlds|
    ensures OwnersKnown(worlds[i])
  {
    if i > 0 {
      hide Next;
      OwnersKnownHolds(worlds, steps, i - 1);
      var w, w' := worlds[i - 1], worlds[i];
      forall n, r | 0 <= n < |w'.locals| && r in w'.locals[n].runOwners ensures OwnsRun(w', w'.locals[n].runOwners[r], r) {
        LocalOwnersStep(w, steps[i - 1], w', n, r);
      }
      forall j | 0 <= j < |w'.revocations| && w'.revocations[j].target.OfRun?
        ensures w'.revocations[j].owner == "" || OwnsRun(w', w'.revocations[j].owner, w'.revocations[j].target.runId)
      {
        RevocationOwnersStep(w, steps[i - 1], w', j);
      }
    }
  }

  /** With one owner per run, every run revocation that reaches the table covers every token of the run. */
  lemma OneOwnerRevokesWholeRun(worlds: seq<World>, steps: seq<Step>, a: nat, c: Claims)
    requires Behaviour(worlds, steps) && a < |steps| && OneOwnerPerRun(worlds[a])
    requires steps[a].StoreRevocation? && IsSigned(worlds[a], c) && c.id in worlds[a].registered
    requires steps[a].revocation < |worlds[a].revocations| && worlds[a].revocations[steps[a].revocation].target == OfRun(c.runId)
    ensures RevokedAt(worlds, steps, a, c)
  {
    OwnersKnownHolds(worlds, steps, a);
    assert Next(worlds[a], steps[a], worlds[a + 1]);
    var r := worlds[a].revocations[steps[a].revocation];
    if r.owner != "" {
      assert OwnsRun(worlds[a], r.owner, c.runId);
      assert c.id in worlds[a].signed;
    }
  }
}
