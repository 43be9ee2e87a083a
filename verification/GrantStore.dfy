/** The shared table of capability grants. Every SQL statement is one atomic step on the rows. */
module GrantStore {
  import opened Text
  import opened Wrappers

  datatype Row = Row(runId: string, userId: string, expiresAt: int, revokedAt: Option<int>)

  type Table = map<string, Row>

  // INSERT .. ON CONFLICT (token_id) DO UPDATE: a conflict keeps revoked_at.
  function Registered(t: Table, tokenId: string, runId: string, userId: string, expiresAt: int): Table {
    var id := Trim(tokenId);
    t[id := Row(Trim(runId), Trim(userId), expiresAt, if id in t then t[id].revokedAt else None)]
  }

  // revoked_at = COALESCE(revoked_at, now), expires_at = GREATEST(expires_at, expiresAt)
  function RevokedRow(r: Row, expiresAt: int, now: int): Row {
    r.(revokedAt := if r.revokedAt.None? then Some(now) else r.revokedAt,
       expiresAt := if r.expiresAt < expiresAt then expiresAt else r.expiresAt)
  }

  predicate OwnerMatches(r: Row, userId: string) {
    userId == "" || r.userId == userId
  }

  function TokenRevoked(t: Table, tokenId: string, userId: string, expiresAt: int, now: int): Table {
    map id | id in t ::
      if id == Trim(tokenId) && OwnerMatches(t[id], Trim(userId)) then RevokedRow(t[id], expiresAt, now) else t[id]
  }

  function RunRevoked(t: Table, runId: string, userId: string, expiresAt: int, now: int): Table {
    map id | id in t ::
      if t[id].runId == Trim(runId) && OwnerMatches(t[id], Trim(userId)) then RevokedRow(t[id], expiresAt, now) else t[id]
  }

  predicate Dead(r: Row, now: int) {
    r.expiresAt <= now || r.revokedAt.Some?
  }

  // A row of the token itself, or of any other token of the same run.
  predicate Guards(id: string, r: Row, tokenId: string, runId: string) {
    id == Trim(tokenId) || r.runId == Trim(runId)
  }

  predicate IsRevoked(t: Table, tokenId: string, runId: string, now: int) {
    exists id :: id in t && Guards(id, t[id], tokenId, runId) && Dead(t[id], now)
  }

  function Cleaned(t: Table, before: int): Table {
    map id | id in t && !(t[id].expiresAt <= before) :: t[id]
  }

  // SELECT user_id .. WHERE run_id = $1 ORDER BY expires_at DESC LIMIT 1: any of the latest rows may come first.
  ghost predicate IsRunOwner(t: Table, runId: string, owner: string) {
    if exists id :: id in t && t[id].runId == Trim(runId) then
      exists id :: id in t && t[id].runId == Trim(runId) && t[id].userId == owner
                   && forall other :: other in t && t[other].runId == Trim(runId) ==> t[other].expiresAt <= t[id].expiresAt
    else owner == ""
  }

  // How a database call ends; an error may be reported although the statement was committed.
  datatype Fault = NoFault | LostBefore | LostAfter

  class PostgresStore {
    var rows: Table

    constructor ()
      ensures rows == map[]
    {
      rows := map[];
    }

    method Register(tokenId: string, runId: string, userId: string, expiresAt: int, fault: Fault) returns (ok: bool)
      modifies this
      ensures ok <==> fault == NoFault
      ensures rows == if fault == LostBefore then old(rows) else Registered(old(rows), tokenId, runId, userId, expiresAt)
      ensures forall id :: id in old(rows) ==> id in rows && rows[id].revokedAt == old(rows)[id].revokedAt
      ensures forall id :: id in rows && (id != Trim(tokenId) || fault == LostBefore) ==> id in old(rows) && rows[id] == old(rows)[id]
      ensures fault != LostBefore ==>
                var id := Trim(tokenId);
                && id in rows && rows[id].runId == Trim(runId) && rows[id].userId == Trim(userId) && rows[id].expiresAt == expiresAt
                && (id !in old(rows) ==> rows[id].revokedAt.None?)
    {
      if fault != LostBefore {
        rows := Registered(rows, tokenId, runId, userId, expiresAt);
      }
      ok := fault == NoFault;
    }

    method RevokeToken(tokenId: string, userId: string, expiresAt: int, now: int, fault: Fault) returns (ok: bool)
      modifies this
      ensures ok <==> fault == NoFault
      ensures rows == if fault == LostBefore then old(rows) else TokenRevoked(old(rows), tokenId, userId, expiresAt, now)
      ensures rows.Keys == old(rows).Keys
      ensures forall id :: id in rows ==>
                var row := old(rows)[id];
                if fault != LostBefore && id == Trim(tokenId) && (Trim(userId) == "" || Trim(userId) == row.userId) then
                  && rows[id].runId == row.runId && rows[id].userId == row.userId
                  && rows[id].revokedAt == (if row.revokedAt.Some? then row.revokedAt else Some(now))
                  && rows[id].expiresAt == if row.expiresAt < expiresAt then expiresAt else row.expiresAt
                else rows[id] == row
    {
      if fault != LostBefore {
        rows := TokenRevoked(rows, tokenId, userId, expiresAt, now);
      }
      ok := fault == NoFault;
    }

    method RevokeRun(runId: string, userId: string, expiresAt: int, now: int, fault: Fault) returns (ok: bool)
      modifies this
      ensures ok <==> fault == NoFault
      ensures rows == if fault == LostBefore then old(rows) else RunRevoked(old(rows), runId, userId, expiresAt, now)
      ensures rows.Keys == old(rows).Keys
      ensures forall id :: id in rows ==>
                var row := old(rows)[id];
                if fault != LostBefore && old(rows)[id].runId == Trim(runId) && (Trim(userId) == "" || Trim(userId) == row.userId) then
                  && rows[id].runId == row.runId && rows[id].userId == row.userId
                  && rows[id].revokedAt == (if row.revokedAt.Some? then row.revokedAt else Some(now))
                  && rows[id].expiresAt == if row.expiresAt < expiresAt then expiresAt else row.expiresAt
                else rows[id] == row
    {
      if fault != LostBefore {
        rows := RunRevoked(rows, runId, userId, expiresAt, now);
      }
      ok := fault == NoFault;
    }

    method Lookup(tokenId: string, runId: string, now: int, fault: Fault) returns (r: Result<bool, ()>)
      ensures r == if fault == NoFault then Ok(IsRevoked(rows, tokenId, runId, now)) else Err(())
      ensures r.Err? <==> fault != NoFault
      ensures r.Ok? ==> (r.value <==> !forall id :: id in rows && (id == Trim(tokenId) || rows[id].runId == Trim(runId)) ==>
                                          now < rows[id].expiresAt && rows[id].revokedAt.None?)
    {
      if fault != NoFault {
        return Err(());
      }
      r := Ok(exists id | id in rows :: Guards(id, rows[id], tokenId, runId) && Dead(rows[id], now));
    }

    method TokenOwner(tokenId: string) returns (owner: string)
      ensures owner == if Trim(tokenId) in rows then rows[Trim(tokenId)].userId else ""
    {
      owner := if Trim(tokenId) in rows then rows[Trim(tokenId)].userId else "";
    }

    /** Scans the run's rows for one that expires last. */
    method RunOwner(runId: string) returns (owner: string)
      ensures IsRunOwner(rows, runId, owner)
      ensures (forall id :: id in rows ==> rows[id].runId != Trim(runId)) ==> owner == ""
      ensures (exists id :: id in rows && rows[id].runId == Trim(runId)) ==>
                exists id :: && id in rows && rows[id].runId == Trim(runId) && rows[id].userId == owner
                             && forall other :: other in rows && rows[id].expiresAt < rows[other].expiresAt ==> rows[other].runId != Trim(runId)
    {
      var todo := rows.Keys;
      var best: Option<string> := None;
      while todo != {}
        invariant todo <= rows.Keys
        invariant best.None? ==> forall id :: id in rows && id !in todo ==> rows[id].runId != Trim(runId)
        invariant best.Some? ==> best.value in rows && rows[best.value].runId == Trim(runId)
        invariant best.Some? ==> forall id :: id in rows && id !in todo && rows[id].runId == Trim(runId) ==>
                                   rows[id].expiresAt <= rows[best.value].expiresAt
        decreases todo
      {
        var id :| id in todo;
        todo := todo - {id};
        if rows[id].runId == Trim(runId) && (best.None? || rows[best.value].expiresAt < rows[id].expiresAt) {
          best := Some(id);
        }
      }
      owner := if best.Some? then rows[best.value].userId else "";
    }

    method CleanupExpired(before: int) returns (deleted: nat)
      modifies this
      ensures rows == Cleaned(old(rows), before)
      ensures forall id :: id in rows <==> id in old(rows) && before < old(rows)[id].expiresAt
      ensures forall id :: id in rows ==> rows[id] == old(rows)[id]
      ensures deleted == |set id | id in old(rows) && old(rows)[id].expiresAt <= before|
    {
      var kept := Cleaned(rows, before);
      assert kept.Keys <= rows.Keys;
      KeysShrink(kept.Keys, rows.Keys);
      ghost var gone := set id | id in rows && rows[id].expiresAt <= before;
      assert gone == rows.Keys - kept.Keys && |rows.Keys| == |rows| && |kept.Keys| == |kept|;
      deleted := |rows| - |kept|;
      rows := kept;
    }
  }

  lemma KeysShrink<T>(a: set<T>, b: set<T>)
    requires a <= b
    ensures |a| <= |b| && |b - a| == |b| - |a|
  {
    assert b == a + (b - a);
  }

  // ----- histories of the table -----

  datatype Statement =
    | RegisterGrant(tokenId: string, runId: string, userId: string, expiresAt: int)
    | RevokeTokenGrant(tokenId: string, userId: string, expiresAt: int, now: int)
    | RevokeRunGrants(runId: string, userId: string, expiresAt: int, now: int)
    | CleanUp(before: int)

  function Executed(t: Table, s: Statement): Table {
    match s
    case RegisterGrant(id, run, user, expiresAt) => Registered(t, id, run, user, expiresAt)
    case RevokeTokenGrant(id, user, expiresAt, now) => TokenRevoked(t, id, user, expiresAt, now)
    case RevokeRunGrants(run, user, expiresAt, now) => RunRevoked(t, run, user, expiresAt, now)
    case CleanUp(before) => Cleaned(t, before)
  }

  function After(t: Table, history: seq<Statement>): Table {
    if history == [] then t else Executed(After(t, history[..|history| - 1]), history[|history| - 1])
  }

  /** Whatever is executed, a revoked row keeps its first revocation time until a cleanup deletes it: neither
      registering the token again nor a later revocation changes it. */
  lemma {:induction false} RevocationTimeStands(t: Table, history: seq<Statement>, id: string)
    requires id in t && t[id].revokedAt.Some?
    requires forall k :: 0 <= k <= |history| ==> id in After(t, history[..k])
    ensures id in After(t, history) && After(t, history)[id].revokedAt == t[id].revokedAt
  {
    if history != [] {
      var before := history[..|history| - 1];
      forall k | 0 <= k <= |before| ensures id in After(t, before[..k]) {
        assert before[..k] == history[..k];
      }
      RevocationTimeStands(t, before, id);
      hide Trim, After;
      assert history[..|history|] == history;
    }
  }

  // The token is not registered again, and no cleanup reaches its row.
  predicate Spares(s: Statement, id: string, expiresAt: int) {
    match s
    case RegisterGrant(tokenId, _, _, _) => Trim(tokenId) != id
    case CleanUp(before) => before < expiresAt
    case _ => true
  }

  /** A row lives on with its run, owner and at least its expiry: revocations never shorten it, and only
      registering its token again or a cleanup after its expiry can. */
  lemma {:induction false} RowOnlyGrows(t: Table, history: seq<Statement>, id: string)
    requires id in t && forall s :: s in history ==> Spares(s, id, t[id].expiresAt)
    ensures id in After(t, history)
    ensures var row := After(t, history)[id];
            row.runId == t[id].runId && row.userId == t[id].userId && t[id].expiresAt <= row.expiresAt
            && (t[id].revokedAt.Some? ==> row.revokedAt == t[id].revokedAt)
  {
    if history != [] {
      var before, last := history[..|history| - 1], history[|history| - 1];
      assert forall s :: s in before ==> s in history;
      RowOnlyGrows(t, before, id);
      assert Spares(last, id, t[id].expiresAt);
      assert After(t, history) == Executed(After(t, before), last);
      hide Trim, After;
    }
  }

  /** After a run revocation every token of the run whose row has a matching owner - and with it every token of
      the run - is refused by lookups, whatever else is executed, as long as that row is spared. */
  lemma RunRevocationRefusesWholeRun(t: Table, runId: string, userId: string, expiresAt: int, at: int,
                                     history: seq<Statement>, id: string, other: string, now: int)
    requires Trimmed(runId) && id in t && t[id].runId == runId && OwnerMatches(t[id], Trim(userId))
    requires forall s :: s in history ==> Spares(s, id, RunRevoked(t, runId, userId, expiresAt, at)[id].expiresAt)
    ensures IsRevoked(After(RunRevoked(t, runId, userId, expiresAt, at), history), other, runId, now)
  {
    var revoked := RunRevoked(t, runId, userId, expiresAt, at);
    assert id in revoked && revoked[id].revokedAt.Some? && revoked[id].runId == runId;
    RowOnlyGrows(revoked, history, id);
    var later := After(revoked, history);
    assert id in later && Guards(id, later[id], other, runId) && Dead(later[id], now);
  }

  /** The lookup refuses a token exactly when its own row is dead or some other row of its run is:
      a live, unrevoked token is refused because of an expired or revoked sibling. */
  lemma LiveTokenRefusedIffSiblingDead(t: Table, tokenId: string, runId: string, now: int)
    requires Trimmed(tokenId) && Trimmed(runId)
    requires tokenId in t && t[tokenId].runId == runId && !Dead(t[tokenId], now)
    ensures IsRevoked(t, tokenId, runId, now) <==>
            exists sibling :: sibling in t && sibling != tokenId && t[sibling].runId == runId && Dead(t[sibling], now)
  {
    if IsRevoked(t, tokenId, runId, now) {
      var id :| id in t && Guards(id, t[id], tokenId, runId) && Dead(t[id], now);
      assert id != tokenId;
    }
    if sibling :| sibling in t && sibling != tokenId && t[sibling].runId == runId && Dead(t[sibling], now) {
      assert Guards(sibling, t[sibling], tokenId, runId);
    }
  }

  /** Revoking one token makes the table refuse every token of its run, whatever their age and whatever else is
      executed, as long as the revoked row is spared. */
  lemma TokenRevocationRefusesWholeRun(t: Table, tokenId: string, userId: string, expiresAt: int, at: int,
                                       history: seq<Statement>, other: string, now: int)
    requires Trimmed(tokenId) && tokenId in t && OwnerMatches(t[tokenId], Trim(userId)) && Trimmed(t[tokenId].runId)
    requires forall s :: s in history ==> Spares(s, tokenId, TokenRevoked(t, tokenId, userId, expiresAt, at)[tokenId].expiresAt)
    ensures IsRevoked(After(TokenRevoked(t, tokenId, userId, expiresAt, at), history), other, t[tokenId].runId, now)
  {
    var revoked := TokenRevoked(t, tokenId, userId, expiresAt, at);
    assert tokenId in revoked && revoked[tokenId].revokedAt.Some?;
    RowOnlyGrows(revoked, history, tokenId);
    var later := After(revoked, history);
    assert tokenId in later && Guards(tokenId, later[tokenId], other, t[tokenId].runId) && Dead(later[tokenId], now);
  }
}
