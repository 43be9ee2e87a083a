/** The capability issuer: issuing, parsing and revoking delegated tokens. */
module Capability {
  import opened Text
  import opened Wrappers
  import opened AccessScope
  import GrantStore

  datatype Error = InvalidToken | InvalidIssuer | InvalidRequest | RunBindingMissing | StoreFailed

  // Signed claims carry dates with the precision of a JWT numeric date: whole seconds.
  const SECOND := 1_000_000_000

  function NumericDate(t: int): int {
    t - t % SECOND
  }

  lemma WholeSeconds(t: int)
    ensures NumericDate(t) <= t < NumericDate(t) + 1_000_000_000 && NumericDate(t) % 1_000_000_000 == 0
  {
  }

  datatype Claims = Claims(
    audience: string, id: string, userId: string, sessionId: string, runId: string,
    issuedAt: int, expiresAt: int,
    scope: Scope, permissions: seq<string>, allowedTools: seq<string>)

  // Only the holders of the signing secret can make a Genuine token.
  datatype Token = Genuine(claims: Claims) | Forged

  datatype IssueRequest = IssueRequest(
    userId: string, sessionId: string, runId: string, scope: Scope,
    permissions: seq<string>, allowedTools: seq<string>, ttl: int)

  // ----- normalised lists -----

  function Fold(v: string): string {
    Lower(Trim(v))
  }

  predicate HasKey(values: seq<string>, key: string) {
    exists v :: v in values && Fold(v) == key
  }

  // Trimmed, without blanks, and only the first of several spellings of one value.
  function Normalize(values: seq<string>): seq<string> {
    if values == [] then []
    else
      var rest := Normalize(values[..|values| - 1]);
      var last := values[|values| - 1];
      if Trim(last) == "" || HasKey(rest, Fold(last)) then rest else rest + [Trim(last)]
  }

  lemma HasKeyExtends(values: seq<string>, value: string, key: string)
    ensures HasKey(values + [value], key) <==> HasKey(values, key) || Fold(value) == key
  {
    if HasKey(values, key) {
      var v :| v in values && Fold(v) == key;
      assert v in values + [value];
    } else if Fold(value) == key {
      assert value in values + [value];
    }
  }

  method NormalizeLoop(values: seq<string>) returns (result: seq<string>)
    ensures result == Normalize(values)
  {
    var seen: set<string> := {};
    result := [];
    for i := 0 to |values|
      invariant result == Normalize(values[..i])
      invariant forall key :: key in seen <==> HasKey(result, key)
    {
      assert values[..i + 1][..i] == values[..i];
      var value := Trim(values[i]);
      TrimIdempotent(values[i]);
      if value != "" && Lower(value) !in seen {
        seen := seen + {Lower(value)};
        forall key ensures key in seen <==> HasKey(result + [value], key) {
          HasKeyExtends(result, value, key);
        }
        result := result + [value];
      }
    }
    assert values[..|values|] == values;
  }

  /** Every normalised value is a trimmed, non-blank spelling of some given value. */
  lemma {:induction false} NormalizeSound(values: seq<string>, v: string)
    requires v in Normalize(values)
    ensures v != "" && Trimmed(v) && exists w :: w in values && Trim(w) == v
  {
    var init, last := values[..|values| - 1], values[|values| - 1];
    TrimIdempotent(last);
    if v in Normalize(init) {
      NormalizeSound(init, v);
      var w :| w in init && Trim(w) == v;
      assert w in values;
    } else {
      assert last in values && Trim(last) == v;
    }
  }

  /** Every non-blank value keeps exactly one spelling. */
  lemma {:induction false} NormalizeComplete(values: seq<string>, w: string)
    requires w in values && Trim(w) != ""
    ensures HasKey(Normalize(values), Fold(w))
  {
    var init, last := values[..|values| - 1], values[|values| - 1];
    assert values == init + [last];
    if w in init {
      NormalizeComplete(init, w);
    }
    TrimIdempotent(last);
    HasKeyExtends(Normalize(init), Trim(last), Fold(w));
  }

  lemma HasKeyAt(values: seq<string>, i: nat)
    requires i < |values|
    ensures HasKey(values, Fold(values[i]))
  {
    assert values[i] in values;
  }

  lemma {:induction false} NormalizeDistinct(values: seq<string>, i: nat, j: nat)
    requires i < j < |Normalize(values)|
    ensures Fold(Normalize(values)[i]) != Fold(Normalize(values)[j])
  {
    var init, last := values[..|values| - 1], values[|values| - 1];
    TrimIdempotent(last);
    if j < |Normalize(init)| {
      NormalizeDistinct(init, i, j);
    } else {
      HasKeyAt(Normalize(init), i);
    }
  }

  /** One more value: it is kept, trimmed, when it has text that no earlier value has in any case. */
  lemma NormalizeOneMore(values: seq<string>, value: string)
    ensures Normalize([]) == []
    ensures Normalize(values + [value]) == Normalize(values) +
              if Trim(value) != "" && forall w :: w in values ==> Lower(Trim(w)) != Lower(Trim(value)) then [Trim(value)] else []
  {
    var all, n := values + [value], |values|;
    NormalizeGrows(all);
    assert all[..n] == values && all[n] == value;
    FirstSpellingIff(all, n);
    hide Normalize, FirstSpelling, Trim, Lower;
    assert forall j :: 0 <= j < n ==> all[j] == values[j] && values[j] in values;
  }

  lemma FirstSpellingIff(values: seq<string>, i: nat)
    requires i < |values|
    ensures FirstSpelling(values, i) <==>
              Trim(values[i]) != "" && forall j :: 0 <= j < i ==> Lower(Trim(values[j])) != Lower(Trim(values[i]))
  {
    hide Trim, Lower;
    forall j | 0 <= j < i ensures Fold(values[j]) == Lower(Trim(values[j])) {
    }
  }

  // ----- the scope inside a token -----

  // The dimensions below the contract level are not carried by a token.
  function ClaimsScope(s: Scope): Scope {
    Scope(s.global, Trim(s.legalEntityId), Normalize(s.storeIds), Normalize(s.regions), Normalize(s.brands), [], [], [])
  }

  // The value at i is not blank, and no earlier value is a spelling of it.
  predicate FirstSpelling(values: seq<string>, i: nat)
    requires i < |values|
  {
    Trim(values[i]) != "" && forall j | 0 <= j < i :: Fold(values[j]) != Fold(values[i])
  }

  lemma FoldOfBlank(v: string)
    ensures Fold(v) == "" <==> Trim(v) == ""
  {
  }

  // The value at i is kept, as v.
  predicate KeptAs(values: seq<string>, i: nat, v: string)
    requires i < |values|
  {
    FirstSpelling(values, i) && Trim(values[i]) == v
  }

  /** The normalised values are the first spellings, trimmed. */
  lemma {:induction false} NormalizeKeepsFirstSpellings(values: seq<string>, v: string)
    ensures v in Normalize(values) <==> exists i :: 0 <= i < |values| && KeptAs(values, i, v)
  {
    if values != [] {
      var init, n := values[..|values| - 1], |values| - 1;
      NormalizeKeepsFirstSpellings(init, v);
      NormalizeGrows(values);
      FirstSpellingsOfPrefix(values, v);
      hide Normalize, FirstSpelling, Trim;
      if KeptAs(values, n, v) {
        assert v in Normalize(values);
      } else if v in Normalize(values) {
        assert v in Normalize(init);
        var i :| 0 <= i < n && KeptAs(init, i, v);
        assert KeptAs(values, i, v);
      }
      if i :| 0 <= i < n && KeptAs(values, i, v) {
        assert KeptAs(init, i, v);
      }
    }
  }

  lemma FirstSpellingsOfPrefix(values: seq<string>, v: string)
    requires values != []
    ensures forall i :: 0 <= i < |values| - 1 ==> (KeptAs(values, i, v) <==> KeptAs(values[..|values| - 1], i, v))
  {
    hide Fold, Trim;
  }

  lemma NormalizeGrows(values: seq<string>)
    requires values != []
    ensures var n := |values| - 1;
            Normalize(values) == Normalize(values[..n]) + if FirstSpelling(values, n) then [Trim(values[n])] else []
  {
    LastIsFirstSpellingIff(values);
    hide FirstSpelling, HasKey, Fold, Trim;
  }

  lemma LastIsFirstSpellingIff(values: seq<string>)
    requires values != []
    ensures var n := |values| - 1;
            FirstSpelling(values, n) <==> Trim(values[n]) != "" && !HasKey(Normalize(values[..n]), Fold(values[n]))
  {
    var n, init := |values| - 1, values[..|values| - 1];
    assert forall j :: 0 <= j < n ==> init[j] == values[j];
    if Trim(values[n]) != "" {
      FoldOfBlank(values[n]);
      NormalizeKeepsKeys(init, Fold(values[n]));
    }
    hide Normalize, HasKey, Fold, Trim;
  }

  /** Normalising keeps the keys of the values that are not blank. */
  lemma NormalizeKeepsKeys(values: seq<string>, key: string)
    requires key != ""
    ensures HasKey(Normalize(values), key) <==> exists j :: 0 <= j < |values| && Fold(values[j]) == key
  {
    if HasKey(Normalize(values), key) {
      var v :| v in Normalize(values) && Fold(v) == key;
      NormalizeSound(values, v);
      var w :| w in values && Trim(w) == v;
      TrimIdempotent(w);
      assert Fold(w) == key;
    }
    hide Normalize, Trim;
    if j :| 0 <= j < |values| && Fold(values[j]) == key {
      FoldOfBlank(values[j]);
      NormalizeComplete(values, values[j]);
    }
  }

  // A list survives the trip into a token when it is empty, or when it has a value that is not blank and the
  // first spelling of every value is trimmed, or its trimmed form is in the list too.
  predicate ListSurvives(values: seq<string>) {
    values == []
    || ((exists v :: v in values && Trim(v) != "")
        && forall i :: 0 <= i < |values| && FirstSpelling(values, i) ==> Trim(values[i]) in values)
  }

  lemma NormalizedIsEmptyIff(values: seq<string>)
    ensures Normalize(values) == [] <==> forall v :: v in values ==> Trim(v) == ""
  {
    if v :| v in values && Trim(v) != "" {
      NormalizeComplete(values, v);
    }
    if Normalize(values) != [] {
      NormalizeSound(values, Normalize(values)[0]);
    }
  }

  lemma ListSurvivesIff(values: seq<string>)
    ensures ListSurvives(values) <==> Narrows(Normalize(values), values)
  {
    NarrowsMeaning(Normalize(values), values);
    NormalizedIsEmptyIff(values);
    if values != [] && ListSurvives(values) {
      forall v | v in Normalize(values) ensures v in values {
        NormalizeKeepsFirstSpellings(values, v);
        var i :| 0 <= i < |values| && KeptAs(values, i, v);
      }
    }
    if forall v :: v in Normalize(values) ==> v in values {
      forall i | 0 <= i < |values| && FirstSpelling(values, i) ensures Trim(values[i]) in values {
        NormalizeKeepsFirstSpellings(values, Trim(values[i]));
        assert KeptAs(values, i, Trim(values[i]));
      }
    }
  }

  predicate ScopeSurvives(s: Scope) {
    || s.global
    || Trim(s.legalEntityId) == ""
    || (TrimmedEntity(s) && ListSurvives(s.storeIds) && ListSurvives(s.regions) && ListSurvives(s.brands))
  }

  // Whether everything that one list admits is admitted by another.
  ghost predicate Narrows(inner: seq<string>, outer: seq<string>) {
    forall v :: MatchesDimension(inner, v) ==> MatchesDimension(outer, v)
  }

  lemma NarrowsMeaning(inner: seq<string>, outer: seq<string>)
    ensures Narrows(inner, outer) <==> outer == [] || (inner != [] && forall v :: v in inner ==> v in outer)
  {
    if outer != [] && inner == [] {
      assert MatchesDimension(inner, Longer(outer)) && !MatchesDimension(outer, Longer(outer));
    } else if outer != [] && Narrows(inner, outer) {
      forall v | v in inner ensures v in outer {
        assert MatchesDimension(inner, v);
      }
    }
  }

  // A string that is not in the list.
  function Longer(values: seq<string>): (r: string)
    ensures r !in values
    ensures forall v :: v in values ==> |v| < |r|
  {
    if values == [] then "x"
    else
      var rest := Longer(values[1..]);
      if |values[0]| < |rest| then rest else values[0] + "x"
  }

  /** A token's scope allows no contract that the issuing scope refuses exactly when the issuing scope is global
      or has no entity, or its entity is trimmed and each of its lists survives. */
  lemma TokenScopeWithinIssuingScopeIff(s: Scope)
    ensures (forall c :: AllowsContract(ClaimsScope(s), c) ==> AllowsContract(s, c)) <==> ScopeSurvives(s)
  {
    if s.global || Trim(s.legalEntityId) == "" {
      return;
    }
    ListSurvivesIff(s.storeIds);
    ListSurvivesIff(s.regions);
    ListSurvivesIff(s.brands);
    TrimIdempotent(s.legalEntityId);
    WithinByDimension(ClaimsScope(s), s);
    hide ListSurvives, Narrows, Normalize, Trim, MatchesDimension;
  }

  predicate Clean(values: seq<string>) {
    forall v :: v in values ==> Trimmed(v) && v != ""
  }

  /** Issued from a scope whose entity and values are trimmed and not blank, a token never widens it. */
  lemma CleanScopeNeverWidens(s: Scope, c: Contract)
    requires TrimmedEntity(s) && Clean(s.storeIds) && Clean(s.regions) && Clean(s.brands)
    requires AllowsContract(ClaimsScope(s), c)
    ensures AllowsContract(s, c)
  {
    CleanSurvives(s.storeIds);
    CleanSurvives(s.regions);
    CleanSurvives(s.brands);
    TokenScopeWithinIssuingScopeIff(s);
  }

  lemma CleanSurvives(values: seq<string>)
    requires Clean(values)
    ensures ListSurvives(values)
  {
    if values != [] {
      assert values[0] in values;
      forall i | 0 <= i < |values| && FirstSpelling(values, i) ensures Trim(values[i]) in values {
        assert values[i] in values;
      }
    }
  }

  // For two restricted scopes with an entity, containment is containment of the entity and of each dimension.
  lemma WithinByDimension(inner: Scope, outer: Scope)
    requires !inner.global && !outer.global && inner.legalEntityId != "" && outer.legalEntityId != ""
    ensures (forall c :: AllowsContract(inner, c) ==> AllowsContract(outer, c)) <==>
            && inner.legalEntityId == outer.legalEntityId && Narrows(inner.storeIds, outer.storeIds)
            && Narrows(inner.regions, outer.regions) && Narrows(inner.brands, outer.brands)
  {
    if forall c :: AllowsContract(inner, c) ==> AllowsContract(outer, c) {
      var e, s, g, b := inner.legalEntityId, Pick(inner.storeIds), Pick(inner.regions), Pick(inner.brands);
      assert AllowsContract(inner, Contract(e, s, g, b));
      forall v | MatchesDimension(inner.storeIds, v) ensures MatchesDimension(outer.storeIds, v) {
        assert AllowsContract(inner, Contract(e, v, g, b));
      }
      forall v | MatchesDimension(inner.regions, v) ensures MatchesDimension(outer.regions, v) {
        assert AllowsContract(inner, Contract(e, s, v, b));
      }
      forall v | MatchesDimension(inner.brands, v) ensures MatchesDimension(outer.brands, v) {
        assert AllowsContract(inner, Contract(e, s, g, v));
      }
    }
  }

  // ----- the issuer -----

  // What one instance remembers, behind its mutex.
  datatype Local = Local(byJti: map<string, int>, runs: map<string, int>,
                         owners: map<string, string>, runOwners: map<string, string>)

  // The local half of isRevoked.
  predicate RevokedLocally(l: Local, c: Claims, now: int) {
    (c.runId in l.runs && l.runs[c.runId] <= now) || (c.id != "" && c.id in l.byJti && l.byJti[c.id] <= now)
  }

  predicate LiveJwt(c: Claims, now: int) {
    c.issuedAt <= now < c.expiresAt
  }

  // The narrow claims of one token: trimmed identities, normalised lists, the scope it delegates.
  function GrantedClaims(audience: string, request: IssueRequest, uuid: string, issuedAt: int, expiry: int): Claims {
    Claims(audience, uuid, Trim(request.userId), Trim(request.sessionId), Trim(request.runId),
           NumericDate(issuedAt), NumericDate(expiry),
           ClaimsScope(request.scope), Normalize(request.permissions), Normalize(request.allowedTools))
  }

  // Go's time.Duration, positive as NewIssuer demands.
  type Lifespan = t: int | 0 < t witness 1

  class Issuer {
    const audience: string
    const ttl: Lifespan
    const store: GrantStore.PostgresStore?
    var byJti: map<string, int>
    var runs: map<string, int>
    var owners: map<string, string>
    var runOwners: map<string, string>

    // Both arguments are checked by NewIssuer before an issuer exists.
    constructor (audience: string, ttl: Lifespan, store: GrantStore.PostgresStore?)
      requires Trim(audience) != ""
      ensures this.audience == Trim(audience) && this.ttl == ttl && this.store == store
      ensures byJti == map[] && runs == map[] && owners == map[] && runOwners == map[]
    {
      this.audience := Trim(audience);
      this.ttl := ttl;
      this.store := store;
      byJti, runs, owners, runOwners := map[], map[], map[], map[];
    }

    function Snapshot(): Local
      reads this
    {
      Local(byJti, runs, owners, runOwners)
    }

    predicate Issuable(request: IssueRequest) {
      && Trim(request.userId) != "" && Trim(request.runId) != ""
      && Normalize(request.allowedTools) != [] && Normalize(request.permissions) != []
      && request.ttl <= ttl
    }

    function Lifetime(request: IssueRequest): int {
      if request.ttl <= 0 then ttl else request.ttl
    }

    function Expiry(request: IssueRequest, issuedAt: int): int {
      issuedAt + Lifetime(request)
    }

    /** Signs claims for a run; uuid is fresh and issuedAt is the issuer's clock. */
    method Issue(request: IssueRequest, uuid: string, issuedAt: int, fault: GrantStore.Fault)
      returns (r: Result<Claims, Error>)
      modifies this, store
      ensures byJti == old(byJti) && runs == old(runs)
      ensures r.Ok? <==> Issuable(request) && (store == null || fault == GrantStore.NoFault)
      ensures r.Ok? <==>
                && Trim(request.userId) != "" && Trim(request.runId) != "" && request.ttl <= ttl
                && (exists tool :: tool in request.allowedTools && Trim(tool) != "")
                && (exists permission :: permission in request.permissions && Trim(permission) != "")
                && (store == null || fault == GrantStore.NoFault)
      ensures r.Ok? ==> r.value == GrantedClaims(audience, request, uuid, issuedAt, Expiry(request, issuedAt))
      ensures r.Ok? ==>
                && r.value.audience == audience && r.value.id == uuid && r.value.userId == Trim(request.userId)
                && r.value.sessionId == Trim(request.sessionId) && r.value.runId == Trim(request.runId)
                && r.value.permissions == Normalize(request.permissions) && r.value.allowedTools == Normalize(request.allowedTools)
                && r.value.scope == Scope(request.scope.global, Trim(request.scope.legalEntityId), Normalize(request.scope.storeIds),
                                          Normalize(request.scope.regions), Normalize(request.scope.brands), [], [], [])
      ensures r.Ok? ==>
                var expiry := issuedAt + if request.ttl <= 0 then ttl else request.ttl;
                && r.value.issuedAt <= issuedAt < r.value.issuedAt + 1_000_000_000 && r.value.issuedAt % 1_000_000_000 == 0
                && r.value.expiresAt <= expiry < r.value.expiresAt + 1_000_000_000 && r.value.expiresAt % 1_000_000_000 == 0
                && (store != null ==> uuid == Trim(uuid) ==> uuid in store.rows && store.rows[uuid].expiresAt == expiry)
      ensures r.Ok? ==> owners == old(owners)[uuid := r.value.userId] && runOwners == old(runOwners)[r.value.runId := r.value.userId]
      ensures r.Ok? && store != null ==>
        store.rows == GrantStore.Registered(old(store.rows), uuid, r.value.runId, r.value.userId, Expiry(request, issuedAt))
      ensures r.Err? ==> owners == old(owners) && runOwners == old(runOwners)
      ensures r.Err? && store != null && fault != GrantStore.LostAfter ==> store.rows == old(store.rows)
    {
      hide Trim, Normalize, NumericDate;
      NormalizedIsEmptyIff(request.allowedTools);
      NormalizedIsEmptyIff(request.permissions);
      WholeSeconds(issuedAt);
      WholeSeconds(Expiry(request, issuedAt));
      var userId, runId := Trim(request.userId), Trim(request.runId);
      if userId == "" {
        return Err(InvalidRequest);
      }
      if runId == "" {
        return Err(RunBindingMissing);
      }
      var allowedTools := NormalizeLoop(request.allowedTools);
      if allowedTools == [] {
        return Err(InvalidRequest);
      }
      var permissions := NormalizeLoop(request.permissions);
      if permissions == [] {
        return Err(InvalidRequest);
      }
      if Lifetime(request) > ttl {
        return Err(InvalidRequest);
      }
      var claims := GrantedClaims(audience, request, uuid, issuedAt, Expiry(request, issuedAt));
      if store != null {
        var ok := store.Register(claims.id, claims.runId, claims.userId, Expiry(request, issuedAt), fault);
        if !ok {
          return Err(StoreFailed);
        }
      }
      owners := owners[claims.id := claims.userId];
      runOwners := runOwners[claims.runId := claims.userId];
      r := Ok(claims);
    }

    /** Accepts a token, reading the clock once for the JWT dates and once for the revocation check. */
    method Parse(token: Token, jwtNow: int, now: int, fault: GrantStore.Fault) returns (r: Result<Claims, Error>)
      ensures r.Ok? <==> && token.Genuine? && token.claims.audience == audience && LiveJwt(token.claims, jwtNow)
                         && token.claims.userId != "" && token.claims.runId != ""
                         && token.claims.allowedTools != [] && token.claims.permissions != []
                         && !RevokedLocally(Snapshot(), token.claims, now)
                         && (store != null ==> && fault == GrantStore.NoFault
                                               && !GrantStore.IsRevoked(store.rows, token.claims.id, token.claims.runId, now))
      ensures r.Ok? <==> && token.Genuine? && token.claims.audience == audience
                         && token.claims.issuedAt <= jwtNow < token.claims.expiresAt
                         && "" !in {token.claims.userId, token.claims.runId}
                         && [] !in {token.claims.allowedTools, token.claims.permissions}
                         && !(token.claims.runId in runs && runs[token.claims.runId] <= now)
                         && !(token.claims.id != "" && token.claims.id in byJti && byJti[token.claims.id] <= now)
                         && (store != null ==>
                              && fault == GrantStore.NoFault
                              && forall id ::
                                   id in store.rows && (id == Trim(token.claims.id) || store.rows[id].runId == Trim(token.claims.runId))
                                   ==> now < store.rows[id].expiresAt && store.rows[id].revokedAt.None?)
      ensures r.Ok? ==> r.value == token.claims
      ensures r.Err? ==> r.error == InvalidToken
    {
      if token.Forged? {
        return Err(InvalidToken);
      }
      var c := token.claims;
      if c.audience != audience || !LiveJwt(c, jwtNow) {
        return Err(InvalidToken);
      }
      if c.userId == "" || c.runId == "" || c.allowedTools == [] || c.permissions == [] {
        return Err(InvalidToken);
      }
      if (c.runId in runs && runs[c.runId] <= now) || (c.id != "" && c.id in byJti && byJti[c.id] <= now) {
        return Err(InvalidToken);
      }
      if store != null {
        var looked := store.Lookup(c.id, c.runId, now, fault);
        // A failed lookup fails closed.
        if looked.Err? || looked.value {
          return Err(InvalidToken);
        }
      }
      r := Ok(c);
    }

    /** Marks the token in this instance at markedAt, then persists the revocation; the statement runs at now. */
    method RevokeToken(tokenId: string, markedAt: int, readAt: int, now: int, fault: GrantStore.Fault)
      returns (r: Result<(), Error>)
      modifies this, store
      ensures runs == old(runs) && owners == old(owners) && runOwners == old(runOwners)
      ensures Trim(tokenId) == "" ==> r == Err(InvalidToken) && byJti == old(byJti) && (store != null ==> store.rows == old(store.rows))
      ensures Trim(tokenId) != "" ==>
        && byJti == old(byJti)[Trim(tokenId) := markedAt]
        && (r.Ok? <==> store == null || fault == GrantStore.NoFault)
        && (store != null ==>
              store.rows == if fault == GrantStore.LostBefore then old(store.rows)
                            else GrantStore.TokenRevoked(old(store.rows), Trim(tokenId),
                                                         if Trim(tokenId) in owners then owners[Trim(tokenId)] else "", readAt + ttl, now))
    {
      hide Trim, GrantStore.TokenRevoked;
      var id := Trim(tokenId);
      if id == "" {
        return Err(InvalidToken);
      }
      byJti := byJti[id := markedAt];
      var owner := if id in owners then owners[id] else "";
      if store != null {
        var ok := store.RevokeToken(id, owner, readAt + ttl, now, fault);
        if !ok {
          return Err(StoreFailed);
        }
      }
      r := Ok(());
    }

    method RevokeRun(runId: string, markedAt: int, readAt: int, now: int, fault: GrantStore.Fault)
      returns (r: Result<(), Error>)
      modifies this, store
      ensures byJti == old(byJti) && owners == old(owners) && runOwners == old(runOwners)
      ensures Trim(runId) == "" ==> r == Err(RunBindingMissing) && runs == old(runs) && (store != null ==> store.rows == old(store.rows))
      ensures Trim(runId) != "" ==>
        && runs == old(runs)[Trim(runId) := markedAt]
        && (r.Ok? <==> store == null || fault == GrantStore.NoFault)
        && (store != null ==>
              store.rows == if fault == GrantStore.LostBefore then old(store.rows)
                            else GrantStore.RunRevoked(old(store.rows), Trim(runId),
                                                       if Trim(runId) in runOwners then runOwners[Trim(runId)] else "", readAt + ttl, now))
    {
      hide Trim, GrantStore.RunRevoked;
      var id := Trim(runId);
      if id == "" {
        return Err(RunBindingMissing);
      }
      runs := runs[id := markedAt];
      var owner := if id in runOwners then runOwners[id] else "";
      if store != null {
        var ok := store.RevokeRun(id, owner, readAt + ttl, now, fault);
        if !ok {
          return Err(StoreFailed);
        }
      }
      r := Ok(());
    }

    /** Revokes a run on behalf of a user, who must be its owner; nothing changes otherwise. */
    method RevokeRunForUser(runId: string, userId: string, markedAt: int, readAt: int, now: int,
                            loadFault: GrantStore.Fault, fault: GrantStore.Fault)
      returns (r: Result<(), Error>)
      modifies this, store
      ensures byJti == old(byJti) && owners == old(owners) && runOwners == old(runOwners)
      ensures runs != old(runs) || (store != null && store.rows != old(store.rows)) ==> Trim(userId) != "" && Trim(runId) != ""
      ensures var id, user := Trim(runId), Trim(userId);
              runs != old(runs) || (store != null && store.rows != old(store.rows)) ==>
                if id in runOwners && runOwners[id] != "" then runOwners[id] == user
                else store != null && GrantStore.IsRunOwner(old(store.rows), id, user)
      ensures r.Ok? ==> Trim(runId) in runs && runs == old(runs)[Trim(runId) := markedAt]
      ensures r.Ok? && store != null ==>
        store.rows == GrantStore.RunRevoked(old(store.rows), Trim(runId),
                                            if Trim(runId) in runOwners then runOwners[Trim(runId)] else "", readAt + ttl, now)
    {
      TrimIdempotent(runId);
      if Trim(runId) == "" || Trim(userId) == "" {
        return Err(RunBindingMissing);
      }
      var owner := if Trim(runId) in runOwners then runOwners[Trim(runId)] else "";
      if owner == "" && store != null {
        if loadFault != GrantStore.NoFault {
          return Err(StoreFailed);
        }
        owner := store.RunOwner(Trim(runId));
      }
      if owner == "" || owner != Trim(userId) {
        return Err(RunBindingMissing);
      }
      r := RevokeRun(runId, markedAt, readAt, now, fault);
    }
  }
}
