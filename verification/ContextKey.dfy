/** The isolation key of an agent's context, and its cache string. */
module ContextKey {
  import opened Text
  import opened TextSort
  import opened Wrappers

  datatype Scope = Scope(
    global: bool, legalEntityId: string,
    storeIds: seq<string>, regions: seq<string>, brands: seq<string>,
    plants: seq<string>, lines: seq<string>, equipment: seq<string>)

  datatype Principal = Principal(userId: string, scope: Scope)

  datatype Key = Key(entity: string, user: string, session: string, fingerprint: string, classification: string, global: bool)

  // ----- joining and splitting -----

  function Join(parts: seq<string>, separator: char): string {
    if parts == [] then ""
    else if |parts| == 1 then parts[0]
    else parts[0] + [separator] + Join(parts[1..], separator)
  }

  function Split(s: string, separator: char): (r: seq<string>)
    ensures r != []
  {
    if s == "" then [""]
    else if s[0] == separator then [""] + Split(s[1..], separator)
    else
      var rest := Split(s[1..], separator);
      [[s[0]] + rest[0]] + rest[1..]
  }

  predicate Free(s: string, c: char) {
    c !in s
  }

  lemma {:induction false} SplitPrefix(head: string, tail: string, separator: char)
    requires Free(head, separator)
    ensures Split(head + [separator] + tail, separator) == [head] + Split(tail, separator)
  {
    var s := head + [separator] + tail;
    if head == "" {
      assert s[1..] == tail;
    } else {
      SplitPrefix(head[1..], tail, separator);
      assert head[0] in head;
      assert s[1..] == head[1..] + [separator] + tail;
      assert [head[0]] + head[1..] == head;
    }
  }

  lemma {:induction false} SplitWhole(s: string, separator: char)
    requires Free(s, separator)
    ensures Split(s, separator) == [s]
  {
    if s != "" {
      assert s[0] in s;
      SplitWhole(s[1..], separator);
      assert [s[0]] + s[1..] == s;
    }
  }

  /** Parts without the separator are recovered from their join. */
  lemma {:induction false} SplitUndoesJoin(parts: seq<string>, separator: char)
    requires parts != [] && forall p :: p in parts ==> Free(p, separator)
    ensures Split(Join(parts, separator), separator) == parts
  {
    assert parts[0] in parts;
    if |parts| == 1 {
      SplitWhole(parts[0], separator);
    } else {
      SplitUndoesJoin(parts[1..], separator);
      SplitPrefix(parts[0], Join(parts[1..], separator), separator);
      assert [parts[0]] + parts[1..] == parts;
    }
  }

  /** A join inside a join with the same separator flattens. */
  lemma {:induction false} JoinsFlatten(before: seq<string>, inner: seq<string>, after: seq<string>, separator: char)
    requires inner != []
    ensures Join(before + [Join(inner, separator)] + after, separator) == Join(before + inner + after, separator)
  {
    if before == [] {
      JoinHead(inner, after, separator);
      assert [] + inner + after == inner + after;
      assert [] + [Join(inner, separator)] + after == [Join(inner, separator)] + after;
    } else {
      JoinsFlatten(before[1..], inner, after, separator);
      var a, b := before + [Join(inner, separator)] + after, before + inner + after;
      assert a[1..] == before[1..] + [Join(inner, separator)] + after;
      assert b[1..] == before[1..] + inner + after;
    }
  }

  lemma {:induction false} JoinHead(inner: seq<string>, after: seq<string>, separator: char)
    requires inner != []
    ensures Join([Join(inner, separator)] + after, separator) == Join(inner + after, separator)
  {
    if |inner| == 1 {
      assert inner == [inner[0]];
    } else if after == [] {
      assert inner + after == inner;
    } else {
      JoinHead(inner[1..], after, separator);
      var rest := Join(inner[1..], separator);
      assert (inner + after)[1..] == inner[1..] + after;
      assert ([Join(inner, separator)] + after)[1..] == after;
      assert ([rest] + after)[1..] == after;
      assert Join([Join(inner, separator)] + after, separator) == (inner[0] + [separator] + rest) + [separator] + Join(after, separator);
      assert Join([rest] + after, separator) == rest + [separator] + Join(after, separator);
      assert inner[0] + [separator] + (rest + [separator] + Join(after, separator))
          == (inner[0] + [separator] + rest) + [separator] + Join(after, separator);
    }
  }

  // ----- the fingerprint and the key -----

  const WITHIN := '\U{001F}'
  const BETWEEN := '\U{001E}'

  function Bool(b: bool): string {
    if b then "global=true" else "global=false"
  }

  function SortedJoin(values: seq<string>): string {
    if values == [] then "" else Join(SortStrings(values), WITHIN)
  }

  function FingerprintParts(s: Scope): seq<string> {
    [Bool(s.global), "legal=" + s.legalEntityId,
     "stores=" + SortedJoin(s.storeIds), "regions=" + SortedJoin(s.regions), "brands=" + SortedJoin(s.brands),
     "plants=" + SortedJoin(s.plants), "lines=" + SortedJoin(s.lines), "equipment=" + SortedJoin(s.equipment)]
  }

  function Fingerprint(s: Scope): string {
    Join(FingerprintParts(s), BETWEEN)
  }

  predicate Classified(classification: string) {
    classification == "production" || classification == "simulated" || classification == "mixed"
  }

  /** A key needs a legal entity or a global scope, a user, a session and a known classification. */
  function KeyFrom(p: Principal, sessionId: string, classification: string): Option<Key> {
    var entity := Trim(p.scope.legalEntityId);
    if !p.scope.global && entity == "" then None
    else if Trim(p.userId) == "" then None
    else if Trim(sessionId) == "" then None
    else if !Classified(classification) then None
    else Some(Key(if p.scope.global then "" else entity, Trim(p.userId), Trim(sessionId), Fingerprint(p.scope), classification, p.scope.global))
  }

  function Cache(k: Key): string {
    Join([k.classification, k.entity, k.user, k.session, k.fingerprint, Bool(k.global)], BETWEEN)
  }

  /** When there is a key, and what it says. */
  lemma KeyFromIff(p: Principal, sessionId: string, classification: string)
    ensures KeyFrom(p, sessionId, classification).Some? <==>
              && (p.scope.global || Trim(p.scope.legalEntityId) != "") && Trim(p.userId) != "" && Trim(sessionId) != ""
              && classification in {"production", "simulated", "mixed"}
    ensures KeyFrom(p, sessionId, classification).Some? ==>
              var k := KeyFrom(p, sessionId, classification).value;
              && k.entity == (if p.scope.global then "" else Trim(p.scope.legalEntityId)) && k.user == Trim(p.userId)
              && k.session == Trim(sessionId) && k.fingerprint == Fingerprint(p.scope)
              && k.classification == classification && k.global == p.scope.global
  {
    hide Trim, Fingerprint;
  }

  /** The cache string and the fingerprint, part by part. */
  lemma CacheText(k: Key)
    ensures Cache(k) == k.classification + "\U{001E}" + (k.entity + "\U{001E}" + (k.user + "\U{001E}" + (k.session + "\U{001E}"
                        + (k.fingerprint + "\U{001E}" + if k.global then "global=true" else "global=false"))))
  {
    var last := Bool(k.global);
    OneMorePart(k.fingerprint, [last]);
    OneMorePart(k.session, [k.fingerprint, last]);
    OneMorePart(k.user, [k.session, k.fingerprint, last]);
    OneMorePart(k.entity, [k.user, k.session, k.fingerprint, last]);
    OneMorePart(k.classification, [k.entity, k.user, k.session, k.fingerprint, last]);
    hide Join;
  }

  lemma OneMorePart(part: string, rest: seq<string>)
    requires rest != []
    ensures Join([part] + rest, BETWEEN) == part + "\U{001E}" + Join(rest, BETWEEN)
    ensures |rest| == 1 ==> Join(rest, BETWEEN) == rest[0]
  {
    assert ([part] + rest)[1..] == rest;
  }

  lemma FingerprintText(s: Scope)
    ensures Fingerprint(s) == (if s.global then "global=true" else "global=false")
                              + "\U{001E}" + ("legal=" + s.legalEntityId
                              + "\U{001E}" + ("stores=" + SortedJoin(s.storeIds)
                              + "\U{001E}" + ("regions=" + SortedJoin(s.regions)
                              + "\U{001E}" + ("brands=" + SortedJoin(s.brands)
                              + "\U{001E}" + ("plants=" + SortedJoin(s.plants)
                              + "\U{001E}" + ("lines=" + SortedJoin(s.lines)
                              + "\U{001E}" + ("equipment=" + SortedJoin(s.equipment))))))))
  {
    var p := FingerprintParts(s);
    hide SortedJoin;
    OneMorePart(p[6], p[7..]);
    OneMorePart(p[5], p[6..]);
    OneMorePart(p[4], p[5..]);
    OneMorePart(p[3], p[4..]);
    OneMorePart(p[2], p[3..]);
    OneMorePart(p[1], p[2..]);
    OneMorePart(p[0], p[1..]);
    assert p == [p[0]] + p[1..] && p[1..] == [p[1]] + p[2..] && p[2..] == [p[2]] + p[3..] && p[3..] == [p[3]] + p[4..]
        && p[4..] == [p[4]] + p[5..] && p[5..] == [p[5]] + p[6..] && p[6..] == [p[6]] + p[7..] && p[7..] == [p[7]];
  }

  lemma SortedJoinText(values: seq<string>)
    ensures SortedJoin(values) == Join(SortStrings(values), '\U{001F}')
  {
    assert SortStrings([]) == [];
  }

  // An identifier that the separators cannot confuse.
  predicate Clean(id: string) {
    Free(id, BETWEEN) && Free(id, WITHIN)
  }

  predicate CleanList(ids: seq<string>) {
    forall id | id in ids :: id != "" && Clean(id)
  }

  predicate CleanScope(s: Scope) {
    && Clean(s.legalEntityId)
    && CleanList(s.storeIds) && CleanList(s.regions) && CleanList(s.brands)
    && CleanList(s.plants) && CleanList(s.lines) && CleanList(s.equipment)
  }

  // The scopes agree, each list up to order.
  predicate SameScope(a: Scope, b: Scope) {
    && a.global == b.global && a.legalEntityId == b.legalEntityId
    && multiset(a.storeIds) == multiset(b.storeIds) && multiset(a.regions) == multiset(b.regions)
    && multiset(a.brands) == multiset(b.brands) && multiset(a.plants) == multiset(b.plants)
    && multiset(a.lines) == multiset(b.lines) && multiset(a.equipment) == multiset(b.equipment)
  }

  lemma SameElementsSameJoin(a: seq<string>, b: seq<string>)
    requires multiset(a) == multiset(b)
    ensures SortedJoin(a) == SortedJoin(b)
  {
    SortedEqualIffSameElements(a, b);
    assert |multiset(a)| == |a| && |multiset(b)| == |b|;
  }

  lemma JoinOfCleanIsNotEmpty(a: seq<string>)
    requires CleanList(a) && a != []
    ensures SortedJoin(a) != ""
  {
    SortedElements(a);
    assert SortStrings(a)[0] in SortStrings(a);
  }

  lemma SameJoinSameElements(a: seq<string>, b: seq<string>)
    requires CleanList(a) && CleanList(b) && SortedJoin(a) == SortedJoin(b)
    ensures multiset(a) == multiset(b)
  {
    SortedElements(a);
    SortedElements(b);
    if a == [] || b == [] {
      if a != [] { JoinOfCleanIsNotEmpty(a); }
      if b != [] { JoinOfCleanIsNotEmpty(b); }
      assert a == b;
    } else {
      SplitUndoesJoin(SortStrings(a), WITHIN);
      SplitUndoesJoin(SortStrings(b), WITHIN);
      SortedEqualIffSameElements(a, b);
    }
  }

  lemma {:induction false} JoinIsFree(parts: seq<string>, separator: char, c: char)
    requires separator != c && forall p :: p in parts ==> Free(p, c)
    ensures Free(Join(parts, separator), c)
  {
    if parts != [] {
      assert parts[0] in parts;
      if |parts| > 1 {
        JoinIsFree(parts[1..], separator, c);
      }
    }
  }

  lemma SortedJoinIsFree(values: seq<string>)
    requires CleanList(values)
    ensures Free(SortedJoin(values), BETWEEN)
  {
    SortedElements(values);
    JoinIsFree(SortStrings(values), WITHIN, BETWEEN);
  }

  lemma Labelled(name: string, a: string, b: string)
    ensures name + a == name + b <==> a == b
    ensures Free(name, BETWEEN) && Free(a, BETWEEN) ==> Free(name + a, BETWEEN)
  {
    if name + a == name + b {
      assert (name + a)[|name|..] == a && (name + b)[|name|..] == b;
    }
  }

  // All thirteen parts of a cache string, flattened.
  function Parts(k: Key, s: Scope): seq<string> {
    [k.classification, k.entity, k.user, k.session] + FingerprintParts(s) + [Bool(k.global)]
  }

  lemma CacheIsFlat(k: Key, s: Scope)
    requires k.fingerprint == Fingerprint(s)
    ensures Cache(k) == Join(Parts(k, s), BETWEEN)
  {
    var before, after := [k.classification, k.entity, k.user, k.session], [Bool(k.global)];
    JoinsFlatten(before, FingerprintParts(s), after, BETWEEN);
    assert before + [Fingerprint(s)] + after == [k.classification, k.entity, k.user, k.session, k.fingerprint, Bool(k.global)];
  }

  predicate CleanKey(k: Key, s: Scope) {
    && k.fingerprint == Fingerprint(s) && CleanScope(s)
    && Classified(k.classification) && Clean(k.entity) && Clean(k.user) && Clean(k.session)
  }

  lemma FingerprintPartsAreFree(s: Scope)
    requires CleanScope(s)
    ensures forall p :: p in FingerprintParts(s) ==> Free(p, BETWEEN)
  {
    SortedJoinIsFree(s.storeIds);
    SortedJoinIsFree(s.regions);
    SortedJoinIsFree(s.brands);
    SortedJoinIsFree(s.plants);
    SortedJoinIsFree(s.lines);
    SortedJoinIsFree(s.equipment);
  }

  lemma PartsAreFree(k: Key, s: Scope)
    requires CleanKey(k, s)
    ensures forall p :: p in Parts(k, s) ==> Free(p, BETWEEN)
  {
    FingerprintPartsAreFree(s);
  }

  lemma PartsDecide(k: Key, s: Scope, k': Key, s': Scope)
    requires CleanKey(k, s) && CleanKey(k', s') && Parts(k, s) == Parts(k', s')
    ensures k.classification == k'.classification && k.entity == k'.entity && k.user == k'.user && k.session == k'.session
    ensures k.global == k'.global && SameScope(s, s')
  {
    var a, b := Parts(k, s), Parts(k', s');
    assert a[0] == b[0] && a[1] == b[1] && a[2] == b[2] && a[3] == b[3] && a[12] == b[12];
    var f, g := FingerprintParts(s), FingerprintParts(s');
    assert f == a[4..12] && g == b[4..12];
    FingerprintDecides(s, s');
  }

  lemma FingerprintDecides(s: Scope, s': Scope)
    requires CleanScope(s) && CleanScope(s') && FingerprintParts(s) == FingerprintParts(s')
    ensures SameScope(s, s')
  {
    var f, g := FingerprintParts(s), FingerprintParts(s');
    assert forall i :: 0 <= i < 8 ==> f[i] == g[i];
    Labelled("legal=", s.legalEntityId, s'.legalEntityId);
    ListDecides("stores=", s.storeIds, s'.storeIds);
    ListDecides("regions=", s.regions, s'.regions);
    ListDecides("brands=", s.brands, s'.brands);
    ListDecides("plants=", s.plants, s'.plants);
    ListDecides("lines=", s.lines, s'.lines);
    ListDecides("equipment=", s.equipment, s'.equipment);
  }

  lemma ListDecides(name: string, a: seq<string>, b: seq<string>)
    requires CleanList(a) && CleanList(b)
    ensures name + SortedJoin(a) == name + SortedJoin(b) ==> multiset(a) == multiset(b)
  {
    Labelled(name, SortedJoin(a), SortedJoin(b));
    if SortedJoin(a) == SortedJoin(b) {
      SameJoinSameElements(a, b);
    }
  }

  /** The order of the lists never matters, for any identifiers at all. */
  lemma CacheIsCanonical(k: Key, s: Scope, s': Scope)
    requires SameScope(s, s')
    ensures Cache(k.(fingerprint := Fingerprint(s))) == Cache(k.(fingerprint := Fingerprint(s')))
  {
    SameElementsSameJoin(s.storeIds, s'.storeIds);
    SameElementsSameJoin(s.regions, s'.regions);
    SameElementsSameJoin(s.brands, s'.brands);
    SameElementsSameJoin(s.plants, s'.plants);
    SameElementsSameJoin(s.lines, s'.lines);
    SameElementsSameJoin(s.equipment, s'.equipment);
  }

  /** Two keys made from clean identifiers share a cache string exactly when every dimension agrees and the
      scopes agree up to the order of their lists. */
  lemma CacheEqualIffSameContext(p: Principal, session: string, kind: string, p': Principal, session': string, kind': string)
    requires KeyFrom(p, session, kind).Some? && KeyFrom(p', session', kind').Some?
    requires CleanKey(KeyFrom(p, session, kind).value, p.scope) && CleanKey(KeyFrom(p', session', kind').value, p'.scope)
    ensures Cache(KeyFrom(p, session, kind).value) == Cache(KeyFrom(p', session', kind').value) <==>
      Trim(p.userId) == Trim(p'.userId) && Trim(session) == Trim(session') && kind == kind' && SameScope(p.scope, p'.scope)
  {
    var k, k' := KeyFrom(p, session, kind).value, KeyFrom(p', session', kind').value;
    CacheIsFlat(k, p.scope);
    CacheIsFlat(k', p'.scope);
    if Cache(k) == Cache(k') {
      PartsAreFree(k, p.scope);
      PartsAreFree(k', p'.scope);
      SplitUndoesJoin(Parts(k, p.scope), BETWEEN);
      SplitUndoesJoin(Parts(k', p'.scope), BETWEEN);
      PartsDecide(k, p.scope, k', p'.scope);
    }
    if Trim(p.userId) == Trim(p'.userId) && Trim(session) == Trim(session') && kind == kind' && SameScope(p.scope, p'.scope) {
      CacheIsCanonical(k, p.scope, p'.scope);
    }
  }

  /** The keys of a caller whose identifiers hold neither separator, and whose lists hold no blank one, are clean. */
  lemma CleanCallersHaveCleanKeys(p: Principal, session: string, kind: string)
    requires KeyFrom(p, session, kind).Some?
    requires forall id :: id in [p.scope.legalEntityId, p.userId, session] ==> '\U{001E}' !in id && '\U{001F}' !in id
    requires forall id ::
               id in p.scope.storeIds || id in p.scope.regions || id in p.scope.brands
               || id in p.scope.plants || id in p.scope.lines || id in p.scope.equipment
               ==> id != "" && '\U{001E}' !in id && '\U{001F}' !in id
    ensures CleanKey(KeyFrom(p, session, kind).value, p.scope)
  {
    var ids := [p.scope.legalEntityId, p.userId, session];
    assert ids[0] in ids && ids[1] in ids && ids[2] in ids;
    TrimTakesAway(p.scope.legalEntityId);
    TrimTakesAway(p.userId);
    TrimTakesAway(session);
    hide Trim, Fingerprint;
  }

  lemma TrimTakesAway(s: string)
    ensures forall c :: c in Trim(s) ==> c in s
  {
    TrimMeaning(s);
    var i: nat, j: nat :| Surrounds(s, i, j) && Trim(s) == s[i..j];
    hide Trim;
  }

  /** Outside clean identifiers the fingerprint confuses scopes: no store with one blank store, and two stores
      with one whose id contains the separator. */
  lemma UncleanIdentifiersCollide(s: Scope)
    ensures Fingerprint(s.(storeIds := [])) == Fingerprint(s.(storeIds := [""]))
    ensures Fingerprint(s.(storeIds := ["a", "b"])) == Fingerprint(s.(storeIds := ["a" + [WITHIN] + "b"]))
  {
    assert SortStrings([""]) == [""];
    assert SortStrings(["a", "b"]) == ["a", "b"] by {
      assert ["a", "b"][1..] == ["b"] && ["b"][1..] == [];
      assert SortStrings(["b"]) == ["b"];
    }
    assert Join(["a", "b"], WITHIN) == "a" + [WITHIN] + "b" by {
      assert ["a", "b"][1..] == ["b"];
    }
    assert SortStrings(["a" + [WITHIN] + "b"]) == ["a" + [WITHIN] + "b"];
  }
}
