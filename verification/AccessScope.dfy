/** Data-access scopes: which contracts a scope allows and how two scopes are intersected. */
module AccessScope {
  import opened Text
  import opened Wrappers

  datatype Scope = Scope(
    global: bool,
    legalEntityId: string,
    storeIds: seq<string>,
    regions: seq<string>,
    brands: seq<string>,
    plants: seq<string>,
    productionLines: seq<string>,
    equipmentIds: seq<string>)

  datatype Contract = Contract(legalEntityId: string, storeId: string, region: string, brand: string)

  predicate MatchesDimension(allowed: seq<string>, actual: string) {
    allowed == [] || actual in allowed
  }

  predicate AllowsContract(s: Scope, c: Contract) {
    s.global
    || (&& s.legalEntityId != ""
        && c.legalEntityId == s.legalEntityId
        && MatchesDimension(s.storeIds, c.storeId)
        && MatchesDimension(s.regions, c.region)
        && MatchesDimension(s.brands, c.brand))
  }

  // ----- one dimension -----

  // The elements of left that also occur in right, first occurrences only, in left's order.
  function Common(left: seq<string>, right: seq<string>): seq<string> {
    if left == [] then []
    else
      var rest := Common(left[..|left| - 1], right);
      var last := left[|left| - 1];
      if last in right && last !in rest then rest + [last] else rest
  }

  // An empty list means "not restricted"; two restrictions with nothing in common fail.
  function IntersectDimension(left: seq<string>, right: seq<string>): Option<seq<string>> {
    if left == [] then Some(right)
    else if right == [] then Some(left)
    else
      var both := Common(left, right);
      if both == [] then None else Some(both)
  }

  lemma {:induction false} CommonMembers(left: seq<string>, right: seq<string>)
    ensures forall v :: v in Common(left, right) <==> v in left && v in right
  {
    if left != [] {
      var init, last := left[..|left| - 1], left[|left| - 1];
      assert left == init + [last];
      CommonMembers(init, right);
      forall v ensures v in Common(left, right) <==> v in left && v in right {
        assert v in left <==> v in init || v == last;
      }
    }
  }

  /** The loop with its lookup set and its seen set. */
  method IntersectDimensionLoop(left: seq<string>, right: seq<string>) returns (r: Option<seq<string>>)
    ensures r == IntersectDimension(left, right)
  {
    if |left| == 0 {
      return Some(right);
    }
    if |right| == 0 {
      return Some(left);
    }
    var rightSet: set<string> := {};
    for i := 0 to |right|
      invariant forall v :: v in rightSet <==> v in right[..i]
    {
      rightSet := rightSet + {right[i]};
    }
    assert right[..|right|] == right;
    var result: seq<string> := [];
    var seen: set<string> := {};
    for i := 0 to |left|
      invariant result == Common(left[..i], right)
      invariant forall v :: v in seen <==> v in result
    {
      assert left[..i + 1][..i] == left[..i];
      if left[i] in rightSet && left[i] !in seen {
        seen := seen + {left[i]};
        result := result + [left[i]];
      }
    }
    assert left[..|left|] == left;
    r := if |result| > 0 then Some(result) else None;
  }

  // What a dimension admits: everything when it is empty, its members otherwise.
  lemma DimensionMeaning(left: seq<string>, right: seq<string>)
    ensures match IntersectDimension(left, right)
            case Some(d) => forall v :: MatchesDimension(d, v) <==> MatchesDimension(left, v) && MatchesDimension(right, v)
            case None => forall v :: !(MatchesDimension(left, v) && MatchesDimension(right, v))
  {
    CommonMembers(left, right);
    if left != [] && right != [] && Common(left, right) == [] {
      forall v ensures !(v in left && v in right) {
        assert v !in Common(left, right);
      }
    }
  }

  // ----- whole scopes -----

  // A restricted scope, unless one of its dimensions failed.
  function Restricted(entity: string, stores: Option<seq<string>>, regions: Option<seq<string>>,
                      brands: Option<seq<string>>, plants: Option<seq<string>>,
                      lines: Option<seq<string>>, equipment: Option<seq<string>>): Option<Scope>
  {
    if stores.None? || regions.None? || brands.None? || plants.None? || lines.None? || equipment.None? then None
    else Some(Scope(false, entity, stores.value, regions.value, brands.value, plants.value, lines.value, equipment.value))
  }

  function IntersectScopes(left: Scope, right: Scope): Option<Scope> {
    if left.global then
      if right.global || Trim(right.legalEntityId) != "" then Some(right) else None
    else if right.global then
      if Trim(left.legalEntityId) != "" then Some(left) else None
    else
      var l, r := Trim(left.legalEntityId), Trim(right.legalEntityId);
      if l == "" || r == "" || l != r then None
      else
        Restricted(l, IntersectDimension(left.storeIds, right.storeIds), IntersectDimension(left.regions, right.regions),
                   IntersectDimension(left.brands, right.brands), IntersectDimension(left.plants, right.plants),
                   IntersectDimension(left.productionLines, right.productionLines),
                   IntersectDimension(left.equipmentIds, right.equipmentIds))
  }

  predicate TrimmedEntity(s: Scope) {
    Trimmed(s.legalEntityId)
  }

  // Both operands are restricted and one of the three dimensions that contracts do not have is disjoint.
  predicate MachineDimensionsDisjoint(left: Scope, right: Scope) {
    && !left.global && !right.global
    && (|| IntersectDimension(left.plants, right.plants).None?
        || IntersectDimension(left.productionLines, right.productionLines).None?
        || IntersectDimension(left.equipmentIds, right.equipmentIds).None?)
  }

  lemma AllDimensionMeanings(left: Scope, right: Scope)
    ensures match IntersectScopes(left, right)
            case None => true
            case Some(r) => !left.global && !right.global ==>
              (forall c: Contract :: MatchesDimension(r.storeIds, c.storeId) && MatchesDimension(r.regions, c.region)
                                     && MatchesDimension(r.brands, c.brand) <==>
                                     && MatchesDimension(left.storeIds, c.storeId) && MatchesDimension(right.storeIds, c.storeId)
                                     && MatchesDimension(left.regions, c.region) && MatchesDimension(right.regions, c.region)
                                     && MatchesDimension(left.brands, c.brand) && MatchesDimension(right.brands, c.brand))
  {
    DimensionMeaning(left.storeIds, right.storeIds);
    DimensionMeaning(left.regions, right.regions);
    DimensionMeaning(left.brands, right.brands);
  }

  /** A successful intersection allows exactly the contracts that both operands allow. */
  lemma IntersectionIsConjunction(left: Scope, right: Scope, c: Contract)
    requires TrimmedEntity(left) && TrimmedEntity(right)
    requires IntersectScopes(left, right).Some?
    ensures AllowsContract(IntersectScopes(left, right).value, c) <==> AllowsContract(left, c) && AllowsContract(right, c)
  {
    AllDimensionMeanings(left, right);
  }

  // Two lists restrict a dimension together: one that is empty restricts nothing, and two others need a common value.
  ghost predicate Meet(a: seq<string>, b: seq<string>) {
    a == [] || b == [] || exists v :: v in a && v in b
  }

  ghost predicate IsMeet(a: seq<string>, b: seq<string>, r: seq<string>) {
    if a == [] then r == b
    else if b == [] then r == a
    else r != [] && forall v :: v in r <==> v in a && v in b
  }

  lemma DimensionMeets(a: seq<string>, b: seq<string>)
    ensures IntersectDimension(a, b).Some? <==> Meet(a, b)
    ensures IntersectDimension(a, b).Some? ==> IsMeet(a, b, IntersectDimension(a, b).value)
  {
    CommonMembers(a, b);
    if Common(a, b) != [] {
      assert Common(a, b)[0] in Common(a, b);
    }
    if v :| v in a && v in b {
      assert v in Common(a, b);
    }
  }

  /** Two restricted scopes have an intersection exactly when they name the same entity and each of the six
      dimensions has a common value or is left open by one of them; each list of the result is the meet of the two
      lists of its own dimension. */
  lemma RestrictedIntersection(left: Scope, right: Scope)
    requires !left.global && !right.global
    ensures IntersectScopes(left, right).Some? <==>
              && Trim(left.legalEntityId) == Trim(right.legalEntityId) != ""
              && Meet(left.storeIds, right.storeIds) && Meet(left.regions, right.regions) && Meet(left.brands, right.brands)
              && Meet(left.plants, right.plants) && Meet(left.productionLines, right.productionLines)
              && Meet(left.equipmentIds, right.equipmentIds)
    ensures IntersectScopes(left, right).Some? ==>
              var r := IntersectScopes(left, right).value;
              && !r.global && r.legalEntityId == Trim(left.legalEntityId)
              && IsMeet(left.storeIds, right.storeIds, r.storeIds) && IsMeet(left.regions, right.regions, r.regions)
              && IsMeet(left.brands, right.brands, r.brands) && IsMeet(left.plants, right.plants, r.plants)
              && IsMeet(left.productionLines, right.productionLines, r.productionLines)
              && IsMeet(left.equipmentIds, right.equipmentIds, r.equipmentIds)
  {
    DimensionMeets(left.storeIds, right.storeIds);
    DimensionMeets(left.regions, right.regions);
    DimensionMeets(left.brands, right.brands);
    DimensionMeets(left.plants, right.plants);
    DimensionMeets(left.productionLines, right.productionLines);
    DimensionMeets(left.equipmentIds, right.equipmentIds);
    hide Meet, IsMeet, IntersectDimension, Trim;
  }

  /** A global operand restricts nothing: the result is the other one, unless that is restricted to no entity. */
  lemma GlobalIntersection(left: Scope, right: Scope)
    requires left.global || right.global
    ensures var other := if left.global then right else left;
            IntersectScopes(left, right) == if other.global || Trim(other.legalEntityId) != "" then Some(other) else None
  {
  }

  /** What an intersection of restricted scopes allows, by the lists of its operands: the contracts of the common
      entity whose store, region and brand each operand lists in that very dimension, or leaves open. */
  lemma IntersectionAllowsExactly(left: Scope, right: Scope, c: Contract)
    requires !left.global && !right.global && TrimmedEntity(left) && TrimmedEntity(right)
    requires IntersectScopes(left, right).Some?
    ensures AllowsContract(IntersectScopes(left, right).value, c) <==>
              && c.legalEntityId == left.legalEntityId == right.legalEntityId
              && (left.storeIds != [] ==> c.storeId in left.storeIds) && (right.storeIds != [] ==> c.storeId in right.storeIds)
              && (left.regions != [] ==> c.region in left.regions) && (right.regions != [] ==> c.region in right.regions)
              && (left.brands != [] ==> c.brand in left.brands) && (right.brands != [] ==> c.brand in right.brands)
  {
    RestrictedIntersection(left, right);
    hide IntersectScopes, Trim;
  }

  /** A restricted scope refuses a contract for its store, its region, its brand or its entity alone. */
  lemma OneDimensionRefuses(s: Scope, c: Contract)
    requires !s.global
    ensures AllowsContract(s, c) <==> && !(s.legalEntityId == "" || c.legalEntityId != s.legalEntityId)
                                      && !(s.storeIds != [] && c.storeId !in s.storeIds)
                                      && !(s.regions != [] && c.region !in s.regions)
                                      && !(s.brands != [] && c.brand !in s.brands)
  {
  }

  /** A failed intersection of trimmed scopes means no contract is allowed by both, unless the
      failure comes from a plant, production-line or equipment list. */
  lemma FailureMeansNothingShared(left: Scope, right: Scope, c: Contract)
    requires TrimmedEntity(left) && TrimmedEntity(right)
    requires IntersectScopes(left, right).None?
    requires !MachineDimensionsDisjoint(left, right)
    ensures !(AllowsContract(left, c) && AllowsContract(right, c))
  {
    DimensionMeaning(left.storeIds, right.storeIds);
    DimensionMeaning(left.regions, right.regions);
    DimensionMeaning(left.brands, right.brands);
    if left.global || right.global {
      assert TrimLeft("") == "";
    }
  }

  // Two restricted scopes of one entity whose store, region and brand lists all meet.
  predicate ContractDimensionsMeet(left: Scope, right: Scope) {
    && !left.global && !right.global && left.legalEntityId == right.legalEntityId != ""
    && IntersectDimension(left.storeIds, right.storeIds).Some?
    && IntersectDimension(left.regions, right.regions).Some?
    && IntersectDimension(left.brands, right.brands).Some?
  }

  /** A failed intersection still leaves contracts that both operands allow exactly when only the lists that
      contracts do not have were disjoint. */
  lemma FailureSharesContractsIff(left: Scope, right: Scope)
    requires TrimmedEntity(left) && TrimmedEntity(right)
    requires IntersectScopes(left, right).None?
    ensures (exists c :: AllowsContract(left, c) && AllowsContract(right, c)) <==> ContractDimensionsMeet(left, right)
  {
    DimensionMeaning(left.storeIds, right.storeIds);
    DimensionMeaning(left.regions, right.regions);
    DimensionMeaning(left.brands, right.brands);
    if ContractDimensionsMeet(left, right) {
      var c := Contract(left.legalEntityId, Pick(IntersectDimension(left.storeIds, right.storeIds).value),
                        Pick(IntersectDimension(left.regions, right.regions).value), Pick(IntersectDimension(left.brands, right.brands).value));
      assert AllowsContract(left, c) && AllowsContract(right, c);
    }
    if left.global || right.global {
      assert Trim("") == "";
    }
  }

  /** The entity names are trimmed before they are compared, so an untrimmed operand is widened:
      the result stays within a restricted left operand exactly when that operand's entity is trimmed. */
  lemma StaysWithinLeftIffTrimmed(left: Scope, right: Scope)
    requires !left.global && !right.global
    requires IntersectScopes(left, right).Some?
    ensures (forall c :: AllowsContract(IntersectScopes(left, right).value, c) ==> AllowsContract(left, c))
            <==> TrimmedEntity(left)
  {
    var r := IntersectScopes(left, right).value;
    AllDimensionMeanings(left, right);
    var sample := Contract(r.legalEntityId, Pick(r.storeIds), Pick(r.regions), Pick(r.brands));
    assert AllowsContract(r, sample);
    if TrimmedEntity(left) {
      forall c | AllowsContract(r, c) ensures AllowsContract(left, c) {
        assert MatchesDimension(r.storeIds, c.storeId) && MatchesDimension(r.regions, c.region) && MatchesDimension(r.brands, c.brand);
      }
    }
  }

  // Some value that the dimension admits.
  function Pick(d: seq<string>): (v: string)
    ensures MatchesDimension(d, v)
  {
    if d == [] then "" else d[0]
  }

  // ----- algebra, up to the order and the repetitions inside a list -----

  ghost predicate SameList(a: seq<string>, b: seq<string>) {
    forall v :: v in a <==> v in b
  }

  // Lists of a global scope restrict nothing, so they do not matter.
  ghost predicate SameScope(a: Scope, b: Scope) {
    || (a.global && b.global)
    || (&& !a.global && !b.global && a.legalEntityId == b.legalEntityId
        && SameList(a.storeIds, b.storeIds) && SameList(a.regions, b.regions) && SameList(a.brands, b.brands)
        && SameList(a.plants, b.plants) && SameList(a.productionLines, b.productionLines)
        && SameList(a.equipmentIds, b.equipmentIds))
  }

  ghost predicate SameDimension(a: Option<seq<string>>, b: Option<seq<string>>) {
    (a.None? && b.None?) || (a.Some? && b.Some? && SameList(a.value, b.value))
  }

  ghost predicate SameOutcome(a: Option<Scope>, b: Option<Scope>) {
    (a.None? && b.None?) || (a.Some? && b.Some? && SameScope(a.value, b.value))
  }

  function BindDimension(a: Option<seq<string>>, b: Option<seq<string>>): Option<seq<string>> {
    if a.Some? && b.Some? then IntersectDimension(a.value, b.value) else None
  }

  function Bind(a: Option<Scope>, b: Option<Scope>): Option<Scope> {
    if a.Some? && b.Some? then IntersectScopes(a.value, b.value) else None
  }

  lemma DimensionCommutes(a: seq<string>, b: seq<string>)
    ensures SameDimension(IntersectDimension(a, b), IntersectDimension(b, a))
  {
    CommonMembers(a, b);
    CommonMembers(b, a);
    if a != [] && b != [] {
      if Common(a, b) != [] { assert Common(a, b)[0] in Common(b, a); }
      if Common(b, a) != [] { assert Common(b, a)[0] in Common(a, b); }
    }
  }

  // What decides an intersection: whether it exists and which values it admits.
  lemma DimensionByMembers(a: seq<string>, b: seq<string>)
    requires a != [] && b != []
    ensures IntersectDimension(a, b).Some? <==> exists v :: v in a && v in b
    ensures IntersectDimension(a, b).Some? ==> IntersectDimension(a, b).value != []
    ensures IntersectDimension(a, b).Some? ==> forall v :: v in IntersectDimension(a, b).value <==> v in a && v in b
  {
    CommonMembers(a, b);
    if Common(a, b) != [] {
      assert Common(a, b)[0] in Common(a, b);
    }
  }

  lemma DimensionAssociates(a: seq<string>, b: seq<string>, c: seq<string>)
    ensures SameDimension(BindDimension(IntersectDimension(a, b), Some(c)), BindDimension(Some(a), IntersectDimension(b, c)))
  {
    if a != [] && b != [] && c != [] {
      DimensionByMembers(a, b);
      DimensionByMembers(b, c);
      var ab, bc := IntersectDimension(a, b), IntersectDimension(b, c);
      if ab.Some? { DimensionByMembers(ab.value, c); }
      if bc.Some? { DimensionByMembers(a, bc.value); }
    } else if a != [] && c != [] {
      DimensionByMembers(a, c);
    }
  }

  /** Intersection does not depend on the order of its operands, failures included. */
  lemma IntersectionCommutes(a: Scope, b: Scope)
    ensures SameOutcome(IntersectScopes(a, b), IntersectScopes(b, a))
  {
    hide IntersectDimension, Trim;
    DimensionCommutes(a.storeIds, b.storeIds);
    DimensionCommutes(a.regions, b.regions);
    DimensionCommutes(a.brands, b.brands);
    DimensionCommutes(a.plants, b.plants);
    DimensionCommutes(a.productionLines, b.productionLines);
    DimensionCommutes(a.equipmentIds, b.equipmentIds);
  }

  predicate EntitiesAgree(a: Scope, b: Scope) {
    Trim(a.legalEntityId) == Trim(b.legalEntityId) != ""
  }

  lemma GroupedLeft(a: Scope, b: Scope, c: Scope)
    requires !a.global && !b.global && !c.global && EntitiesAgree(a, b) && EntitiesAgree(b, c)
    ensures Bind(IntersectScopes(a, b), Some(c)) ==
            Restricted(Trim(a.legalEntityId),
                       BindDimension(IntersectDimension(a.storeIds, b.storeIds), Some(c.storeIds)),
                       BindDimension(IntersectDimension(a.regions, b.regions), Some(c.regions)),
                       BindDimension(IntersectDimension(a.brands, b.brands), Some(c.brands)),
                       BindDimension(IntersectDimension(a.plants, b.plants), Some(c.plants)),
                       BindDimension(IntersectDimension(a.productionLines, b.productionLines), Some(c.productionLines)),
                       BindDimension(IntersectDimension(a.equipmentIds, b.equipmentIds), Some(c.equipmentIds)))
  {
    TrimIdempotent(a.legalEntityId);
  }

  lemma GroupedRight(a: Scope, b: Scope, c: Scope)
    requires !a.global && !b.global && !c.global && EntitiesAgree(a, b) && EntitiesAgree(b, c)
    ensures Bind(Some(a), IntersectScopes(b, c)) ==
            Restricted(Trim(a.legalEntityId),
                       BindDimension(Some(a.storeIds), IntersectDimension(b.storeIds, c.storeIds)),
                       BindDimension(Some(a.regions), IntersectDimension(b.regions, c.regions)),
                       BindDimension(Some(a.brands), IntersectDimension(b.brands, c.brands)),
                       BindDimension(Some(a.plants), IntersectDimension(b.plants, c.plants)),
                       BindDimension(Some(a.productionLines), IntersectDimension(b.productionLines, c.productionLines)),
                       BindDimension(Some(a.equipmentIds), IntersectDimension(b.equipmentIds, c.equipmentIds)))
  {
    TrimIdempotent(b.legalEntityId);
  }

  lemma RestrictedAssociates(a: Scope, b: Scope, c: Scope)
    requires !a.global && !b.global && !c.global && EntitiesAgree(a, b) && EntitiesAgree(b, c)
    ensures SameOutcome(Bind(IntersectScopes(a, b), Some(c)), Bind(Some(a), IntersectScopes(b, c)))
  {
    GroupedLeft(a, b, c);
    GroupedRight(a, b, c);
    DimensionAssociates(a.storeIds, b.storeIds, c.storeIds);
    DimensionAssociates(a.regions, b.regions, c.regions);
    DimensionAssociates(a.brands, b.brands, c.brands);
    DimensionAssociates(a.plants, b.plants, c.plants);
    DimensionAssociates(a.productionLines, b.productionLines, c.productionLines);
    DimensionAssociates(a.equipmentIds, b.equipmentIds, c.equipmentIds);
  }

  /** Intersecting three scopes gives the same outcome however they are grouped, failures included. */
  lemma IntersectionAssociates(a: Scope, b: Scope, c: Scope)
    ensures SameOutcome(Bind(IntersectScopes(a, b), Some(c)), Bind(Some(a), IntersectScopes(b, c)))
  {
    TrimIdempotent(a.legalEntityId);
    TrimIdempotent(b.legalEntityId);
    if !a.global && !b.global && !c.global {
      if EntitiesAgree(a, b) && EntitiesAgree(b, c) {
        RestrictedAssociates(a, b, c);
      }
    }
  }
}
