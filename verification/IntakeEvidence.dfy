/** Evidence for intake drafts: the model proposes quotes, the document adapter owns the locators. */
module IntakeEvidence {
  import opened Text
  import opened Wrappers
  import opened IntakeValue

  datatype Locator = Locator(field: string, source: string, page: Option<int>, coordinates: seq<real>, quote: string)

  datatype Proposal = Proposal(field: string, quote: string, page: Option<int>)

  // ----- quotes -----

  function Squeezed(s: string): string {
    if s == "" then "" else (if IsSpace(s[0]) then "" else [s[0]]) + Squeezed(s[1..])
  }

  function Normalized(s: string): string {
    Lower(Squeezed(s))
  }

  // Containment either way.
  predicate QuoteMatches(candidate: string, source: string) {
    var left, right := Normalized(candidate), Normalized(source);
    left != "" && right != "" && (Contains(left, right) || Contains(right, left))
  }

  lemma {:induction false} SqueezedConcat(a: string, b: string)
    ensures Squeezed(a + b) == Squeezed(a) + Squeezed(b)
  {
    hide IsSpace;
    if a == "" {
      assert a + b == b;
    } else {
      var head := if IsSpace(a[0]) then "" else [a[0]];
      SqueezedConcat(a[1..], b);
      assert (a + b)[1..] == a[1..] + b && (a + b)[0] == a[0];
      assert head + (Squeezed(a[1..]) + Squeezed(b)) == (head + Squeezed(a[1..])) + Squeezed(b);
    }
  }

  /** All space is left out, and nothing else. */
  lemma SqueezedMeaning(a: string, c: char, b: string)
    ensures Squeezed("") == ""
    ensures Squeezed(a + [c] + b) == Squeezed(a) + (if IsSpace(c) then "" else [c]) + Squeezed(b)
  {
    SqueezedConcat(a + [c], b);
    SqueezedConcat(a, [c]);
    assert [c][1..] == "";
  }

  /** Quotes match when, without space and in lower case, neither is blank and one occurs in the other. */
  lemma QuotesMatchIff(candidate: string, source: string)
    ensures var left, right := Lower(Squeezed(candidate)), Lower(Squeezed(source));
            QuoteMatches(candidate, source) <==>
              && left != "" && right != ""
              && ((exists i: nat :: OccursAt(left, right, i)) || exists i: nat :: OccursAt(right, left, i))
  {
    hide Lower, Squeezed, Contains, OccursAt;
    ContainsMeaning(Lower(Squeezed(candidate)), Lower(Squeezed(source)));
    ContainsMeaning(Lower(Squeezed(source)), Lower(Squeezed(candidate)));
  }

  lemma LowerConcat(a: string, b: string)
    ensures Lower(a + b) == Lower(a) + Lower(b)
  {
  }

  lemma {:induction false} ContainsInside(before: string, part: string, after: string)
    ensures Contains(before + part + after, part)
  {
    var s := before + part + after;
    if before == "" {
      assert s[..|part|] == part;
    } else {
      ContainsInside(before[1..], part, after);
      assert s[1..] == before[1..] + part + after;
    }
  }

  lemma {:induction false} ContainedIsNotLonger(s: string, part: string)
    requires Contains(s, part)
    ensures |part| <= |s|
    ensures |part| == |s| ==> part == s
  {
    if !(part <= s) {
      ContainedIsNotLonger(s[1..], part);
    }
  }

  /** A quote that matches occurs in the source, up to space and case, exactly when it is not longer than it. */
  lemma MatchOccursInSourceIff(candidate: string, source: string)
    requires QuoteMatches(candidate, source)
    ensures Contains(Normalized(source), Normalized(candidate)) <==> |Normalized(candidate)| <= |Normalized(source)|
  {
    var left, right := Normalized(candidate), Normalized(source);
    hide Normalized;
    if Contains(right, left) {
      ContainedIsNotLonger(right, left);
    } else {
      ContainedIsNotLonger(left, right);
      if |left| == |right| {
        ContainsInside("", left, "");
      }
    }
  }

  /** A proposed quote need not occur in the source: any text around the source's own quote is anchored too, and
      then the quote occurs in the source only when that text is blank. */
  lemma QuoteMayExceedSource(before: string, source: string, after: string)
    requires Normalized(source) != ""
    ensures QuoteMatches(before + source + after, source)
    ensures Contains(Normalized(source), Normalized(before + source + after)) <==> Normalized(before) == "" && Normalized(after) == ""
  {
    SqueezedConcat(before + source, after);
    SqueezedConcat(before, source);
    LowerConcat(Squeezed(before) + Squeezed(source), Squeezed(after));
    LowerConcat(Squeezed(before), Squeezed(source));
    hide Lower, Squeezed, Contains;
    assert Normalized(before + source + after) == Normalized(before) + Normalized(source) + Normalized(after);
    ContainsInside(Normalized(before), Normalized(source), Normalized(after));
    MatchOccursInSourceIff(before + source + after, source);
  }

  // ----- resolving proposals -----

  // The proposed items: a list, or an object that holds one.
  function Proposed(raw: Json): seq<Json> {
    if Field(raw, "items").List? then Field(raw, "items").items
    else if Field(raw, "locators").List? then Field(raw, "locators").items
    else if raw.List? then raw.items
    else []
  }

  function ProposalOf(k: Reader, item: Json): Option<Proposal> {
    var field, quote := Trim(ToString(k, Field(item, "field"))), Trim(ToString(k, Field(item, "quote")));
    if !item.Object? || field == "" || quote == "" then None
    else Some(Proposal(field, quote, OptionalInt(k, Field(item, "page"))))
  }

  /** Where the proposed items are, and what each says. */
  lemma ProposedItems(raw: Json)
    ensures Proposed(raw) ==
            if raw.Object? && "items" in raw.fields && raw.fields["items"].List? then raw.fields["items"].items
            else if raw.Object? && "locators" in raw.fields && raw.fields["locators"].List? then raw.fields["locators"].items
            else if raw.List? then raw.items else []
  {
  }

  lemma ProposalIff(k: Reader, item: Json)
    ensures var field, quote := Trim(ToString(k, Field(item, "field"))), Trim(ToString(k, Field(item, "quote")));
            && (ProposalOf(k, item).Some? <==> item.Object? && field != "" && quote != "")
            && (ProposalOf(k, item).Some? ==>
                  ProposalOf(k, item).value == Proposal(field, quote, OptionalInt(k, Field(item, "page"))))
  {
    hide Trim, ToString, OptionalInt;
  }

  // The adapter's locator backs the proposal.
  predicate Backs(a: Locator, p: Proposal) {
    (p.page.Some? ==> a.page == p.page) && QuoteMatches(p.quote, a.quote)
  }

  function FirstBacking(available: seq<Locator>, p: Proposal): Option<Locator> {
    if available == [] then None
    else if Backs(available[0], p) then Some(available[0])
    else FirstBacking(available[1..], p)
  }

  function Resolved(k: Reader, available: seq<Locator>, item: Json): Option<Locator> {
    var p := ProposalOf(k, item);
    if p.None? then None
    else
      var a := FirstBacking(available, p.value);
      if a.None? then None
      else Some(Locator(p.value.field, a.value.source, a.value.page, a.value.coordinates, p.value.quote))
  }

  // A locator that copies its source, page and coordinates from an adapter's locator, whose quote matches its own.
  predicate Anchored(available: seq<Locator>, l: Locator) {
    && l.field != "" && l.quote != ""
    && exists a | a in available ::
         l.source == a.source && l.page == a.page && l.coordinates == a.coordinates && QuoteMatches(l.quote, a.quote)
  }

  lemma {:induction false} BackingIsAvailable(available: seq<Locator>, p: Proposal)
    ensures FirstBacking(available, p).Some? ==> FirstBacking(available, p).value in available && Backs(FirstBacking(available, p).value, p)
    ensures FirstBacking(available, p).None? ==> forall a :: a in available ==> !Backs(a, p)
  {
    hide Backs;
    if available != [] && !Backs(available[0], p) {
      BackingIsAvailable(available[1..], p);
      assert available == [available[0]] + available[1..];
    }
  }

  lemma {:induction false} FirstOneBacks(available: seq<Locator>, p: Proposal) returns (i: nat)
    requires FirstBacking(available, p).Some?
    ensures i < |available| && available[i] == FirstBacking(available, p).value
    ensures (p.page.Some? ==> available[i].page == p.page) && QuoteMatches(p.quote, available[i].quote)
    ensures forall j :: 0 <= j < i ==> (p.page.Some? && available[j].page != p.page) || !QuoteMatches(p.quote, available[j].quote)
  {
    hide QuoteMatches;
    if Backs(available[0], p) {
      i := 0;
    } else {
      var n := FirstOneBacks(available[1..], p);
      i := n + 1;
      forall j | 0 <= j < i ensures (p.page.Some? && available[j].page != p.page) || !QuoteMatches(p.quote, available[j].quote) {
        assert j > 0 ==> available[j] == available[1..][j - 1];
      }
    }
  }

  /** An item's locator has its own field and quote, and the source, page and coordinates of the first of the adapter's
      locators on its page, if it names one, whose quote matches. There is none exactly when there is no such locator. */
  lemma ResolvedCopiesFirstMatch(k: Reader, available: seq<Locator>, item: Json) returns (i: nat)
    ensures var field, quote, page := Trim(ToString(k, Field(item, "field"))), Trim(ToString(k, Field(item, "quote"))),
                                      OptionalInt(k, Field(item, "page"));
            if Resolved(k, available, item).Some? then
              && item.Object? && field != "" && quote != "" && i < |available|
              && (page == None || available[i].page == page) && QuoteMatches(quote, available[i].quote)
              && (forall j :: 0 <= j < i ==> (page != None && available[j].page != page) || !QuoteMatches(quote, available[j].quote))
              && Resolved(k, available, item).value
                 == Locator(field, available[i].source, available[i].page, available[i].coordinates, quote)
            else
              item.Object? && field != "" && quote != "" ==>
                forall a :: a in available ==> (page != None && a.page != page) || !QuoteMatches(quote, a.quote)
  {
    hide Trim, ToString, OptionalInt, QuoteMatches;
    i := 0;
    if ProposalOf(k, item).Some? {
      var p := ProposalOf(k, item).value;
      BackingIsAvailable(available, p);
      if FirstBacking(available, p).Some? {
        i := FirstOneBacks(available, p);
      }
    }
  }

  /** The model cannot manufacture evidence: an item yields a locator exactly when it proposes a field and a
      quote that some adapter locator backs, and then the locator is anchored. */
  lemma ResolvedIffBacked(k: Reader, available: seq<Locator>, item: Json)
    ensures Resolved(k, available, item).Some? <==>
      ProposalOf(k, item).Some? && exists a :: a in available && Backs(a, ProposalOf(k, item).value)
    ensures Resolved(k, available, item).Some? ==> Anchored(available, Resolved(k, available, item).value)
  {
    hide QuoteMatches, Trim, ToString, OptionalInt;
    if ProposalOf(k, item).Some? {
      BackingIsAvailable(available, ProposalOf(k, item).value);
    }
  }

  /** A resolved quote occurs in the source quote it was anchored to exactly when it is not longer: the adapter's
      locator is the first one that backs the proposal. */
  lemma ResolvedQuoteOccursIff(k: Reader, available: seq<Locator>, item: Json)
    requires Resolved(k, available, item).Some?
    ensures ProposalOf(k, item).Some? && FirstBacking(available, ProposalOf(k, item).value).Some?
    ensures var l, a := Resolved(k, available, item).value, FirstBacking(available, ProposalOf(k, item).value).value;
            && a in available && l.quote == ProposalOf(k, item).value.quote
            && (Contains(Normalized(a.quote), Normalized(l.quote)) <==> |Normalized(l.quote)| <= |Normalized(a.quote)|)
  {
    BackingIsAvailable(available, ProposalOf(k, item).value);
    hide Trim, ToString, OptionalInt, Contains, Normalized;
    MatchOccursInSourceIff(ProposalOf(k, item).value.quote, FirstBacking(available, ProposalOf(k, item).value).value.quote);
  }

  // Later locators replace earlier ones with the same key.
  function Key(l: Locator): string {
    l.field + "|" + l.source + "|" + l.quote
  }

  function ResolvedAll(k: Reader, available: seq<Locator>, items: seq<Json>): seq<Locator> {
    if items == [] then []
    else
      var last := Resolved(k, available, items[|items| - 1]);
      ResolvedAll(k, available, items[..|items| - 1]) + if last.Some? then [last.value] else []
  }

  function ByKey(locators: seq<Locator>): map<string, Locator> {
    if locators == [] then map[]
    else
      var last := locators[|locators| - 1];
      ByKey(locators[..|locators| - 1])[Key(last) := last]
  }

  function Evidence(k: Reader, raw: Json, available: seq<Locator>): map<string, Locator> {
    if available == [] then map[] else ByKey(ResolvedAll(k, available, Proposed(raw)))
  }

  lemma {:induction false} ResolvedAllAnchored(k: Reader, available: seq<Locator>, items: seq<Json>)
    ensures forall l :: l in ResolvedAll(k, available, items) ==> Anchored(available, l)
  {
    if items != [] {
      hide Anchored, Resolved;
      ResolvedAllAnchored(k, available, items[..|items| - 1]);
      ResolvedIffBacked(k, available, items[|items| - 1]);
    }
  }

  lemma {:induction false} ByKeyMembers(locators: seq<Locator>)
    ensures forall key :: key in ByKey(locators) ==> ByKey(locators)[key] in locators && Key(ByKey(locators)[key]) == key
    ensures forall l :: l in locators ==> Key(l) in ByKey(locators)
  {
    if locators != [] {
      hide Key;
      ByKeyMembers(locators[..|locators| - 1]);
      assert locators == locators[..|locators| - 1] + [locators[|locators| - 1]];
    }
  }

  /** Of several locators for the same field, source and quote the last one counts. */
  lemma {:induction false} LastOfItsKeyCounts(locators: seq<Locator>, i: nat)
    requires i < |locators|
    requires forall j :: i < j < |locators| ==>
               locators[j].field + "|" + locators[j].source + "|" + locators[j].quote
               != locators[i].field + "|" + locators[i].source + "|" + locators[i].quote
    ensures var key := locators[i].field + "|" + locators[i].source + "|" + locators[i].quote;
            key in ByKey(locators) && ByKey(locators)[key] == locators[i]
  {
    var n := |locators| - 1;
    if i < n {
      var init := locators[..n];
      forall j | i < j < |init| ensures Key(init[j]) != Key(init[i]) {
        assert init[j] == locators[j];
      }
      LastOfItsKeyCounts(init, i);
      assert Key(locators[n]) != Key(locators[i]);
    }
  }

  /** Evidence is what the proposed items resolve to, in order; without locators of the adapter there is none. */
  lemma {:induction false} ItemsResolveInOrder(k: Reader, raw: Json, available: seq<Locator>, items: seq<Json>, item: Json)
    ensures ResolvedAll(k, available, []) == []
    ensures ResolvedAll(k, available, items + [item]) == ResolvedAll(k, available, items) +
              match Resolved(k, available, item) case Some(l) => [l] case None => []
    ensures Evidence(k, raw, available) == if available == [] then map[] else ByKey(ResolvedAll(k, available, Proposed(raw)))
  {
    hide Resolved, Proposed;
    assert (items + [item])[..|items|] == items;
  }

  /** All evidence is anchored. */
  lemma EvidenceIsAnchored(k: Reader, raw: Json, available: seq<Locator>)
    ensures forall key :: key in Evidence(k, raw, available) ==> Anchored(available, Evidence(k, raw, available)[key])
  {
    if available != [] {
      hide Anchored, Resolved, Key;
      ResolvedAllAnchored(k, available, Proposed(raw));
      ByKeyMembers(ResolvedAll(k, available, Proposed(raw)));
    }
  }

  method ResolveItems(k: Reader, items: seq<Json>, available: seq<Locator>) returns (resolved: seq<Locator>)
    ensures resolved == ResolvedAll(k, available, items)
  {
    resolved := [];
    for i := 0 to |items|
      invariant resolved == ResolvedAll(k, available, items[..i])
    {
      assert items[..i + 1][..i] == items[..i];
      var p := ProposalOf(k, items[i]);
      if p.None? {
        continue;
      }
      var j := 0;
      while j < |available| && !Backs(available[j], p.value)
        invariant 0 <= j <= |available|
        invariant FirstBacking(available, p.value) == FirstBacking(available[j..], p.value)
      {
        assert available[j..][1..] == available[j + 1..];
        j := j + 1;
      }
      if j < |available| {
        var a := available[j];
        resolved := resolved + [Locator(p.value.field, a.source, a.page, a.coordinates, p.value.quote)];
      }
    }
    assert items[..|items|] == items;
  }

  /** The resolved locators, without repetitions, in any order. */
  method ResolveEvidence(k: Reader, raw: Json, available: seq<Locator>) returns (out: seq<Locator>)
    ensures |out| == |Evidence(k, raw, available)|
    ensures forall l :: l in out <==> exists key :: key in Evidence(k, raw, available) && l == Evidence(k, raw, available)[key]
  {
    if available == [] {
      return [];
    }
    var resolved := ResolveItems(k, Proposed(raw), available);
    hide ResolvedAll, Key, Proposed;
    var unique: map<string, Locator> := map[];
    for i := 0 to |resolved|
      invariant unique == ByKey(resolved[..i])
    {
      assert resolved[..i + 1][..i] == resolved[..i];
      unique := unique[Key(resolved[i]) := resolved[i]];
    }
    assert resolved[..|resolved|] == resolved;
    out := Values(unique);
  }

  method Values(m: map<string, Locator>) returns (out: seq<Locator>)
    ensures |out| == |m|
    ensures forall l :: l in out <==> exists key :: key in m && l == m[key]
  {
    out := [];
    var left := m.Keys;
    while left != {}
      invariant left <= m.Keys && |out| + |left| == |m.Keys|
      invariant forall l :: l in out <==> exists key :: key in m && key !in left && l == m[key]
      decreases left
    {
      var key :| key in left;
      left := left - {key};
      ghost var before := out;
      out := out + [m[key]];
      assert forall l :: l in out <==> l in before || l == m[key];
    }
    assert |m.Keys| == |m|;
  }

  // ----- coverage -----

  // Some locator is for the field or for a part of it.
  predicate Covered(locators: seq<Locator>, field: string) {
    exists l | l in locators :: l.field != "" && (l.field == field || HasPrefix(l.field, field + "."))
  }

  /** Evidence covers the fields exactly when there are some of both and every field has a locator of its own. */
  method EvidenceCovers(locators: seq<Locator>, fields: seq<string>) returns (r: bool)
    ensures r <==> locators != [] && fields != [] && forall f :: f in fields ==> Covered(locators, f)
    ensures r <==> locators != [] && fields != [] && forall f :: f in fields ==>
                     exists l :: l in locators && l.field != "" && (l.field == f || f + "." <= l.field)
  {
    if |locators| == 0 || |fields| == 0 {
      return false;
    }
    var covered: set<string> := {};
    for i := 0 to |locators|
      invariant forall v :: v in covered <==> v != "" && exists j :: 0 <= j < i && locators[j].field == v
    {
      if locators[i].field != "" {
        covered := covered + {locators[i].field};
      }
    }
    CoveredFields(locators, covered);
    for i := 0 to |fields|
      invariant forall j :: 0 <= j < i ==> Covered(locators, fields[j])
    {
      if fields[i] in covered {
        continue;
      }
      var ok := exists v | v in covered :: HasPrefix(v, fields[i] + ".");
      if !ok {
        assert fields[i] in fields;
        return false;
      }
    }
    r := true;
  }

  lemma CoveredFields(locators: seq<Locator>, covered: set<string>)
    requires forall v :: v in covered <==> v != "" && exists j :: 0 <= j < |locators| && locators[j].field == v
    ensures forall f :: Covered(locators, f) <==> f in covered || exists v :: v in covered && HasPrefix(v, f + ".")
  {
    hide HasPrefix;
    forall f ensures Covered(locators, f) <==> f in covered || exists v :: v in covered && HasPrefix(v, f + ".") {
      if Covered(locators, f) {
        var l :| l in locators && l.field != "" && (l.field == f || HasPrefix(l.field, f + "."));
        var j :| 0 <= j < |locators| && locators[j] == l;
        assert l.field in covered;
      }
      if f in covered {
        var j :| 0 <= j < |locators| && locators[j].field == f;
        assert locators[j] in locators;
      } else if v :| v in covered && HasPrefix(v, f + ".") {
        var j :| 0 <= j < |locators| && locators[j].field == v;
        assert locators[j] in locators;
      }
    }
  }
}
