/** Which skill a request gets: the first of its candidates, sorted, however the registry is walked. */
module SkillRegistry {
  import opened Text
  import opened Wrappers
  import opened SkillVersion

  // drafts says that the skill declares a draft tool; complete that its other required parts are there.
  datatype Definition = Definition(
    id: string, version: string, aliases: seq<string>, roles: seq<string>, terms: seq<string>,
    priority: int, drafts: bool, complete: bool)

  // wantsDraft says that the message asks for a draft.
  datatype Intent = Intent(message: string, role: string, requestedId: string, requestedVersion: string, wantsDraft: bool)

  type Skills = map<string, map<string, Definition>>

  function Fold(s: string): string {
    Lower(Trim(s))
  }

  predicate RoleAllowed(roles: seq<string>, role: string) {
    var wanted := if Fold(role) == "user" then "editor" else Fold(role);
    exists r | r in roles :: Fold(r) == Fold(wanted)
  }

  predicate Matches(d: Definition, intent: Intent) {
    && (Trim(intent.role) != "" ==> RoleAllowed(d.roles, intent.role))
    && exists term | term in d.terms :: Contains(Fold(intent.message), Fold(term))
  }

  lemma FoldIdempotent(s: string)
    ensures Fold(Fold(s)) == Fold(s)
  {
    TrimIdempotent(s);
    var t := Trim(s);
    var i, j := 0, |t|;
    assert t == [] || (!IsSpace(t[0]) && !IsSpace(t[|t| - 1])) by {
      assert t == TrimRight(TrimLeft(s));
    }
    hide Trim, IsSpace;
    LowerKeepsTrimmed(t);
    forall k | 0 <= k < |t| ensures LowerChar(LowerChar(t[k])) == LowerChar(t[k]) {
    }
    assert Lower(Lower(t)) == Lower(t);
  }

  lemma LowerKeepsTrimmed(t: string)
    requires t == [] || (!IsSpace(t[0]) && !IsSpace(t[|t| - 1]))
    ensures Trim(Lower(t)) == Lower(t)
  {
    assert forall c :: IsSpace(LowerChar(c)) <==> IsSpace(c);
  }

  /** A role may use a skill when it is listed, up to space and case; a plain user counts as an editor. */
  lemma RoleAllowedIff(roles: seq<string>, role: string)
    ensures RoleAllowed(roles, role) <==>
              exists r :: r in roles && Lower(Trim(r)) == if Lower(Trim(role)) == "user" then "editor" else Lower(Trim(role))
  {
    FoldIdempotent(role);
    assert Fold("editor") == "editor" by {
      assert Trim("editor") == "editor" && Lower("editor") == "editor";
    }
    hide Trim, Lower;
  }

  /** A skill matches a message that contains one of its terms, up to space around them and case, for a role that may
      use it or for no role at all. */
  lemma MatchesIff(d: Definition, intent: Intent)
    ensures Matches(d, intent) <==>
              && (Trim(intent.role) == "" || RoleAllowed(d.roles, intent.role))
              && exists term, i: nat :: term in d.terms && OccursAt(Lower(Trim(intent.message)), Lower(Trim(term)), i)
  {
    forall term ensures Contains(Fold(intent.message), Fold(term)) <==>
                        exists i: nat :: OccursAt(Lower(Trim(intent.message)), Lower(Trim(term)), i)
    {
      ContainsMeaning(Fold(intent.message), Fold(term));
    }
    hide Trim, Lower, Contains, OccursAt, RoleAllowed;
  }

  // ----- the two orders candidates are sorted by -----

  datatype Order = ByVersion | ByFit(wantsDraft: bool)

  predicate Precedes(o: Order, a: Definition, b: Definition) {
    if o.ByFit? && o.wantsDraft && a.drafts != b.drafts then a.drafts
    else if o.ByFit? && a.priority != b.priority then a.priority > b.priority
    else if o.ByFit? && a.id != b.id then Less(a.id, b.id)
    else Compare(a.version, b.version) > 0
  }

  /** Which of two matching skills comes first: the one that drafts, when a draft is wanted; then the one with the higher
      priority, then the smaller id, then the newer version. */
  lemma FitOrder(wantsDraft: bool, a: Definition, b: Definition)
    ensures Precedes(ByFit(wantsDraft), a, b) <==>
              || (wantsDraft && a.drafts && !b.drafts)
              || ((wantsDraft ==> (a.drafts <==> b.drafts))
                  && (a.priority > b.priority
                      || (a.priority == b.priority && (Less(a.id, b.id) || (a.id == b.id && Compare(a.version, b.version) > 0)))))
  {
    LessIrreflexive(a.id);
    hide Compare, Less;
  }

  lemma PrecedesIsTransitive(o: Order, a: Definition, b: Definition, c: Definition)
    requires Precedes(o, a, b) && Precedes(o, b, c)
    ensures Precedes(o, a, c)
  {
    hide Compare;
    if a.id != b.id && b.id != c.id && Less(a.id, b.id) && Less(b.id, c.id) {
      LessTransitive(a.id, b.id, c.id);
      LessTrichotomy(a.id, c.id);
    }
    if Compare(a.version, b.version) > 0 && Compare(b.version, c.version) > 0 {
      CompareIsTransitive(a.version, b.version, c.version);
    }
  }

  lemma PrecedesIsIrreflexive(o: Order, a: Definition)
    ensures !Precedes(o, a, a)
  {
    hide Compare;
    CompareIsTotal(a.version, a.version);
  }

  // The stable sort: a candidate goes after all that it does not precede.
  function InsertStable(o: Order, s: seq<Definition>, d: Definition): (r: seq<Definition>)
    ensures r != []
  {
    if s == [] || Precedes(o, d, s[0]) then [d] + s else [s[0]] + InsertStable(o, s[1..], d)
  }

  function StableSort(o: Order, s: seq<Definition>): (r: seq<Definition>)
    ensures s != [] ==> r != []
  {
    if s == [] then [] else InsertStable(o, StableSort(o, s[..|s| - 1]), s[|s| - 1])
  }

  // The skill that is chosen.
  function First(o: Order, s: seq<Definition>): Definition
    requires s != []
  {
    StableSort(o, s)[0]
  }

  predicate Best(o: Order, s: seq<Definition>, d: Definition) {
    d in s && forall e | e in s :: !Precedes(o, e, d)
  }

  /** The chosen candidate is one that no other candidate precedes. */
  lemma {:induction false} FirstIsBest(o: Order, s: seq<Definition>)
    requires s != []
    ensures Best(o, s, First(o, s))
  {
    hide Precedes;
    var init, last := s[..|s| - 1], s[|s| - 1];
    assert s == init + [last];
    PrecedesIsIrreflexive(o, last);
    if init == [] {
      assert StableSort(o, init) == [];
    } else {
      FirstIsBest(o, init);
      var h := First(o, init);
      if Precedes(o, last, h) {
        forall e | e in init ensures !Precedes(o, e, last) {
          if Precedes(o, e, last) {
            PrecedesIsTransitive(o, e, last, h);
          }
        }
      }
    }
  }

  lemma {:induction false} EarliestBestIsFirst(o: Order, s: seq<Definition>)
    requires s != [] && Best(o, s, s[0])
    ensures First(o, s) == s[0]
  {
    hide Precedes;
    var init, last := s[..|s| - 1], s[|s| - 1];
    if init == [] {
      assert StableSort(o, init) == [];
    } else {
      assert forall e :: e in init ==> e in s;
      EarliestBestIsFirst(o, init);
      assert last in s;
    }
  }

  /** The choice is independent of the order in which the candidates were collected exactly when no two of
      them tie for the best place. */
  lemma ChoiceIsOrderFreeIffNoTie(o: Order, s: seq<Definition>)
    requires s != []
    ensures (forall q: seq<Definition> :: multiset(q) == multiset(s) && q != [] ==> First(o, q) == First(o, s))
       <==> (forall a, b :: Best(o, s, a) && Best(o, s, b) ==> a == b)
  {
    hide Precedes, First;
    FirstIsBest(o, s);
    if forall q: seq<Definition> :: multiset(q) == multiset(s) && q != [] ==> First(o, q) == First(o, s) {
      forall a, b | Best(o, s, a) && Best(o, s, b) ensures a == b {
        var qa := StartingWith(o, s, a);
        var qb := StartingWith(o, s, b);
      }
    }
    if forall a, b :: Best(o, s, a) && Best(o, s, b) ==> a == b {
      forall q: seq<Definition> | multiset(q) == multiset(s) && q != [] ensures First(o, q) == First(o, s) {
        FirstIsBest(o, q);
        SameMembersSameBest(o, q, s, First(o, q));
      }
    }
  }

  lemma SameMembersSameBest(o: Order, q: seq<Definition>, s: seq<Definition>, d: Definition)
    requires multiset(q) == multiset(s)
    ensures Best(o, q, d) <==> Best(o, s, d)
  {
    hide Precedes;
    assert forall e :: e in q <==> e in multiset(q);
    assert forall e :: e in s <==> e in multiset(s);
  }

  lemma StartingWith(o: Order, s: seq<Definition>, a: Definition) returns (q: seq<Definition>)
    requires s != [] && Best(o, s, a)
    ensures multiset(q) == multiset(s) && q != [] && First(o, q) == a
  {
    hide Precedes, First;
    var i :| 0 <= i < |s| && s[i] == a;
    q := [a] + (s[..i] + s[i + 1..]);
    assert s == s[..i] + [a] + s[i + 1..];
    assert multiset(q) == multiset(s);
    SameMembersSameBest(o, q, s, a);
    EarliestBestIsFirst(o, q);
  }

  // ----- the registry -----

  predicate Valid(d: Definition) {
    Trim(d.id) != "" && Trim(d.version) != "" && d.complete
  }

  // Register accepts the definition.
  predicate Registrable(skills: Skills, d: Definition) {
    Valid(d) && !(d.id in skills && d.version in skills[d.id])
  }

  predicate Filed(skills: Skills) {
    forall id, version | id in skills && version in skills[id] ::
      skills[id][version].id == id && skills[id][version].version == version
  }

  predicate Known(skills: Skills, d: Definition) {
    d.id in skills && d.version in skills[d.id] && skills[d.id][d.version] == d
  }

  predicate AnyAlias(versions: map<string, Definition>, wanted: string) {
    exists version | version in versions :: exists alias | alias in versions[version].aliases :: Fold(alias) == Fold(wanted)
  }

  predicate Named(skills: Skills, canonical: string, wanted: string) {
    canonical in skills && (canonical == Trim(wanted) || AnyAlias(skills[canonical], Trim(wanted)))
  }

  // What a lookup is over: all skills, or those a name and version ask for.
  datatype Query = All(intent: Intent) | Requested(id: string, version: string)

  predicate Candidate(skills: Skills, q: Query, d: Definition) {
    && Known(skills, d)
    && match q
       case All(intent) => Matches(d, intent)
       case Requested(id, version) => Named(skills, d.id, id) && (Trim(version) == "" || d.version == Trim(version))
  }

  function OrderOf(q: Query): Order {
    match q
    case All(intent) => ByFit(intent.wantsDraft)
    case Requested(_, _) => ByVersion
  }

  predicate Outcome(skills: Skills, q: Query, r: Option<Definition>) {
    match r
    case Some(d) => Candidate(skills, q, d) && forall id, version | id in skills && version in skills[id] ::
      Candidate(skills, q, skills[id][version]) ==> !Precedes(OrderOf(q), skills[id][version], d)
    case None => forall id, version | id in skills && version in skills[id] :: !Candidate(skills, q, skills[id][version])
  }

  /** With trimmed versions, and with one id behind a requested name, the outcome is the same for every walk of
      the maps. */
  lemma OutcomeIsUnique(skills: Skills, q: Query, a: Option<Definition>, b: Option<Definition>)
    requires Filed(skills) && Outcome(skills, q, a) && Outcome(skills, q, b)
    requires forall id, version :: id in skills && version in skills[id] ==> Trimmed(version)
    requires q.Requested? ==> forall i, j :: Named(skills, i, q.id) && Named(skills, j, q.id) ==> i == j
    ensures a == b
  {
    hide Compare, Matches, AnyAlias;
    if a.Some? && b.Some? {
      var x, y := a.value, b.value;
      assert Candidate(skills, q, skills[x.id][x.version]) && Candidate(skills, q, skills[y.id][y.version]);
      CompareIsTotal(x.version, y.version);
      LessTrichotomy(x.id, y.id);
      LessTrichotomy(y.id, x.id);
      assert x.id == y.id;
      assert Trimmed(x.version) && Trimmed(y.version);
    }
  }

  /** Registration accepts a version padded with space beside the same version without, and those tie: such
      candidates are chosen by the order of the walk. */
  lemma PaddedVersionsTie(skills: Skills, a: Definition)
    requires Trimmed(a.version) && Valid(a)
    ensures var b := a.(version := a.version + " ");
            && Registrable(skills, b) == !(b.id in skills && b.version in skills[b.id])
            && b.version != a.version && Trim(b.version) == a.version
            && !Precedes(ByVersion, a, b) && !Precedes(ByVersion, b, a)
  {
    hide Compare;
    var b := a.(version := a.version + " ");
    PaddingIsTrimmed(a.version);
    CompareIsTotal(a.version, b.version);
    assert |b.version| == |a.version| + 1;
  }

  lemma PaddingIsTrimmed(s: string)
    requires Trimmed(s)
    ensures Trim(s + " ") == s
  {
    if s == "" {
      assert TrimLeft(" ") == TrimLeft(" "[1..]) == "";
    } else {
      var left := TrimLeft(s);
      assert left != "" && Trim(s) == TrimRight(left);
      TrimNeverGrows(s);
      assert left == s;
      assert !IsSpace(s[0]) && TrimLeft(s + " ") == s + " ";
      assert (s + " ")[..|s|] == s;
    }
  }

  lemma {:induction false} TrimNeverGrows(s: string)
    ensures |TrimLeft(s)| <= |s| && (|TrimLeft(s)| == |s| ==> TrimLeft(s) == s)
    ensures |TrimRight(TrimLeft(s))| <= |TrimLeft(s)|
  {
    if s != "" && IsSpace(s[0]) {
      TrimNeverGrows(s[1..]);
    }
    RightNeverGrows(TrimLeft(s));
  }

  lemma {:induction false} RightNeverGrows(s: string)
    ensures |TrimRight(s)| <= |s|
  {
    if s != "" && IsSpace(s[|s| - 1]) {
      RightNeverGrows(s[..|s| - 1]);
    }
  }

  // The skill is registered under the name or has it as an alias of one of its versions, up to space and case.
  ghost predicate GoesBy(skills: Skills, d: Definition, name: string) {
    && d.id in skills && d.version in skills[d.id] && skills[d.id][d.version] == d
    && (d.id == Trim(name)
        || exists v, alias :: v in skills[d.id] && alias in skills[d.id][v].aliases && Lower(Trim(alias)) == Lower(Trim(name)))
  }

  // Where the numbers of the two versions first differ, the first one has the larger number.
  ghost predicate LargerNumbers(a: string, b: string) {
    exists n: nat :: LargerAt(VersionParts(a), VersionParts(b), n)
  }

  lemma GoesByIff(skills: Skills, id: string, version: string, d: Definition)
    ensures Candidate(skills, Requested(id, version), d) <==>
              GoesBy(skills, d, id) && (Trim(version) != "" ==> d.version == Trim(version))
  {
    TrimIdempotent(id);
    hide Trim;
    if d.id in skills {
      var versions := skills[d.id];
      assert AnyAlias(versions, Trim(id)) <==>
        exists v, alias :: v in versions && alias in versions[v].aliases && Lower(Trim(alias)) == Lower(Trim(id));
    }
  }

  /** A requested skill: it goes by the name and has the version, if one is asked for; and no other one that does has
      larger numbers. There is none only when no registered skill fits. */
  lemma ResolvedIsNewest(skills: Skills, id: string, version: string, r: Option<Definition>)
    requires Filed(skills) && Outcome(skills, Requested(id, version), r)
    ensures r.Some? ==> GoesBy(skills, r.value, id) && (Trim(version) != "" ==> r.value.version == Trim(version))
    ensures forall d :: GoesBy(skills, d, id) && (Trim(version) != "" ==> d.version == Trim(version)) ==>
              r.Some? && !LargerNumbers(d.version, r.value.version)
  {
    hide Trim, Compare, GoesBy, VersionParts, LargerAt;
    if r.Some? {
      GoesByIff(skills, id, version, r.value);
    }
    forall d | GoesBy(skills, d, id) && (Trim(version) != "" ==> d.version == Trim(version))
      ensures r.Some? && !LargerNumbers(d.version, r.value.version)
    {
      GoesByIff(skills, id, version, d);
      assert Candidate(skills, Requested(id, version), skills[d.id][d.version]);
      if n: nat :| r.Some? && LargerAt(VersionParts(d.version), VersionParts(r.value.version), n) {
        LargerNumberIsNewer(d.version, r.value.version, n);
      }
    }
  }

  /** A skill chosen by the message matches it, and no registered skill that does comes before it; there is none only
      when none matches. */
  lemma SelectedIsBestFit(skills: Skills, intent: Intent, r: Option<Definition>)
    requires Filed(skills) && Outcome(skills, All(intent), r)
    ensures r.Some? ==> Matches(r.value, intent) && r.value.id in skills && r.value.version in skills[r.value.id]
    ensures forall id, version :: id in skills && version in skills[id] && Matches(skills[id][version], intent) ==>
              r.Some? && !Precedes(ByFit(intent.wantsDraft), skills[id][version], r.value)
  {
    hide Matches, Precedes;
    forall id, version | id in skills && version in skills[id] && Matches(skills[id][version], intent)
      ensures Candidate(skills, All(intent), skills[id][version])
    {
    }
  }

  class Registry {
    var skills: Skills

    constructor ()
      ensures skills == map[] && Filed(skills)
    {
      skills := map[];
    }

    method Register(d: Definition) returns (ok: bool)
      requires Filed(skills)
      modifies this
      ensures Filed(skills)
      ensures ok <==> Registrable(old(skills), d)
      ensures ok <==> Trim(d.id) != "" && Trim(d.version) != "" && d.complete && !(d.id in old(skills) && d.version in old(skills)[d.id])
      ensures !ok ==> skills == old(skills)
      ensures ok ==> forall e :: Known(skills, e) <==> e == d || Known(old(skills), e)
    {
      if !Valid(d) {
        return false;
      }
      var versions := if d.id in skills then skills[d.id] else map[];
      if d.version in versions {
        return false;
      }
      skills := skills[d.id := versions[d.version := d]];
      ok := true;
    }

    method Collect(q: Query, id: string, start: seq<Definition>) returns (found: seq<Definition>)
      requires Filed(skills) && id in skills
      ensures forall d :: d in found <==> d in start || (Candidate(skills, q, d) && d.id == id)
    {
      hide Matches, Named;
      found := start;
      var left := skills[id].Keys;
      while left != {}
        invariant left <= skills[id].Keys
        invariant forall d :: d in found <==> d in start || (Candidate(skills, q, d) && d.id == id && d.version !in left)
        decreases left
      {
        var version :| version in left;
        left := left - {version};
        if Candidate(skills, q, skills[id][version]) {
          found := found + [skills[id][version]];
        }
      }
    }

    /** Collects the candidates in any order, sorts them and takes the first. */
    method Choose(q: Query) returns (r: Option<Definition>)
      requires Filed(skills)
      ensures Outcome(skills, q, r)
    {
      hide Candidate, Precedes;
      var found: seq<Definition> := [];
      var left := skills.Keys;
      CandidatesAreKnown(skills, q);
      while left != {}
        invariant left <= skills.Keys
        invariant forall d :: d in found <==> Candidate(skills, q, d) && d.id !in left
        decreases left
      {
        CandidatesAreKnown(skills, q);
        var id :| id in left;
        left := left - {id};
        found := Collect(q, id, found);
      }
      CandidatesAreKnown(skills, q);
      if found == [] {
        return None;
      }
      FirstIsBest(OrderOf(q), found);
      r := Some(First(OrderOf(q), found));
    }

    method Resolve(id: string, version: string) returns (r: Option<Definition>)
      requires Filed(skills)
      ensures Outcome(skills, Requested(id, version), r)
      ensures r.Some? ==> GoesBy(skills, r.value, id) && (Trim(version) != "" ==> r.value.version == Trim(version))
      ensures forall d :: GoesBy(skills, d, id) && (Trim(version) != "" ==> d.version == Trim(version)) ==>
                r.Some? && !LargerNumbers(d.version, r.value.version)
    {
      hide *;
      r := Choose(Requested(id, version));
      ResolvedIsNewest(skills, id, version, r);
    }

    /** A requested skill is resolved, and refused when the role may not use it; otherwise the message decides. */
    method Select(intent: Intent) returns (r: Option<Definition>)
      requires Filed(skills)
      ensures Trim(intent.requestedId) == "" ==> Outcome(skills, All(intent), r)
      ensures Trim(intent.requestedId) != "" ==>
        exists found :: Outcome(skills, Requested(Trim(intent.requestedId), intent.requestedVersion), found)
          && r == if found.Some? && Trim(intent.role) != "" && !RoleAllowed(found.value.roles, intent.role) then None else found
    {
      hide Candidate, Precedes;
      if Trim(intent.requestedId) == "" {
        r := Choose(All(intent));
        return;
      }
      var found := Resolve(Trim(intent.requestedId), intent.requestedVersion);
      r := found;
      if found.Some? && Trim(intent.role) != "" && !RoleAllowed(found.value.roles, intent.role) {
        r := None;
      }
    }
  }

  lemma CandidatesAreKnown(skills: Skills, q: Query)
    ensures forall d :: Candidate(skills, q, d) ==> d.id in skills && d.version in skills[d.id] && skills[d.id][d.version] == d
  {
  }
}
