/** Sorting strings in byte order. */
module TextSort {
  import opened Text

  function InsertString(s: seq<string>, x: string): seq<string> {
    if s == [] || !Less(s[0], x) then [x] + s else [s[0]] + InsertString(s[1..], x)
  }

  function SortStrings(s: seq<string>): seq<string> {
    if s == [] then [] else InsertString(SortStrings(s[1..]), s[0])
  }

  ghost predicate Sorted(s: seq<string>) {
    forall i, j | 0 <= i < j < |s| :: !Less(s[j], s[i])
  }

  lemma {:induction false} InsertKeeps(s: seq<string>, x: string)
    ensures multiset(InsertString(s, x)) == multiset(s) + multiset{x}
    ensures Sorted(s) ==> Sorted(InsertString(s, x))
  {
    if s == [] {
    } else if !Less(s[0], x) {
      forall j | Sorted(s) && 0 <= j < |s| ensures !Less(s[j], x) {
        if Less(s[j], x) {
          LessTrichotomy(s[0], x);
          if s[0] != x {
            LessTransitive(s[j], x, s[0]);
          }
        }
      }
    } else {
      InsertKeeps(s[1..], x);
      var rest := InsertString(s[1..], x);
      assert s == [s[0]] + s[1..];
      forall j | Sorted(s) && 0 <= j < |rest| ensures !Less(rest[j], s[0]) {
        assert rest[j] in multiset(rest);
        if rest[j] == x {
          if Less(x, s[0]) {
            LessTransitive(x, s[0], x);
            LessIrreflexive(x);
          }
        } else {
          assert rest[j] in s[1..];
        }
      }
    }
  }

  lemma {:induction false} SortKeeps(s: seq<string>)
    ensures multiset(SortStrings(s)) == multiset(s) && Sorted(SortStrings(s)) && |SortStrings(s)| == |s|
  {
    if s != [] {
      SortKeeps(s[1..]);
      InsertKeeps(SortStrings(s[1..]), s[0]);
      assert s == [s[0]] + s[1..];
      assert |multiset(SortStrings(s))| == |multiset(s)|;
    }
  }

  lemma SameLeast(a: seq<string>, b: seq<string>)
    requires Sorted(a) && Sorted(b) && multiset(a) == multiset(b) && a != []
    ensures b != [] && a[0] == b[0]
  {
    assert a[0] in multiset(b);
    assert b[0] in multiset(a);
    var i :| 0 <= i < |b| && b[i] == a[0];
    var j :| 0 <= j < |a| && a[j] == b[0];
    LessTrichotomy(a[0], b[0]);
    assert i > 0 ==> !Less(b[i], b[0]);
    assert j > 0 ==> !Less(a[j], a[0]);
  }

  lemma RestOf(a: seq<string>)
    requires a != []
    ensures multiset(a[1..]) == multiset(a) - multiset{a[0]}
  {
    assert a == [a[0]] + a[1..];
  }

  lemma {:induction false} SortedIsUnique(a: seq<string>, b: seq<string>)
    requires Sorted(a) && Sorted(b) && multiset(a) == multiset(b)
    ensures a == b
  {
    hide Less;
    if a == [] {
      assert |multiset(b)| == |b|;
    } else {
      SameLeast(a, b);
      RestOf(a);
      RestOf(b);
      SortedIsUnique(a[1..], b[1..]);
      assert a == [a[0]] + a[1..] && b == [b[0]] + b[1..];
    }
  }

  /** Sorting forgets the order of a list and nothing else. */
  lemma SortedEqualIffSameElements(a: seq<string>, b: seq<string>)
    ensures SortStrings(a) == SortStrings(b) <==> multiset(a) == multiset(b)
  {
    SortKeeps(a);
    SortKeeps(b);
    if multiset(a) == multiset(b) {
      SortedIsUnique(SortStrings(a), SortStrings(b));
    }
  }

  lemma SortedElements(a: seq<string>)
    ensures forall x :: x in SortStrings(a) <==> x in a
    ensures |SortStrings(a)| == |a|
  {
    SortKeeps(a);
    forall x ensures x in SortStrings(a) <==> x in a {
      assert x in SortStrings(a) <==> x in multiset(SortStrings(a));
      assert x in a <==> x in multiset(a);
    }
  }

  /** The non-empty strings of a list, each once, in ascending order. */
  method SortedUnique(values: seq<string>) returns (out: seq<string>)
    ensures forall s :: s in out <==> s in values && s != ""
    ensures Sorted(out) && |out| == |multiset(out)| && forall s :: multiset(out)[s] <= 1
  {
    hide Less;
    out := [];
    var seen: set<string> := {};
    for i := 0 to |values|
      invariant forall s :: s in seen <==> s in out
      invariant forall s :: s in out <==> s in values[..i] && s != ""
      invariant forall s :: multiset(out)[s] <= 1
    {
      assert values[..i + 1] == values[..i] + [values[i]];
      if values[i] == "" || values[i] in seen {
        continue;
      }
      assert values[i] !in multiset(out);
      seen := seen + {values[i]};
      out := out + [values[i]];
    }
    assert values[..|values|] == values;
    SortKeeps(out);
    SortedElements(out);
    out := SortStrings(out);
  }
}
