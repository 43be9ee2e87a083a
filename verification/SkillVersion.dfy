/** The order of skill versions: numeric parts first, then the text. */
module SkillVersion {
  import opened Text

  // 64-bit integers wrap around.
  function Wrap(x: int): int {
    (x + 0x8000_0000_0000_0000) % 0x1_0000_0000_0000_0000 - 0x8000_0000_0000_0000
  }

  predicate Digit(c: char) {
    '0' <= c <= '9'
  }

  // The number a part begins with.
  function Leading(part: string, value: int): int {
    if part == "" || !Digit(part[0]) then value
    else Leading(part[1..], Wrap(value * 10 + (part[0] as int - '0' as int)))
  }

  function Dotted(s: string): (r: seq<string>)
    ensures r != []
  {
    if s == "" then [""]
    else if s[0] == '.' then [""] + Dotted(s[1..])
    else
      var rest := Dotted(s[1..]);
      [[s[0]] + rest[0]] + rest[1..]
  }

  function Bare(version: string): string {
    var v := Trim(version);
    if v != "" && (v[0] == 'v' || v[0] == 'V') then v[1..] else v
  }

  function Numbers(parts: seq<string>): seq<int> {
    if parts == [] then [] else Numbers(parts[..|parts| - 1]) + [Leading(parts[|parts| - 1], 0)]
  }

  function VersionParts(version: string): seq<int> {
    Numbers(Dotted(Bare(version)))
  }

  method ParseParts(version: string) returns (values: seq<int>)
    ensures values == VersionParts(version)
  {
    var parts := Dotted(Bare(version));
    values := [];
    for i := 0 to |parts|
      invariant values == Numbers(parts[..i])
    {
      assert parts[..i + 1][..i] == parts[..i];
      var value, part, k := 0, parts[i], 0;
      while k < |part| && Digit(part[k])
        invariant 0 <= k <= |part|
        invariant Leading(part, 0) == Leading(part[k..], value)
      {
        assert part[k..][1..] == part[k + 1..];
        value := Wrap(value * 10 + (part[k] as int - '0' as int));
        k := k + 1;
      }
      values := values + [value];
    }
    assert parts[..|parts|] == parts;
  }

  // Missing parts count as zero.
  function PartAt(parts: seq<int>, i: nat): int {
    if i < |parts| then parts[i] else 0
  }

  function Sign(a: int, b: int): int {
    if a > b then 1 else if a < b then -1 else 0
  }

  // The parts from position i up to n.
  function CompareParts(a: seq<int>, b: seq<int>, i: nat, n: nat): int
    decreases n - i
  {
    if i >= n then 0
    else if PartAt(a, i) != PartAt(b, i) then Sign(PartAt(a, i), PartAt(b, i))
    else CompareParts(a, b, i + 1, n)
  }

  function Longer(a: seq<int>, b: seq<int>): nat {
    if |a| < |b| then |b| else |a|
  }

  function CompareText(a: string, b: string): int {
    if a == b then 0 else if Less(b, a) then 1 else -1
  }

  function Compare(left: string, right: string): int {
    var a, b := VersionParts(left), VersionParts(right);
    var c := CompareParts(a, b, 0, Longer(a, b));
    if c != 0 then c else CompareText(Trim(left), Trim(right))
  }

  method CompareVersions(left: string, right: string) returns (r: int)
    ensures r == Compare(left, right)
  {
    hide VersionParts;
    var a := ParseParts(left);
    var b := ParseParts(right);
    var i := 0;
    while i < |a| || i < |b|
      invariant 0 <= i <= Longer(a, b)
      invariant CompareParts(a, b, 0, Longer(a, b)) == CompareParts(a, b, i, Longer(a, b))
      decreases Longer(a, b) - i
    {
      var leftValue, rightValue := 0, 0;
      if i < |a| {
        leftValue := a[i];
      }
      if i < |b| {
        rightValue := b[i];
      }
      if leftValue != rightValue {
        return if leftValue > rightValue then 1 else -1;
      }
      i := i + 1;
    }
    if Trim(left) == Trim(right) {
      return 0;
    }
    r := if Less(Trim(right), Trim(left)) then 1 else -1;
  }

  // ----- what the numbers of a version are -----

  // The decimal form of a number.
  function Decimal(m: nat): (r: string)
    ensures r != "" && forall i :: 0 <= i < |r| ==> Digit(r[i])
  {
    (if m < 10 then "" else Decimal(m / 10)) + [('0' as int + m % 10) as char]
  }

  const LIMIT := 0x8000_0000_0000_0000

  lemma WrapKeeps(x: int)
    requires -LIMIT <= x < LIMIT
    ensures Wrap(x) == x
  {
  }

  lemma {:induction false} LeadingConcat(a: string, b: string, value: int)
    requires forall i :: 0 <= i < |a| ==> Digit(a[i])
    ensures Leading(a + b, value) == Leading(b, Leading(a, value))
  {
    hide Wrap;
    if a == "" {
      assert a + b == b;
    } else {
      assert (a + b)[1..] == a[1..] + b;
      LeadingConcat(a[1..], b, Wrap(value * 10 + (a[0] as int - '0' as int)));
    }
  }

  /** A part that begins with the decimal form of a number below 2^63, and goes on with something else than a digit, is
      read as that number. */
  lemma {:induction false} PartIsRead(m: nat, rest: string)
    requires m < LIMIT && (rest == "" || !Digit(rest[0]))
    ensures Leading(Decimal(m) + rest, 0) == m
  {
    LeadingConcat(Decimal(m), rest, 0);
    var tens, last := if m < 10 then "" else Decimal(m / 10), [('0' as int + m % 10) as char];
    assert Leading(tens, 0) == m / 10 by {
      if m >= 10 {
        PartIsRead(m / 10, "");
        assert Decimal(m / 10) + "" == Decimal(m / 10);
      }
    }
    LeadingConcat(tens, last, 0);
    WrapKeeps(m);
    assert last[1..] == "";
  }

  // Numbers joined with dots.
  function Rendered(numbers: seq<nat>): (r: string)
    requires numbers != []
    ensures r != "" && Digit(r[0]) && Digit(r[|r| - 1])
  {
    Decimal(numbers[0]) + if |numbers| == 1 then "" else "." + Rendered(numbers[1..])
  }

  lemma {:induction false} DottedAt(part: string, rest: string)
    requires '.' !in part
    ensures Dotted(part) == [part] && Dotted(part + "." + rest) == [part] + Dotted(rest)
  {
    if part == "" {
      assert part + "." + rest == "." + rest && ("." + rest)[1..] == rest;
    } else {
      assert '.' !in part[1..] && part[0] != '.' by { assert part[0] in part; assert forall c :: c in part[1..] ==> c in part; }
      DottedAt(part[1..], rest);
      assert (part + "." + rest)[1..] == part[1..] + "." + rest;
      assert part == [part[0]] + part[1..];
    }
  }

  lemma {:induction false} NumbersOfAll(part: string, rest: seq<string>)
    ensures Numbers([part] + rest) == [Leading(part, 0)] + Numbers(rest)
  {
    hide Leading;
    if rest == [] {
      assert [part] + rest == [part] && [part][..0] == [];
    } else {
      var all := [part] + rest;
      assert all[..|all| - 1] == [part] + rest[..|rest| - 1];
      NumbersOfAll(part, rest[..|rest| - 1]);
    }
  }

  lemma {:induction false} RenderedParts(numbers: seq<nat>)
    requires numbers != [] && forall i :: 0 <= i < |numbers| ==> numbers[i] < LIMIT
    ensures Numbers(Dotted(Rendered(numbers))) == numbers
  {
    if |numbers| == 1 {
      OneRenderedPart(numbers[0]);
      assert numbers == [numbers[0]] && Rendered(numbers) == Decimal(numbers[0]) + "";
    } else {
      RenderedParts(numbers[1..]);
      hide Numbers, Dotted;
      FirstRenderedPart(numbers[0], Rendered(numbers[1..]));
      assert numbers == [numbers[0]] + numbers[1..];
      assert Rendered(numbers) == Decimal(numbers[0]) + ("." + Rendered(numbers[1..]));
    }
  }

  lemma OneRenderedPart(m: nat)
    requires m < LIMIT
    ensures Numbers(Dotted(Decimal(m) + "")) == [m]
  {
    var part := Decimal(m);
    assert part + "" == part && [part] + [] == [part];
    PartIsRead(m, "");
    DottedAt(part, "");
    NumbersOfAll(part, []);
    hide Dotted, Leading, Decimal;
  }

  lemma FirstRenderedPart(m: nat, rest: string)
    requires m < LIMIT
    ensures Numbers(Dotted(Decimal(m) + ("." + rest))) == [m] + Numbers(Dotted(rest))
  {
    var part := Decimal(m);
    assert part + "" == part && part + ("." + rest) == part + "." + rest;
    PartIsRead(m, "");
    DottedAt(part, rest);
    NumbersOfAll(part, Dotted(rest));
    hide Dotted, Leading, Decimal, Numbers;
  }

  /** A version of dotted decimal numbers below 2^63, with or without a v in front and space around it, has those
      numbers as its parts. */
  lemma VersionOfNumbers(numbers: seq<nat>, v: string)
    requires numbers != [] && forall i :: 0 <= i < |numbers| ==> numbers[i] < LIMIT
    requires Trim(v) in {Rendered(numbers), "v" + Rendered(numbers), "V" + Rendered(numbers)}
    ensures VersionParts(v) == numbers
  {
    RenderedParts(numbers);
    BareOfNumbers(Rendered(numbers), v);
    hide Bare, Numbers, Dotted, Rendered;
  }

  lemma BareOfNumbers(text: string, v: string)
    requires text != "" && Digit(text[0]) && Trim(v) in {text, "v" + text, "V" + text}
    ensures Bare(v) == text
  {
    hide Trim;
    assert ("v" + text)[1..] == text && ("V" + text)[1..] == text;
  }

  // The numbers agree up to n, and there the first list has the larger one; missing numbers are zero.
  ghost predicate LargerAt(a: seq<int>, b: seq<int>, n: nat) {
    && (forall i: nat :: i < n && i < |a| && i < |b| ==> a[i] == b[i])
    && (forall i: nat :: i < n && |b| <= i < |a| ==> a[i] == 0) && (forall i: nat :: i < n && |a| <= i < |b| ==> b[i] == 0)
    && (if n < |a| then a[n] else 0) > (if n < |b| then b[n] else 0)
  }

  /** Where the numbers first differ, missing ones counting as zero, the version with the larger number is the newer
      one. */
  lemma LargerNumberIsNewer(left: string, right: string, n: nat)
    requires LargerAt(VersionParts(left), VersionParts(right), n)
    ensures Compare(left, right) == 1 && Compare(right, left) == -1
  {
    hide VersionParts;
    var p, q := VersionParts(left), VersionParts(right);
    var m := Longer(p, q) + n + 1;
    CompareAt(left, right, m);
    CompareAt(right, left, m);
    FirstDifference(p, q, 0, n, m);
    FirstDifference(q, p, 0, n, m);
  }

  lemma {:induction false} FirstDifference(a: seq<int>, b: seq<int>, i: nat, n: nat, m: nat)
    requires i <= n < m && forall j: nat :: i <= j < n ==> PartAt(a, j) == PartAt(b, j)
    requires PartAt(a, n) != PartAt(b, n)
    ensures CompareParts(a, b, i, m) == if PartAt(a, n) > PartAt(b, n) then 1 else -1
    decreases n - i
  {
    if i < n {
      FirstDifference(a, b, i + 1, n, m);
    }
  }

  /** With equal numbers the texts decide: the one that is later in the order of strings is the newer one. */
  lemma EqualNumbersCompareTexts(left: string, right: string)
    requires var a, b := VersionParts(left), VersionParts(right);
             && (forall i: nat :: i < |a| && i < |b| ==> a[i] == b[i])
             && (forall i: nat :: |b| <= i < |a| ==> a[i] == 0) && (forall i: nat :: |a| <= i < |b| ==> b[i] == 0)
    ensures Compare(left, right) == if Trim(left) == Trim(right) then 0 else if Less(Trim(right), Trim(left)) then 1 else -1
  {
    hide VersionParts, Trim;
    AllEqual(VersionParts(left), VersionParts(right), 0, Longer(VersionParts(left), VersionParts(right)));
  }

  lemma {:induction false} AllEqual(a: seq<int>, b: seq<int>, i: nat, m: nat)
    requires forall j: nat :: PartAt(a, j) == PartAt(b, j)
    ensures CompareParts(a, b, i, m) == 0
    decreases m - i
  {
    if i < m {
      AllEqual(a, b, i + 1, m);
    }
  }

  // ----- the order -----

  lemma {:induction false} PartsReverse(a: seq<int>, b: seq<int>, i: nat, n: nat)
    ensures CompareParts(b, a, i, n) == -CompareParts(a, b, i, n)
    decreases n - i
  {
    if i < n {
      PartsReverse(a, b, i + 1, n);
    }
  }

  lemma {:induction false} PartsStable(a: seq<int>, b: seq<int>, i: nat, n: nat, m: nat)
    requires |a| <= n <= m && |b| <= n
    ensures CompareParts(a, b, i, m) == CompareParts(a, b, i, n)
    decreases m - i
  {
    if i < m {
      PartsStable(a, b, i + 1, n, m);
    }
  }

  lemma {:induction false} PartsTransitive(a: seq<int>, b: seq<int>, c: seq<int>, i: nat, n: nat)
    requires CompareParts(a, b, i, n) >= 0 && CompareParts(b, c, i, n) >= 0
    ensures CompareParts(a, c, i, n) >= 0
    ensures CompareParts(a, c, i, n) == 0 ==> CompareParts(a, b, i, n) == 0 && CompareParts(b, c, i, n) == 0
    decreases n - i
  {
    if i < n && PartAt(a, i) == PartAt(b, i) && PartAt(b, i) == PartAt(c, i) {
      PartsTransitive(a, b, c, i + 1, n);
    }
  }

  // The comparison with any common length that is long enough.
  lemma CompareAt(left: string, right: string, n: nat)
    requires |VersionParts(left)| <= n && |VersionParts(right)| <= n
    ensures var c := CompareParts(VersionParts(left), VersionParts(right), 0, n);
            Compare(left, right) == if c != 0 then c else CompareText(Trim(left), Trim(right))
  {
    hide VersionParts;
    PartsStable(VersionParts(left), VersionParts(right), 0, Longer(VersionParts(left), VersionParts(right)), n);
  }

  /** Swapping the versions swaps the answer, and only equal trimmed versions compare as equal: any two
      versions are ordered. */
  lemma CompareIsTotal(a: string, b: string)
    ensures Compare(b, a) == -Compare(a, b)
    ensures Compare(a, b) == 0 <==> Trim(a) == Trim(b)
  {
    SameTextSameParts(a, b);
    hide VersionParts;
    var p, q := VersionParts(a), VersionParts(b);
    PartsReverse(p, q, 0, Longer(p, q));
    LessTrichotomy(Trim(a), Trim(b));
    PartsReverse(p, p, 0, Longer(p, p));
  }

  lemma SameTextSameParts(a: string, b: string)
    ensures Trim(a) == Trim(b) ==> VersionParts(a) == VersionParts(b)
  {
  }

  /** "Newer than" is transitive, mixed lengths and unreadable parts included. */
  lemma CompareIsTransitive(a: string, b: string, c: string)
    requires Compare(a, b) > 0 && Compare(b, c) > 0
    ensures Compare(a, c) > 0
  {
    hide VersionParts;
    var p, q, r := VersionParts(a), VersionParts(b), VersionParts(c);
    var n := Longer(if |p| < |q| then q else p, r);
    CompareAt(a, b, n);
    CompareAt(b, c, n);
    CompareAt(a, c, n);
    PartsTransitive(p, q, r, 0, n);
    if CompareParts(p, r, 0, n) == 0 {
      LessTransitive(Trim(c), Trim(b), Trim(a));
      LessTrichotomy(Trim(a), Trim(c));
    }
  }
}
