/** The letters of a spreadsheet column: bijective numbering in base 26. */
module ColumnLetter {

  predicate IsLetter(c: char) {
    'A' <= c <= 'Z'
  }

  function Letter(digit: nat): char
    requires digit < 26
  {
    ('A' as int + digit) as char
  }

  // The column's letters; there are none for an index that is not positive.
  function Letters(index: int): string {
    if index <= 0 then "" else Letters((index - 1) / 26) + [Letter((index - 1) % 26)]
  }

  // What a reader of the sheet takes the letters for.
  function Column(letters: string): nat
    requires forall c :: c in letters ==> IsLetter(c)
  {
    if letters == "" then 0
    else
      var last := letters[|letters| - 1];
      assert IsLetter(last);
      26 * Column(letters[..|letters| - 1]) + (last as int - 'A' as int + 1)
  }

  function Reversed(s: string): string {
    if s == "" then "" else Reversed(s[1..]) + [s[0]]
  }

  lemma {:induction false} ReversedAt(s: string, k: nat)
    requires k < |s|
    ensures |Reversed(s)| == |s| && Reversed(s)[k] == s[|s| - 1 - k]
  {
    if |s| > 1 {
      ReversedAt(s[1..], if k < |s| - 1 then k else 0);
    }
  }

  lemma IsReversed(s: string, t: string)
    requires |t| == |s| && forall k :: 0 <= k < |s| ==> t[k] == s[|s| - 1 - k]
    ensures t == Reversed(s)
  {
    if s != "" {
      ReversedAt(s, 0);
    }
    forall k | 0 <= k < |s| ensures |Reversed(s)| == |s| && Reversed(s)[k] == t[k] {
      ReversedAt(s, k);
    }
  }

  /** Reverses the letters in place, swapping from both ends. */
  method ReverseInPlace(a: array<char>)
    modifies a
    ensures a[..] == Reversed(old(a[..]))
  {
    var i, j := 0, a.Length - 1;
    while i < j
      invariant 0 <= i && i + j == a.Length - 1
      invariant i <= j + 1
      invariant forall k :: 0 <= k < i ==> a[k] == old(a[a.Length - 1 - k]) && a[a.Length - 1 - k] == old(a[k])
      invariant forall k :: i <= k <= j ==> a[k] == old(a[k])
      decreases j - i
    {
      a[i], a[j] := a[j], a[i];
      i, j := i + 1, j - 1;
    }
    ghost var was := old(a[..]);
    forall k | 0 <= k < |was| ensures a[..][k] == was[|was| - 1 - k] {
      assert a[k] == old(a[a.Length - 1 - k]);
    }
    IsReversed(was, a[..]);
  }

  lemma {:induction false} ReversedConcat(s: string, c: char)
    ensures Reversed(s + [c]) == [c] + Reversed(s)
  {
    if s != "" {
      ReversedConcat(s[1..], c);
      assert (s + [c])[1..] == s[1..] + [c];
    }
  }

  method Of(index: int) returns (letters: string)
    ensures letters == Letters(index)
  {
    var rest, written := index, "";
    while rest > 0
      invariant Letters(index) == Letters(rest) + Reversed(written)
      decreases rest
    {
      rest := rest - 1;
      var c := Letter(rest % 26);
      ReversedConcat(written, c);
      assert Letters(rest / 26) + ([c] + Reversed(written)) == (Letters(rest / 26) + [c]) + Reversed(written);
      written := written + [c];
      rest := rest / 26;
    }
    var runes := new char[|written|](i requires 0 <= i < |written| => written[i]);
    assert runes[..] == written;
    ReverseInPlace(runes);
    letters := runes[..];
  }

  /** Every positive column gets a non-empty string of capital letters that reads back as that column. */
  lemma {:induction false} LettersReadBack(index: nat)
    ensures forall c :: c in Letters(index) ==> IsLetter(c)
    ensures Letters(index) == "" <==> index == 0
    ensures Column(Letters(index)) == index
  {
    if index > 0 {
      var rest, c := (index - 1) / 26, Letter((index - 1) % 26);
      LettersReadBack(rest);
      assert Letters(index)[..|Letters(index)| - 1] == Letters(rest);
    }
  }

  /** Every string of capital letters is the name of exactly the column it reads as. */
  lemma {:induction false} EveryNameIsAColumn(letters: string)
    requires forall c :: c in letters ==> IsLetter(c)
    ensures Letters(Column(letters)) == letters
  {
    if letters != "" {
      var init, last := letters[..|letters| - 1], letters[|letters| - 1];
      assert last in letters;
      EveryNameIsAColumn(init);
      var digit := last as int - 'A' as int;
      var index := Column(letters);
      assert index == 26 * Column(init) + digit + 1;
      assert (index - 1) / 26 == Column(init) && (index - 1) % 26 == digit;
      assert letters == init + [last];
    }
  }

  /** Distinct columns have distinct names. */
  lemma NamesAreDistinct(a: nat, b: nat)
    requires Letters(a) == Letters(b)
    ensures a == b
  {
    LettersReadBack(a);
    LettersReadBack(b);
  }
}
