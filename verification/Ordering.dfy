/**
 The byte-wise order of `std::string::operator<`, and sorting by a string key.

 `std::sort` promises a sorted permutation and says nothing about ties, so `SortBy` promises
 exactly that. Every caller that needs one particular answer proves its keys unique and gets it
 from `SortedAnswerIsUnique`.
 */
module Ordering {

  predicate Before(a: string, b: string) {
    b != [] && (a == [] || a[0] < b[0] || (a[0] == b[0] && Before(a[1..], b[1..])))
  }

  /** The first difference is at `k`, and `a` has the smaller character there. */
  predicate SmallerAt(a: string, b: string, k: nat) {
    k < |a| && k < |b| && a[..k] == b[..k] && a[k] < b[k]
  }

  /** `std::string::operator<`: a proper prefix, or the smaller character at the first difference. */
  lemma {:induction false} BeforeIsLexicographic(a: string, b: string)
    ensures Before(a, b) <==> (|a| < |b| && a == b[..|a|]) || exists k: nat :: SmallerAt(a, b, k)
  {
    if a != [] && b != [] {
      if a[0] == b[0] {
        BeforeIsLexicographic(a[1..], b[1..]);
        PrefixesShift(a, b);
        forall k: nat | SmallerAt(a, b, k)
          ensures SmallerAt(a[1..], b[1..], k - 1)
        {
          DifferencesShift(a, b, k - 1);
        }
        forall k: nat | SmallerAt(a[1..], b[1..], k)
          ensures SmallerAt(a, b, k + 1)
        {
          DifferencesShift(a, b, k);
        }
      } else {
        assert SmallerAt(a, b, 0) <==> a[0] < b[0];
        forall k: nat | SmallerAt(a, b, k)
          ensures k == 0
        {
          if k > 0 {
            FirstCharactersAgree(a, b, k);
          }
        }
        assert |a| < |b| ==> b[..|a|][0] == b[0];
      }
    }
  }

  lemma FirstCharactersAgree(a: string, b: string, k: nat)
    requires 0 < k <= |a| && k <= |b| && a[..k] == b[..k]
    ensures a[0] == b[0]
  {
    assert a[..k][0] == b[..k][0];
  }

  lemma PrefixesShift(a: string, b: string)
    requires a != [] && b != [] && a[0] == b[0]
    ensures |a| < |b| && a == b[..|a|] <==> |a[1..]| < |b[1..]| && a[1..] == b[1..][..|a[1..]|]
  {
    if |a| < |b| {
      assert b[..|a|][1..] == b[1..][..|a| - 1];
      assert a == [a[0]] + a[1..];
      assert b[..|a|] == [b[0]] + b[..|a|][1..];
    }
  }

  lemma DifferencesShift(a: string, b: string, k: nat)
    requires a != [] && b != [] && a[0] == b[0]
    ensures SmallerAt(a[1..], b[1..], k) <==> SmallerAt(a, b, k + 1)
  {
    if k + 1 < |a| && k + 1 < |b| {
      assert a[..k + 1] == [a[0]] + a[1..][..k] && b[..k + 1] == [b[0]] + b[1..][..k];
      assert a[1..][..k] == a[..k + 1][1..] && b[1..][..k] == b[..k + 1][1..];
    }
  }

  /** Between strings of one length the last character decides only after all others. */
  lemma {:induction false} BeforeByTheLast(a: string, x: char, b: string, y: char)
    requires |a| == |b|
    ensures Before(a + [x], b + [y]) <==> Before(a, b) || (a == b && x < y)
  {
    if a != [] {
      assert (a + [x])[1..] == a[1..] + [x] && (b + [y])[1..] == b[1..] + [y];
      assert a == [a[0]] + a[1..] && b == [b[0]] + b[1..];
      BeforeByTheLast(a[1..], x, b[1..], y);
    }
  }

  lemma {:induction false} BeforeIsIrreflexive(a: string)
    ensures !Before(a, a)
  {
    if a != [] {
      BeforeIsIrreflexive(a[1..]);
    }
  }

  lemma {:induction false} BeforeIsTransitive(a: string, b: string, c: string)
    requires Before(a, b) && Before(b, c)
    ensures Before(a, c)
  {
    if a != [] && a[0] == b[0] && b[0] == c[0] {
      BeforeIsTransitive(a[1..], b[1..], c[1..]);
    }
  }

  lemma {:induction false} BeforeIsTotal(a: string, b: string)
    ensures a == b || Before(a, b) || Before(b, a)
  {
    if a != [] && b != [] && a[0] == b[0] {
      BeforeIsTotal(a[1..], b[1..]);
      assert a == [a[0]] + a[1..] && b == [b[0]] + b[1..];
    }
  }

  /** What `std::max` over two strings returns. */
  function Later(a: string, b: string): string {
    if Before(a, b) then b else a
  }

  ghost predicate SortedBy<T>(items: seq<T>, key: T -> string) {
    forall i, j :: 0 <= i < j < |items| ==> !Before(key(items[j]), key(items[i]))
  }

  ghost predicate StrictlySortedBy<T>(items: seq<T>, key: T -> string) {
    forall i, j :: 0 <= i < j < |items| ==> Before(key(items[i]), key(items[j]))
  }

  ghost predicate UniqueBy<T>(items: seq<T>, key: T -> string) {
    forall i, j :: 0 <= i < j < |items| ==> key(items[i]) != key(items[j])
  }

  function Insert<T>(item: T, items: seq<T>, key: T -> string): seq<T> {
    if items == [] || !Before(key(items[0]), key(item)) then [item] + items
    else [items[0]] + Insert(item, items[1..], key)
  }

  function Sorted<T>(items: seq<T>, key: T -> string): seq<T> {
    if items == [] then [] else Insert(items[0], Sorted(items[1..], key), key)
  }

  lemma {:induction false} InsertKeepsItems<T>(item: T, items: seq<T>, key: T -> string)
    ensures multiset(Insert(item, items, key)) == multiset{item} + multiset(items)
  {
    if items != [] && Before(key(items[0]), key(item)) {
      InsertKeepsItems(item, items[1..], key);
      assert items == [items[0]] + items[1..];
    }
  }

  lemma {:induction false} InsertKeepsOrder<T>(item: T, items: seq<T>, key: T -> string)
    requires SortedBy(items, key)
    ensures SortedBy(Insert(item, items, key), key)
  {
    var inserted := Insert(item, items, key);
    if items == [] {
    } else if !Before(key(items[0]), key(item)) {
      forall j | 0 < j < |inserted|
        ensures !Before(key(inserted[j]), key(inserted[0]))
      {
        if Before(key(items[j - 1]), key(item)) {
          BeforeIsTotal(key(items[0]), key(item));
          if Before(key(item), key(items[0])) {
            BeforeIsTransitive(key(items[j - 1]), key(item), key(items[0]));
          }
          BeforeIsIrreflexive(key(item));
        }
      }
    } else {
      var rest := Insert(item, items[1..], key);
      InsertKeepsOrder(item, items[1..], key);
      InsertKeepsItems(item, items[1..], key);
      forall j | 0 < j < |inserted|
        ensures !Before(key(inserted[j]), key(inserted[0]))
      {
        assert inserted[j] == rest[j - 1];
        assert rest[j - 1] in multiset(rest);
        if rest[j - 1] == item {
          if Before(key(item), key(items[0])) {
            BeforeIsTransitive(key(item), key(items[0]), key(item));
          }
          BeforeIsIrreflexive(key(item));
        } else {
          assert rest[j - 1] in items[1..];
          var k :| 1 <= k < |items| && items[k] == rest[j - 1];
        }
      }
    }
  }

  lemma {:induction false} SortedIsASort<T>(items: seq<T>, key: T -> string)
    ensures SortedBy(Sorted(items, key), key)
    ensures multiset(Sorted(items, key)) == multiset(items)
  {
    if items != [] {
      SortedIsASort(items[1..], key);
      InsertKeepsOrder(items[0], Sorted(items[1..], key), key);
      InsertKeepsItems(items[0], Sorted(items[1..], key), key);
      assert items == [items[0]] + items[1..];
    }
  }

  /** `std::sort` with a comparator on one string member. */
  method SortBy<T>(items: seq<T>, key: T -> string) returns (sorted: seq<T>)
    ensures SortedBy(sorted, key)
    ensures multiset(sorted) == multiset(items)
  {
    SortedIsASort(items, key);
    sorted := Sorted(items, key);
  }

  lemma RepeatedItemCountsTwice<T>(items: seq<T>, i: nat, j: nat)
    requires i < j < |items| && items[i] == items[j]
    ensures multiset(items)[items[i]] >= 2
  {
    assert items == items[..j] + ([items[j]] + items[j + 1..]);
    assert items[i] == items[..j][i];
    assert items[i] in multiset(items[..j]);
  }

  lemma UniqueKeyCountsOnce<T>(items: seq<T>, i: nat, key: T -> string)
    requires i < |items| && UniqueBy(items, key)
    ensures multiset(items)[items[i]] == 1
  {
    var before, after := items[..i], items[i + 1..];
    assert items == before + ([items[i]] + after);
    assert items[i] !in multiset(before);
    assert forall k :: 0 <= k < |after| ==> after[k] == items[i + 1 + k];
    assert items[i] !in multiset(after);
  }

  lemma UniqueKeysSurvivePermutation<T>(a: seq<T>, b: seq<T>, key: T -> string)
    requires multiset(a) == multiset(b)
    requires UniqueBy(a, key)
    ensures UniqueBy(b, key)
  {
    forall i, j | 0 <= i < j < |b|
      ensures key(b[i]) != key(b[j])
    {
      assert b[i] in multiset(a) && b[j] in multiset(a);
      var m :| 0 <= m < |a| && a[m] == b[i];
      var n :| 0 <= n < |a| && a[n] == b[j];
      UniqueKeyCountsOnce(a, m, key);
      if b[i] == b[j] {
        RepeatedItemCountsTwice(b, i, j);
      }
    }
  }

  lemma UniqueAndSortedIsStrict<T>(items: seq<T>, key: T -> string)
    requires SortedBy(items, key) && UniqueBy(items, key)
    ensures StrictlySortedBy(items, key)
  {
    forall i, j | 0 <= i < j < |items|
      ensures Before(key(items[i]), key(items[j]))
    {
      BeforeIsTotal(key(items[i]), key(items[j]));
    }
  }

  lemma StrictOrderDeterminesTheFirst<T>(a: seq<T>, b: seq<T>, key: T -> string)
    requires StrictlySortedBy(a, key) && StrictlySortedBy(b, key)
    requires multiset(a) == multiset(b) && a != []
    ensures b != [] && a[0] == b[0]
  {
    assert a[0] in multiset(b);
    assert b[0] in multiset(a);
    var i :| 0 <= i < |b| && b[i] == a[0];
    var j :| 0 <= j < |a| && a[j] == b[0];
    if i > 0 && j > 0 {
      BeforeIsTransitive(key(a[0]), key(b[0]), key(a[0]));
      BeforeIsIrreflexive(key(a[0]));
    }
  }

  lemma {:induction false} StrictOrderDeterminesTheSequence<T>(a: seq<T>, b: seq<T>, key: T -> string)
    requires StrictlySortedBy(a, key) && StrictlySortedBy(b, key)
    requires multiset(a) == multiset(b)
    ensures a == b
  {
    if a == [] {
      assert |multiset(b)| == 0;
    } else {
      StrictOrderDeterminesTheFirst(a, b, key);
      assert a == [a[0]] + a[1..] && b == [b[0]] + b[1..];
      assert multiset(a[1..]) == multiset(a) - multiset{a[0]};
      assert multiset(b[1..]) == multiset(b) - multiset{b[0]};
      StrictOrderDeterminesTheSequence(a[1..], b[1..], key);
    }
  }

  /** Any two sorts of any two permutations of items with unique keys agree. */
  lemma SortedAnswerIsUnique<T>(items: seq<T>, a: seq<T>, b: seq<T>, key: T -> string)
    requires UniqueBy(items, key)
    requires multiset(a) == multiset(items) == multiset(b)
    requires SortedBy(a, key) && SortedBy(b, key)
    ensures a == b
    ensures StrictlySortedBy(a, key)
  {
    UniqueKeysSurvivePermutation(items, a, key);
    UniqueKeysSurvivePermutation(items, b, key);
    UniqueAndSortedIsStrict(a, key);
    UniqueAndSortedIsStrict(b, key);
    StrictOrderDeterminesTheSequence(a, b, key);
  }
}
