/**
 * String order and the stable sort shared by every component that sorts.
 * `localeCompare` and the default `Array.prototype.sort` order are both
 * modelled as plain lexicographic order on characters.
 */
module Sorting {

  /** Lexicographic order on strings: a prefix comes first. */
  predicate StrLe(a: string, b: string)
    decreases |a|
  {
    a == [] || (b != [] && (a[0] < b[0] || (a[0] == b[0] && StrLe(a[1..], b[1..]))))
  }

  lemma StrLeRefl(a: string)
    ensures StrLe(a, a)
  {
  }

  lemma StrLeTotal(a: string, b: string)
    ensures StrLe(a, b) || StrLe(b, a)
  {
  }

  lemma StrLeAntisym(a: string, b: string)
    requires StrLe(a, b) && StrLe(b, a)
    ensures a == b
  {
    if a != [] && b != [] && a[0] == b[0] {
      StrLeAntisym(a[1..], b[1..]);
      assert a == [a[0]] + a[1..] && b == [b[0]] + b[1..];
    }
  }

  lemma StrLeTrans(a: string, b: string, c: string)
    requires StrLe(a, b) && StrLe(b, c)
    ensures StrLe(a, c)
  {
    if a != [] && b != [] && c != [] && a[0] == b[0] == c[0] {
      StrLeTrans(a[1..], b[1..], c[1..]);
    }
  }

  /** The comparison key of every sort in the program: a numeric rank, then a name. */
  datatype SortKey = SortKey(rank: int, name: string)

  predicate KeyLe(x: SortKey, y: SortKey)
  {
    x.rank < y.rank || (x.rank == y.rank && StrLe(x.name, y.name))
  }

  lemma KeyLeTotal(x: SortKey, y: SortKey)
    ensures KeyLe(x, y) || KeyLe(y, x)
  {
    StrLeTotal(x.name, y.name);
  }

  lemma KeyLeAntisym(x: SortKey, y: SortKey)
    requires KeyLe(x, y) && KeyLe(y, x)
    ensures x == y
  {
    StrLeAntisym(x.name, y.name);
  }

  lemma KeyLeTrans(x: SortKey, y: SortKey, z: SortKey)
    requires KeyLe(x, y) && KeyLe(y, z)
    ensures KeyLe(x, z)
  {
    if x.rank == y.rank == z.rank {
      StrLeTrans(x.name, y.name, z.name);
    }
  }

  /** `s` is in ascending key order. */
  ghost predicate SortedBy<T>(s: seq<T>, key: T -> SortKey)
  {
    forall i, j :: 0 <= i < j < |s| ==> KeyLe(key(s[i]), key(s[j]))
  }

  /** No two distinct elements of `s` share a key. */
  ghost predicate KeyInjective<T>(s: seq<T>, key: T -> SortKey)
  {
    forall i, j :: 0 <= i < |s| && 0 <= j < |s| && key(s[i]) == key(s[j]) ==> s[i] == s[j]
  }

  /** Inserts `x` before the first element whose key is not below `x`'s. */
  function Insert<T>(x: T, s: seq<T>, key: T -> SortKey): (r: seq<T>)
    ensures multiset(r) == multiset(s) + multiset{x}
    ensures |r| == |s| + 1
  {
    if s == [] then [x]
    else if KeyLe(key(x), key(s[0])) then [x] + s
    else
      assert s == [s[0]] + s[1..];
      [s[0]] + Insert(x, s[1..], key)
  }

  /**
   * Stable insertion sort: the first element is inserted in front of every
   * later element with an equal key, as a stable `Array.prototype.sort` does.
   */
  function SortBy<T>(s: seq<T>, key: T -> SortKey): (r: seq<T>)
    ensures multiset(r) == multiset(s)
    ensures |r| == |s|
  {
    if s == [] then []
    else
      assert s == [s[0]] + s[1..];
      Insert(s[0], SortBy(s[1..], key), key)
  }

  lemma {:induction false} InsertSorted<T>(x: T, s: seq<T>, key: T -> SortKey)
    requires SortedBy(s, key)
    ensures SortedBy(Insert(x, s, key), key)
  {
    if s != [] && !KeyLe(key(x), key(s[0])) {
      InsertSorted(x, s[1..], key);
      var r := Insert(x, s, key);
      var t := Insert(x, s[1..], key);
      assert r == [s[0]] + t;
      KeyLeTotal(key(x), key(s[0]));
      forall j | 0 <= j < |t|
        ensures KeyLe(key(s[0]), key(t[j]))
      {
        assert t[j] in multiset(t);
        assert t[j] in multiset(s[1..]) + multiset{x};
        if t[j] != x || t[j] in multiset(s[1..]) {
          if t[j] in multiset(s[1..]) {
            var k :| 0 <= k < |s[1..]| && s[1..][k] == t[j];
            assert s[k + 1] == t[j];
          }
        }
      }
    } else if s != [] {
      var r := Insert(x, s, key);
      forall i, j | 0 <= i < j < |r|
        ensures KeyLe(key(r[i]), key(r[j]))
      {
        if i == 0 && j > 1 {
          KeyLeTrans(key(x), key(s[0]), key(s[j - 1]));
        }
      }
    }
  }

  lemma {:induction false} SortBySorted<T>(s: seq<T>, key: T -> SortKey)
    ensures SortedBy(SortBy(s, key), key)
  {
    if s != [] {
      SortBySorted(s[1..], key);
      InsertSorted(s[0], SortBy(s[1..], key), key);
    }
  }

  lemma InMultiset<T>(s: seq<T>, x: T)
    requires x in multiset(s)
    ensures exists k :: 0 <= k < |s| && s[k] == x
  {
  }

  /**
   * Two key-sorted sequences holding the same elements are equal when no two
   * distinct elements share a key.
   */
  lemma {:induction false} SortedUnique<T>(a: seq<T>, b: seq<T>, key: T -> SortKey)
    requires SortedBy(a, key) && SortedBy(b, key)
    requires multiset(a) == multiset(b)
    requires KeyInjective(a, key)
    ensures a == b
  {
    if a != [] {
      assert |b| == |multiset(b)| == |multiset(a)| == |a|;
      SameHead(a, b, key);
      DropHead(a, b);
      assert SortedBy(a[1..], key) && SortedBy(b[1..], key);
      assert KeyInjective(a[1..], key) by {
        forall i, j | 0 <= i < |a[1..]| && 0 <= j < |a[1..]| && key(a[1..][i]) == key(a[1..][j])
          ensures a[1..][i] == a[1..][j]
        {
          assert a[1..][i] == a[i + 1] && a[1..][j] == a[j + 1];
        }
      }
      SortedUnique(a[1..], b[1..], key);
      assert a == [a[0]] + a[1..] && b == [b[0]] + b[1..];
    }
  }

  /** The least elements of two sorted arrangements of one multiset agree. */
  lemma SameHead<T>(a: seq<T>, b: seq<T>, key: T -> SortKey)
    requires a != [] && b != []
    requires SortedBy(a, key) && SortedBy(b, key)
    requires multiset(a) == multiset(b)
    requires KeyInjective(a, key)
    ensures a[0] == b[0]
  {
    assert a[0] in multiset(b);
    InMultiset(b, a[0]);
    var jb :| 0 <= jb < |b| && b[jb] == a[0];
    assert b[0] in multiset(a);
    InMultiset(a, b[0]);
    var ja :| 0 <= ja < |a| && a[ja] == b[0];
    KeyLeTotal(key(b[0]), key(a[0]));
    assert KeyLe(key(b[0]), key(a[0])) by {
      if jb > 0 { assert KeyLe(key(b[0]), key(b[jb])); }
    }
    assert KeyLe(key(a[0]), key(b[0])) by {
      if ja > 0 { assert KeyLe(key(a[0]), key(a[ja])); }
    }
    KeyLeAntisym(key(a[0]), key(b[0]));
    assert key(a[0]) == key(a[ja]);
  }

  lemma DropHead<T>(a: seq<T>, b: seq<T>)
    requires a != [] && b != [] && a[0] == b[0]
    requires multiset(a) == multiset(b)
    ensures multiset(a[1..]) == multiset(b[1..])
  {
    assert a == [a[0]] + a[1..] && b == [b[0]] + b[1..];
    assert multiset(a[1..]) == multiset(a) - multiset{a[0]};
    assert multiset(b[1..]) == multiset(b) - multiset{b[0]};
  }

  /** Sorting does not depend on the order of the input, for keys that identify elements. */
  lemma SortByPermutation<T>(a: seq<T>, b: seq<T>, key: T -> SortKey)
    requires multiset(a) == multiset(b)
    requires KeyInjective(a, key)
    ensures SortBy(a, key) == SortBy(b, key)
  {
    var sa, sb := SortBy(a, key), SortBy(b, key);
    SortBySorted(a, key);
    SortBySorted(b, key);
    forall i, j | 0 <= i < |sa| && 0 <= j < |sa| && key(sa[i]) == key(sa[j])
      ensures sa[i] == sa[j]
    {
      assert sa[i] in multiset(a) && sa[j] in multiset(a);
      InMultiset(a, sa[i]);
      InMultiset(a, sa[j]);
    }
    SortedUnique(sa, sb, key);
  }

  /** The sort key that orders plain names. */
  function NameKey(s: string): SortKey
  {
    SortKey(0, s)
  }

  /** Strictly ascending names: sorted with no repetition. */
  ghost predicate StrictlySorted(s: seq<string>)
  {
    forall i, j :: 0 <= i < j < |s| ==> StrLe(s[i], s[j]) && s[i] != s[j]
  }

  ghost predicate NoDup<T>(s: seq<T>)
  {
    forall i, j :: 0 <= i < j < |s| ==> s[i] != s[j]
  }

  /** Sorting a duplicate-free list of names gives the unique strictly ascending list of them. */
  lemma SortNamesStrict(s: seq<string>)
    requires NoDup(s)
    ensures StrictlySorted(SortBy(s, NameKey))
    ensures forall x :: x in SortBy(s, NameKey) <==> x in s
  {
    var r := SortBy(s, NameKey);
    SortBySorted(s, NameKey);
    NoDupMultiset(s);
    forall x
      ensures x in r <==> x in s
    {
      assert x in r <==> x in multiset(r);
      assert x in s <==> x in multiset(s);
    }
    forall i, j | 0 <= i < j < |r|
      ensures r[i] != r[j]
    {
      if r[i] == r[j] {
        CountTwo(r, i, j);
      }
    }
  }

  lemma CountTwo<T>(r: seq<T>, i: int, j: int)
    requires 0 <= i < j < |r| && r[i] == r[j]
    ensures multiset(r)[r[i]] >= 2
  {
    assert r == r[..j] + r[j..];
    assert multiset(r) == multiset(r[..j]) + multiset(r[j..]);
    assert r[i] in r[..j];
    assert r[j] == r[j..][0];
  }

  lemma NoDupMultiset<T>(s: seq<T>)
    requires NoDup(s)
    ensures forall x :: multiset(s)[x] == if x in s then 1 else 0
  {
    if s != [] {
      assert s == [s[0]] + s[1..];
      NoDupMultiset(s[1..]);
    }
  }

  /** Two duplicate-free lists with the same elements hold the same multiset. */
  lemma NoDupSameSet<T>(a: seq<T>, b: seq<T>)
    requires NoDup(a) && NoDup(b)
    requires forall x :: x in a <==> x in b
    ensures multiset(a) == multiset(b)
  {
    NoDupMultiset(a);
    NoDupMultiset(b);
  }

  /** Two strictly ascending lists of the same names are the same list. */
  lemma StrictlySortedUnique(a: seq<string>, b: seq<string>)
    requires StrictlySorted(a) && StrictlySorted(b)
    requires forall x :: x in a <==> x in b
    ensures a == b
  {
    assert NoDup(a) && NoDup(b);
    NoDupSameSet(a, b);
    assert SortedBy(a, NameKey) && SortedBy(b, NameKey);
    SortedUnique(a, b, NameKey);
  }
}
