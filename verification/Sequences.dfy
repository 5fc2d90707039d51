/** Sequence facts the other modules share: sums, concatenated images and a stable sort by an integer key. */
module Sequences {

  /** Go's integer division: the quotient is truncated toward zero. */
  function GoDiv(a: int, b: int): int
    requires b > 0
  {
    if a >= 0 then a / b else -((-a) / b)
  }

  function Max(a: int, b: int): int {
    if a < b then b else a
  }

  function Min(a: int, b: int): int {
    if a < b then a else b
  }

  lemma PrefixOfPrefix<T>(s: seq<T>, i: nat)
    requires i < |s|
    ensures s[..i+1][..i] == s[..i] && s[..i+1] == s[..i] + [s[i]]
  {
  }

  function Sum(s: seq<int>): int {
    if s == [] then 0 else s[0] + Sum(s[1..])
  }

  lemma {:induction false} SumAppend(a: seq<int>, b: seq<int>)
    ensures Sum(a + b) == Sum(a) + Sum(b)
  {
    if a == [] {
      assert a + b == b;
    } else {
      assert (a + b)[1..] == a[1..] + b;
      SumAppend(a[1..], b);
    }
  }

  /** The sum does not depend on the order of the elements. */
  lemma {:induction false} SumOfPermutation(a: seq<int>, b: seq<int>)
    requires multiset(a) == multiset(b)
    ensures Sum(a) == Sum(b)
  {
    if a == [] {
      assert |multiset(b)| == 0;
    } else {
      var i := Extract(a, b);
      SumOfPermutation(a[1..], b[..i] + b[i+1..]);
      SumAppend(b[..i], b[i+1..]);
      SumAppend(b[..i], [b[i]] + b[i+1..]);
      assert b == b[..i] + ([b[i]] + b[i+1..]);
    }
  }

  lemma WithoutHead<T>(s: seq<T>)
    requires s != []
    ensures multiset(s[1..]) == multiset(s) - multiset{s[0]}
    ensures s == [s[0]] + s[1..]
  {
    assert s == [s[0]] + s[1..];
  }

  lemma WithoutOne<T>(s: seq<T>, i: nat)
    requires i < |s|
    ensures multiset(s[..i] + s[i+1..]) == multiset(s) - multiset{s[i]}
    ensures s == s[..i] + ([s[i]] + s[i+1..])
  {
    assert s == s[..i] + ([s[i]] + s[i+1..]);
  }

  lemma IndexOf<T>(x: T, s: seq<T>) returns (i: nat)
    requires x in multiset(s)
    ensures i < |s| && s[i] == x
  {
    assert x in s;
    i :| 0 <= i < |s| && s[i] == x;
  }

  /** Where a's head sits in its permutation b; without it, the rests are permutations too. */
  lemma Extract<T>(a: seq<T>, b: seq<T>) returns (i: nat)
    requires a != [] && multiset(a) == multiset(b)
    ensures i < |b| && b[i] == a[0]
    ensures multiset(a[1..]) == multiset(b[..i] + b[i+1..])
  {
    WithoutHead(a);
    assert a[0] in multiset(a);
    i := IndexOf(a[0], b);
    WithoutOne(b, i);
  }

  // --- a stable sort by key ------------------------------------------------------------

  function Keys<T>(s: seq<T>, key: T -> int): (ks: seq<int>)
    ensures |ks| == |s|
    ensures forall i :: 0 <= i < |s| ==> ks[i] == key(s[i])
  {
    seq(|s|, i requires 0 <= i < |s| => key(s[i]))
  }

  ghost predicate SortedBy<T>(s: seq<T>, key: T -> int) {
    forall i, j :: 0 <= i <= j < |s| ==> key(s[i]) <= key(s[j])
  }

  function InsertBy<T>(x: T, s: seq<T>, key: T -> int): (r: seq<T>)
    ensures |r| == |s| + 1
  {
    if s == [] || key(x) <= key(s[0]) then [x] + s else [s[0]] + InsertBy(x, s[1..], key)
  }

  /** The stable sort (Go's sort.SliceStable): ascending keys, equal keys in their old order. */
  function SortBy<T>(s: seq<T>, key: T -> int): (r: seq<T>)
    ensures |r| == |s|
  {
    if s == [] then [] else InsertBy(s[0], SortBy(s[1..], key), key)
  }

  lemma {:induction false} InsertByPermutes<T>(x: T, s: seq<T>, key: T -> int)
    ensures multiset(InsertBy(x, s, key)) == multiset(s) + multiset{x}
  {
    if s != [] && key(x) > key(s[0]) {
      InsertByPermutes(x, s[1..], key);
      assert s == [s[0]] + s[1..];
    }
  }

  lemma {:induction false} InsertByIsSorted<T>(x: T, s: seq<T>, key: T -> int)
    requires SortedBy(s, key)
    ensures SortedBy(InsertBy(x, s, key), key)
  {
    if s != [] && key(x) > key(s[0]) {
      var rest := InsertBy(x, s[1..], key);
      InsertByIsSorted(x, s[1..], key);
      InsertByPermutes(x, s[1..], key);
      forall j | 0 <= j < |rest| ensures key(s[0]) <= key(rest[j]) {
        hide InsertBy;
        assert rest[j] in multiset(rest);
        assert rest[j] == x || rest[j] in s[1..];
      }
    }
  }

  lemma {:induction false} SortByIsSorted<T>(s: seq<T>, key: T -> int)
    ensures SortedBy(SortBy(s, key), key)
    ensures multiset(SortBy(s, key)) == multiset(s)
  {
    if s == [] {
    } else {
      SortByIsSorted(s[1..], key);
      InsertByIsSorted(s[0], SortBy(s[1..], key), key);
      InsertByPermutes(s[0], SortBy(s[1..], key), key);
      assert s == [s[0]] + s[1..];
    }
  }

  lemma SortByMembers<T(!new)>(s: seq<T>, key: T -> int)
    ensures forall x :: x in SortBy(s, key) <==> x in s
  {
    SortByIsSorted(s, key);
    var r := SortBy(s, key);
    forall x ensures x in r <==> x in s {
      assert x in r <==> x in multiset(r);
      assert x in s <==> x in multiset(s);
    }
  }

  function Same(k: int): int {
    k
  }

  lemma SameLeast(a: seq<int>, b: seq<int>)
    requires SortedBy(a, Same) && SortedBy(b, Same) && multiset(a) == multiset(b) && a != [] && b != []
    ensures a[0] == b[0]
  {
    assert a[0] in multiset(b) && b[0] in multiset(a);
    assert Same(a[0]) <= Same(b[0]) <= Same(a[0]);
  }

  lemma TailIsSorted(s: seq<int>)
    requires SortedBy(s, Same) && s != []
    ensures SortedBy(s[1..], Same)
  {
  }

  lemma SameSize<T>(a: seq<T>, b: seq<T>)
    requires multiset(a) == multiset(b)
    ensures |a| == |b|
  {
    assert |a| == |multiset(a)| == |multiset(b)| == |b|;
  }

  /** Sorting plain numbers: the ascending order of a multiset is unique. */
  lemma {:induction false} SortedIsUnique(a: seq<int>, b: seq<int>)
    requires SortedBy(a, Same) && SortedBy(b, Same) && multiset(a) == multiset(b)
    ensures a == b
  {
    hide SortedBy, Same;
    SameSize(a, b);
    if a != [] {
      SameLeast(a, b);
      TailIsSorted(a);
      TailIsSorted(b);
      WithoutHead(a);
      WithoutHead(b);
      SortedIsUnique(a[1..], b[1..]);
    }
  }

  lemma SortSamePermutation(a: seq<int>, b: seq<int>)
    requires multiset(a) == multiset(b)
    ensures SortBy(a, Same) == SortBy(b, Same)
  {
    SortByIsSorted(a, Same);
    SortByIsSorted(b, Same);
    SortedIsUnique(SortBy(a, Same), SortBy(b, Same));
  }

  // --- which comes first -------------------------------------------------------------------

  /** The elements of a sequence, each once, in the order they first occur. */
  function Firsts<T(==)>(s: seq<T>): (r: seq<T>)
    ensures forall x <- r :: x in s
    ensures forall x <- s :: x in r
    ensures forall i, j :: 0 <= i < j < |r| ==> r[i] != r[j]
  {
    if s == [] then []
    else
      var init, last := s[..|s|-1], s[|s|-1];
      assert s == init + [last];
      Firsts(init) + if last in init then [] else [last]
  }

  /** Does a occur before b first does? */
  ghost predicate Before<T>(s: seq<T>, a: T, b: T) {
    exists i :: 0 <= i < |s| && s[i] == a && b !in s[..i+1]
  }

  lemma BeforeOneMore<T>(s: seq<T>, c: T, a: T, b: T)
    ensures Before(s + [c], a, b) <==> Before(s, a, b) || (c == a && a != b && b !in s)
  {
    var t := s + [c];
    forall i | 0 <= i < |s| && s[i] == a ensures t[..i+1] == s[..i+1] {}
    assert t[..|s|+1] == t;
    if Before(s, a, b) {
      var i :| 0 <= i < |s| && s[i] == a && b !in s[..i+1];
      assert t[i] == a && b !in t[..i+1];
    }
    if c == a && a != b && b !in s { assert t[|s|] == a && b !in t[..|s|+1]; }
  }

  lemma BeforeHead<T>(h: T, t: seq<T>, a: T, b: T)
    ensures Before([h] + t, a, b) <==> (h == a && a != b) || (h != b && Before(t, a, b))
  {
    var s := [h] + t;
    if Before(s, a, b) {
      var i :| 0 <= i < |s| && s[i] == a && b !in s[..i+1];
      assert s[..i+1][0] == h;
      if i > 0 { assert t[i-1] == a && s[..i+1] == [h] + t[..i]; }
    }
    if h == a && a != b { assert s[0] == a && s[..1] == [h]; }
    if h != b && Before(t, a, b) {
      var i :| 0 <= i < |t| && t[i] == a && b !in t[..i+1];
      assert s[i+1] == a && s[..i+2] == [h] + t[..i+1];
    }
  }

  /** Taking each element once keeps what comes first. */
  lemma {:induction false} FirstsKeepTheOrder<T>(s: seq<T>, a: T, b: T)
    ensures Before(Firsts(s), a, b) <==> Before(s, a, b)
  {
    hide Before;
    if s == [] {
      assert !Before(s, a, b) by { NothingBefore(a, b); }
    } else {
      var init, last := s[..|s|-1], s[|s|-1];
      assert s == init + [last];
      FirstsKeepTheOrder(init, a, b);
      BeforeOneMore(init, last, a, b);
      BeforeOneMore(Firsts(init), last, a, b);
      if a in init && b !in init { OnlyOneThere(init, a, b); }
      assert Firsts(init) + [] == Firsts(init);
    }
  }

  lemma NothingBefore<T>(a: T, b: T)
    ensures !Before([], a, b)
  {
  }

  lemma OnlyOneThere<T>(s: seq<T>, a: T, b: T)
    requires a in s && b !in s
    ensures Before(s, a, b)
  {
    var i :| 0 <= i < |s| && s[i] == a;
    assert b !in s[..i+1];
  }

  lemma {:induction false} InsertByIsStable<T>(x: T, s: seq<T>, key: T -> int, a: T, b: T)
    requires key(a) == key(b)
    ensures Before(InsertBy(x, s, key), a, b) <==> Before([x] + s, a, b)
  {
    hide Before;
    if s != [] && key(x) > key(s[0]) {
      var rest := InsertBy(x, s[1..], key);
      InsertByIsStable(x, s[1..], key, a, b);
      BeforeHead(s[0], rest, a, b);
      BeforeHead(x, s[1..], a, b);
      BeforeHead(x, s, a, b);
      BeforeHead(s[0], s[1..], a, b);
      assert s == [s[0]] + s[1..];
    }
  }

  /** Sorting keeps the order of equal keys. */
  lemma {:induction false} SortByIsStable<T>(s: seq<T>, key: T -> int, a: T, b: T)
    requires key(a) == key(b)
    ensures Before(SortBy(s, key), a, b) <==> Before(s, a, b)
  {
    hide Before, InsertBy;
    if s != [] {
      SortByIsStable(s[1..], key, a, b);
      InsertByIsStable(s[0], SortBy(s[1..], key), key, a, b);
      BeforeHead(s[0], SortBy(s[1..], key), a, b);
      BeforeHead(s[0], s[1..], a, b);
      assert s == [s[0]] + s[1..];
    }
  }
}
