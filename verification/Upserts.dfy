/** Lists kept by name: a row updates the first element of its name, or adds one. */
module Upserts {
  import opened Options

  /** How rows R meet elements T: by which names, what a new element starts as, and what a row changes. */
  datatype Keeping<!T, !R> = Keeping(key: T -> string, rowKey: R -> string, blank: R -> T, update: (T, R) -> T)

  /** A blank element has its row's name, and no row renames an element. */
  ghost predicate Lawful<T(!new), R(!new)>(p: Keeping<T, R>) {
    && (forall r {:trigger p.blank(r)} :: p.key(p.blank(r)) == p.rowKey(r))
    && (forall x, r {:trigger p.update(x, r)} :: p.key(p.update(x, r)) == p.key(x))
  }

  /** The first element of a name. */
  function Find<T>(xs: seq<T>, key: T -> string, k: string): (i: Option<nat>)
    ensures i.Some? ==> i.value < |xs| && key(xs[i.value]) == k && forall j :: 0 <= j < i.value ==> key(xs[j]) != k
    ensures i.None? ==> forall j :: 0 <= j < |xs| ==> key(xs[j]) != k
  {
    if xs == [] then None
    else
      match Find(xs[..|xs|-1], key, k)
      case Some(i) => Some(i)
      case None => if key(xs[|xs|-1]) == k then Some(|xs| - 1) else None
  }

  function Upsert<T, R>(p: Keeping<T, R>, xs: seq<T>, r: R): seq<T> {
    match Find(xs, p.key, p.rowKey(r))
    case None => xs + [p.update(p.blank(r), r)]
    case Some(i) => xs[i := p.update(xs[i], r)]
  }

  function UpsertAll<T, R>(p: Keeping<T, R>, xs: seq<T>, rs: seq<R>): seq<T>
    decreases |rs|
  {
    if rs == [] then xs else Upsert(p, UpsertAll(p, xs, rs[..|rs|-1]), rs[|rs|-1])
  }

  /** What the rows of its name make of one element. */
  function After<T, R>(p: Keeping<T, R>, x: T, rs: seq<R>): T
    decreases |rs|
  {
    if rs == [] then x
    else
      var before := After(p, x, rs[..|rs|-1]);
      if p.rowKey(rs[|rs|-1]) == p.key(x) then p.update(before, rs[|rs|-1]) else before
  }

  /** The elements with a blank one for every name that only the rows have. */
  function Grown<T, R>(p: Keeping<T, R>, xs: seq<T>, rs: seq<R>): seq<T>
    decreases |rs|
  {
    if rs == [] then xs
    else
      var before, r := Grown(p, xs, rs[..|rs|-1]), rs[|rs|-1];
      if Find(before, p.key, p.rowKey(r)).None? then before + [p.blank(r)] else before
  }

  /** Is the element the first of its name? */
  ghost predicate IsFirst<T>(xs: seq<T>, key: T -> string, i: nat)
    requires i < |xs|
  {
    forall j :: 0 <= j < i ==> key(xs[j]) != key(xs[i])
  }

  ghost predicate SameKeys<T(!new)>(a: seq<T>, b: seq<T>, key: T -> string) {
    |a| == |b| && forall i :: 0 <= i < |a| ==> key(a[i]) == key(b[i])
  }

  lemma FindIsUnique<T>(xs: seq<T>, key: T -> string, k: string, i: nat)
    requires i < |xs| && key(xs[i]) == k && IsFirst(xs, key, i)
    ensures Find(xs, key, k) == Some(i)
  {
  }

  lemma SameKeysFindTheSame<T(!new)>(a: seq<T>, b: seq<T>, key: T -> string, k: string)
    requires SameKeys(a, b, key)
    ensures Find(a, key, k) == Find(b, key, k)
  {
  }

  lemma {:induction false} AfterKeepsTheKey<T(!new), R(!new)>(p: Keeping<T, R>, x: T, rs: seq<R>)
    requires Lawful(p)
    ensures p.key(After(p, x, rs)) == p.key(x)
    decreases |rs|
  {
    if rs != [] { AfterKeepsTheKey(p, x, rs[..|rs|-1]); }
  }

  lemma {:induction false} AfterOthers<T(!new), R(!new)>(p: Keeping<T, R>, x: T, rs: seq<R>)
    requires forall r <- rs :: p.rowKey(r) != p.key(x)
    ensures After(p, x, rs) == x
    decreases |rs|
  {
    if rs != [] {
      assert rs[|rs|-1] in rs;
      AfterOthers(p, x, rs[..|rs|-1]);
    }
  }

  /** Growing keeps what is there, and gives every row's name an element. */
  lemma {:induction false} GrownHasEveryName<T(!new), R(!new)>(p: Keeping<T, R>, xs: seq<T>, rs: seq<R>)
    requires Lawful(p)
    ensures xs <= Grown(p, xs, rs)
    ensures forall r <- rs :: Find(Grown(p, xs, rs), p.key, p.rowKey(r)).Some?
    decreases |rs|
  {
    if rs != [] {
      var init, last := rs[..|rs|-1], rs[|rs|-1];
      var before, after := Grown(p, xs, init), Grown(p, xs, rs);
      GrownHasEveryName(p, xs, init);
      forall r <- rs ensures Find(after, p.key, p.rowKey(r)).Some? {
        if r in init {
          var i := Find(before, p.key, p.rowKey(r)).value;
          assert after[i] == before[i];
        } else {
          assert r == last;
          assert Find(before, p.key, p.rowKey(r)).None? ==> after[|before|] == p.blank(r);
        }
      }
    }
  }

  /** Each element of out is the grown one after the rows of its name; only the first of a name takes any. */
  ghost predicate TakesItsRows<T(!new), R(!new)>(p: Keeping<T, R>, g: seq<T>, out: seq<T>, rs: seq<R>) {
    SameKeys(out, g, p.key) && forall i :: 0 <= i < |g| ==> out[i] == Taken(p, g, rs, i)
  }

  ghost function Taken<T, R>(p: Keeping<T, R>, g: seq<T>, rs: seq<R>, i: nat): T
    requires i < |g|
  {
    if IsFirst(g, p.key, i) then After(p, g[i], rs) else g[i]
  }

  /** Taking the rows one by one comes to each element taking the rows of its name. */
  lemma {:induction false} Pointwise<T(!new), R(!new)>(p: Keeping<T, R>, xs: seq<T>, rs: seq<R>)
    requires Lawful(p)
    ensures TakesItsRows(p, Grown(p, xs, rs), UpsertAll(p, xs, rs), rs)
    decreases |rs|
  {
    if rs != [] {
      var init, last := rs[..|rs|-1], rs[|rs|-1];
      Pointwise(p, xs, init);
      var g, out := Grown(p, xs, init), UpsertAll(p, xs, init);
      SameKeysFindTheSame(out, g, p.key, p.rowKey(last));
      if Find(g, p.key, p.rowKey(last)).None? {
        GrownHasEveryName(p, xs, init);
        TheNewestTakesItsRow(p, g, rs);
        PointwiseNew(p, g, out, rs);
      } else {
        PointwiseFound(p, g, out, rs, Find(g, p.key, p.rowKey(last)).value);
      }
    }
  }

  lemma TheNewestTakesItsRow<T(!new), R(!new)>(p: Keeping<T, R>, g: seq<T>, rs: seq<R>)
    requires Lawful(p) && rs != []
    requires forall r <- rs[..|rs|-1] :: Find(g, p.key, p.rowKey(r)).Some?
    requires Find(g, p.key, p.rowKey(rs[|rs|-1])) == None
    ensures After(p, p.blank(rs[|rs|-1]), rs) == p.update(p.blank(rs[|rs|-1]), rs[|rs|-1])
  {
    AfterOthers(p, p.blank(rs[|rs|-1]), rs[..|rs|-1]);
  }

  lemma PointwiseNew<T(!new), R(!new)>(p: Keeping<T, R>, g: seq<T>, out: seq<T>, rs: seq<R>)
    requires Lawful(p) && rs != [] && TakesItsRows(p, g, out, rs[..|rs|-1])
    requires forall i :: 0 <= i < |g| ==> p.key(g[i]) != p.rowKey(rs[|rs|-1])
    requires After(p, p.blank(rs[|rs|-1]), rs) == p.update(p.blank(rs[|rs|-1]), rs[|rs|-1])
    ensures var last := rs[|rs|-1]; TakesItsRows(p, g + [p.blank(last)], out + [p.update(p.blank(last), last)], rs)
  {
    hide After, IsFirst, Taken, SameKeys;
    var last := rs[|rs|-1];
    var x, y := p.blank(last), p.update(p.blank(last), last);
    var g', out' := g + [x], out + [y];
    OneKeyMore(g, out, x, y, p.key);
    forall i | 0 <= i < |g'| ensures out'[i] == Taken(p, g', rs, i) {
      if i < |g| { TakenBefore(p, g, x, rs, i); } else { TakenLast(p, g, x, rs); }
    }
  }

  lemma OneKeyMore<T(!new)>(g: seq<T>, out: seq<T>, x: T, y: T, key: T -> string)
    requires SameKeys(out, g, key) && key(x) == key(y)
    ensures SameKeys(out + [y], g + [x], key)
  {
  }

  lemma TakenBefore<T(!new), R(!new)>(p: Keeping<T, R>, g: seq<T>, x: T, rs: seq<R>, i: nat)
    requires rs != [] && i < |g| && p.key(g[i]) != p.rowKey(rs[|rs|-1])
    ensures Taken(p, g + [x], rs, i) == Taken(p, g, rs[..|rs|-1], i)
  {
    FirstInPrefix(g, x, p.key, i);
    hide IsFirst;
    OtherRow(p, g[i], rs);
  }

  lemma TakenLast<T(!new), R(!new)>(p: Keeping<T, R>, g: seq<T>, x: T, rs: seq<R>)
    requires forall i :: 0 <= i < |g| ==> p.key(g[i]) != p.key(x)
    ensures Taken(p, g + [x], rs, |g|) == After(p, x, rs)
  {
    NewNameIsFirst(g, x, p.key);
  }

  lemma OtherRow<T, R>(p: Keeping<T, R>, x: T, rs: seq<R>)
    requires rs != [] && p.rowKey(rs[|rs|-1]) != p.key(x)
    ensures After(p, x, rs) == After(p, x, rs[..|rs|-1])
  {
  }

  lemma NewNameIsFirst<T>(xs: seq<T>, x: T, key: T -> string)
    requires forall i :: 0 <= i < |xs| ==> key(xs[i]) != key(x)
    ensures IsFirst(xs + [x], key, |xs|)
  {
  }

  lemma FirstInPrefix<T>(xs: seq<T>, x: T, key: T -> string, i: nat)
    requires i < |xs|
    ensures IsFirst(xs + [x], key, i) <==> IsFirst(xs, key, i)
  {
    var ys := xs + [x];
    assert forall j :: 0 <= j <= i ==> ys[j] == xs[j];
    if IsFirst(ys, key, i) {
      forall j | 0 <= j < i ensures key(xs[j]) != key(xs[i]) { assert key(ys[j]) != key(ys[i]); }
    }
  }

  lemma PointwiseFound<T(!new), R(!new)>(p: Keeping<T, R>, g: seq<T>, out: seq<T>, rs: seq<R>, at: nat)
    requires Lawful(p) && rs != [] && TakesItsRows(p, g, out, rs[..|rs|-1])
    requires Find(g, p.key, p.rowKey(rs[|rs|-1])) == Some(at)
    ensures TakesItsRows(p, g, out[at := p.update(out[at], rs[|rs|-1])], rs)
  {
    var last := rs[|rs|-1];
    forall i | 0 <= i < |g| && i != at ensures Taken(p, g, rs, i) == Taken(p, g, rs[..|rs|-1], i) {
      if IsFirst(g, p.key, i) {
        assert p.key(g[i]) != p.rowKey(last);
      }
    }
    assert IsFirst(g, p.key, at);
  }

  /** Taking the same rows again changes nothing, when it changes no single element. */
  lemma AgainChangesNothing<T(!new), R(!new)>(p: Keeping<T, R>, xs: seq<T>, rs: seq<R>)
    requires Lawful(p)
    requires forall x :: After(p, After(p, x, rs), rs) == After(p, x, rs)
    ensures UpsertAll(p, UpsertAll(p, xs, rs), rs) == UpsertAll(p, xs, rs)
  {
    hide UpsertAll, After;
    var g, out := Grown(p, xs, rs), UpsertAll(p, xs, rs);
    Pointwise(p, xs, rs);
    GrownHasEveryName(p, xs, rs);
    forall r <- rs ensures Find(out, p.key, p.rowKey(r)).Some? {
      SameKeysFindTheSame(out, g, p.key, p.rowKey(r));
    }
    NothingGrows(p, out, rs);
    Pointwise(p, out, rs);
    forall i | 0 <= i < |out| ensures UpsertAll(p, out, rs)[i] == out[i] {
      assert IsFirst(out, p.key, i) <==> IsFirst(g, p.key, i);
    }
  }

  lemma {:induction false} NothingGrows<T(!new), R(!new)>(p: Keeping<T, R>, xs: seq<T>, rs: seq<R>)
    requires forall r <- rs :: Find(xs, p.key, p.rowKey(r)).Some?
    ensures Grown(p, xs, rs) == xs
    decreases |rs|
  {
    if rs != [] {
      assert rs[|rs|-1] in rs;
      NothingGrows(p, xs, rs[..|rs|-1]);
    }
  }

  /** Rows of other names leave a name's element alone, or leave the name without one. */
  lemma {:induction false} OthersLeaveItAlone<T(!new), R(!new)>(p: Keeping<T, R>, xs: seq<T>, rs: seq<R>, k: string)
    requires Lawful(p) && forall r <- rs :: p.rowKey(r) != k
    ensures |xs| <= |UpsertAll(p, xs, rs)|
    ensures Find(UpsertAll(p, xs, rs), p.key, k) == Find(xs, p.key, k)
    ensures Find(xs, p.key, k).Some? ==>
              UpsertAll(p, xs, rs)[Find(xs, p.key, k).value] == xs[Find(xs, p.key, k).value]
    decreases |rs|
  {
    if rs != [] {
      var init, last := rs[..|rs|-1], rs[|rs|-1];
      assert last in rs;
      OthersLeaveItAlone(p, xs, init, k);
      var before, after := UpsertAll(p, xs, init), UpsertAll(p, xs, rs);
      if Find(before, p.key, p.rowKey(last)).Some? {
        SameKeysFindTheSame(before, after, p.key, k);
      } else {
        assert after[..|before|] == before;
      }
    }
  }

  ghost predicate DistinctRows<T, R>(p: Keeping<T, R>, rs: seq<R>) {
    forall i, j :: 0 <= i < j < |rs| ==> p.rowKey(rs[i]) != p.rowKey(rs[j])
  }

  /** With one row of each name, an element takes at most one. */
  lemma {:induction false} OneRowEach<T(!new), R(!new)>(p: Keeping<T, R>, x: T, rs: seq<R>)
    requires Lawful(p) && DistinctRows(p, rs)
    ensures After(p, x, rs) == x || exists r <- rs :: p.rowKey(r) == p.key(x) && After(p, x, rs) == p.update(x, r)
    ensures forall r <- rs :: p.rowKey(r) == p.key(x) ==> After(p, x, rs) == p.update(x, r)
    decreases |rs|
  {
    if rs != [] {
      var init, last := rs[..|rs|-1], rs[|rs|-1];
      OneRowEach(p, x, init);
      if p.rowKey(last) == p.key(x) {
        forall r <- init ensures p.rowKey(r) != p.key(x) {
          var i :| 0 <= i < |init| && init[i] == r;
          assert p.rowKey(rs[i]) != p.rowKey(rs[|rs|-1]);
        }
        AfterOthers(p, x, init);
        assert last in rs;
      }
    }
  }

  /** Distinct rows over nothing make one element each, in their order. */
  lemma {:induction false} FromNothing<T(!new), R(!new)>(p: Keeping<T, R>, rs: seq<R>)
    requires Lawful(p) && DistinctRows(p, rs)
    ensures |UpsertAll(p, [], rs)| == |rs|
    ensures forall i :: 0 <= i < |rs| ==> UpsertAll(p, [], rs)[i] == p.update(p.blank(rs[i]), rs[i])
    decreases |rs|
  {
    if rs != [] {
      var init, last := rs[..|rs|-1], rs[|rs|-1];
      FromNothing(p, init);
      forall j | 0 <= j < |init| ensures p.key(UpsertAll(p, [], init)[j]) != p.rowKey(last) {
        assert p.rowKey(rs[j]) != p.rowKey(rs[|rs|-1]);
      }
    }
  }

  /** Rows of one name that is new make one element more. */
  lemma {:induction false} RunOfOneName<T(!new), R(!new)>(p: Keeping<T, R>, xs: seq<T>, rs: seq<R>, k: string)
    requires Lawful(p) && rs != [] && Find(xs, p.key, k).None? && forall r <- rs :: p.rowKey(r) == k
    ensures UpsertAll(p, xs, rs) == xs + [After(p, p.blank(rs[0]), rs)]
    decreases |rs|
  {
    var init, last := rs[..|rs|-1], rs[|rs|-1];
    assert rs[0] in rs && last in rs;
    if init == [] {
      assert UpsertAll(p, xs, init) == xs;
      assert After(p, p.blank(rs[0]), init) == p.blank(rs[0]);
    } else {
      RunOfOneName(p, xs, init, k);
      var x := After(p, p.blank(rs[0]), init);
      AfterKeepsTheKey(p, p.blank(rs[0]), init);
      FindIsUnique(xs + [x], p.key, k, |xs|);
      assert (xs + [x])[|xs| := p.update(x, last)] == xs + [p.update(x, last)];
    }
  }

  lemma {:induction false} UpsertAllAppend<T, R>(p: Keeping<T, R>, xs: seq<T>, a: seq<R>, b: seq<R>)
    ensures UpsertAll(p, xs, a + b) == UpsertAll(p, UpsertAll(p, xs, a), b)
    decreases |b|
  {
    if b == [] {
      assert a + b == a;
    } else {
      assert (a + b)[..|a + b|-1] == a + b[..|b|-1];
      UpsertAllAppend(p, xs, a, b[..|b|-1]);
    }
  }
}
