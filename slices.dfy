/**
 * The deduplicating appends the export task uses on its id selectors
 * (sliceutil.AppendUnique and sliceutil.AppendUniques). Their source is not
 * part of this model; they are modelled as "append unless already present",
 * applied element by element in order.
 */
module Slices {

  /** Append `x` to `xs` unless `xs` already holds it. */
  function AppendUnique<T(==)>(xs: seq<T>, x: T): seq<T>
  {
    if x in xs then xs else xs + [x]
  }

  /** Append every element of `ys`, in order, each with AppendUnique. */
  function AppendUniques<T(==)>(xs: seq<T>, ys: seq<T>): seq<T>
    decreases |ys|
  {
    if ys == [] then xs else AppendUniques(AppendUnique(xs, ys[0]), ys[1..])
  }

  predicate NoDuplicates<T(==)>(s: seq<T>)
  {
    forall i, j :: 0 <= i < j < |s| ==> s[i] != s[j]
  }

  /**
   * What AppendUniques promises: the old list stays an unchanged prefix, the
   * result holds exactly the elements of both lists, and the appended part
   * neither repeats an element nor repeats one of the old list.
   */
  lemma {:induction false} AppendUniquesSpec<T>(xs: seq<T>, ys: seq<T>)
    ensures |xs| <= |AppendUniques(xs, ys)|
    ensures AppendUniques(xs, ys)[..|xs|] == xs
    ensures forall z :: z in AppendUniques(xs, ys) <==> z in xs || z in ys
    ensures NoDuplicates(AppendUniques(xs, ys)[|xs|..])
    ensures forall i :: |xs| <= i < |AppendUniques(xs, ys)| ==> AppendUniques(xs, ys)[i] !in xs
    decreases |ys|
  {
    if ys != [] {
      var xs' := AppendUnique(xs, ys[0]);
      AppendUniquesSpec(xs', ys[1..]);
      var r := AppendUniques(xs', ys[1..]);
      assert r == AppendUniques(xs, ys);
      assert r[..|xs'|] == xs';
      assert r[..|xs|] == xs'[..|xs|] == xs;
      forall z
        ensures z in r <==> z in xs || z in ys
      {
        assert z in ys <==> z == ys[0] || z in ys[1..];
      }
      forall i | |xs| <= i < |r|
        ensures r[i] !in xs
      {
        if i < |xs'| {
          assert r[i] == xs'[i] == ys[0];
        }
      }
      forall i, j | |xs| <= i < j < |r|
        ensures r[i] != r[j]
      {
        if i < |xs'| {
          assert r[i] == ys[0] && ys[0] in xs';
        }
      }
    }
  }

  /** Appending only elements already present changes nothing. */
  lemma {:induction false} AppendUniquesAbsorbs<T>(xs: seq<T>, ys: seq<T>)
    requires forall y :: y in ys ==> y in xs
    ensures AppendUniques(xs, ys) == xs
    decreases |ys|
  {
    if ys != [] {
      assert ys[0] in xs;
      AppendUniquesAbsorbs(xs, ys[1..]);
    }
  }

  /** Appending the same list a second time is a no-op (idempotence). */
  lemma AppendUniquesIdempotent<T>(xs: seq<T>, ys: seq<T>)
    ensures AppendUniques(AppendUniques(xs, ys), ys) == AppendUniques(xs, ys)
  {
    AppendUniquesSpec(xs, ys);
    AppendUniquesAbsorbs(AppendUniques(xs, ys), ys);
  }

  /** A list without duplicates keeps that property under AppendUniques. */
  lemma AppendUniquesKeepsNoDuplicates<T>(xs: seq<T>, ys: seq<T>)
    requires NoDuplicates(xs)
    ensures NoDuplicates(AppendUniques(xs, ys))
  {
    AppendUniquesSpec(xs, ys);
    var r := AppendUniques(xs, ys);
    forall i, j | 0 <= i < j < |r|
      ensures r[i] != r[j]
    {
      if j < |xs| {
        assert r[i] == xs[i] && r[j] == xs[j];
      } else if i < |xs| {
        assert r[i] == xs[i];
      } else {
        assert r[i] == r[|xs|..][i - |xs|] && r[j] == r[|xs|..][j - |xs|];
      }
    }
  }

  /** Appending a concatenation is appending one list and then the other. */
  lemma {:induction false} AppendUniquesConcat<T>(xs: seq<T>, a: seq<T>, b: seq<T>)
    ensures AppendUniques(xs, a + b) == AppendUniques(AppendUniques(xs, a), b)
    decreases |a|
  {
    if a != [] {
      assert (a + b)[0] == a[0];
      assert (a + b)[1..] == a[1..] + b;
      AppendUniquesConcat(AppendUnique(xs, a[0]), a[1..], b);
    } else {
      assert a + b == b;
    }
  }

  /** One more element at the end of the appended list is one more AppendUnique. */
  lemma AppendUniquesSnoc<T>(xs: seq<T>, a: seq<T>, y: T)
    ensures AppendUniques(xs, a + [y]) == AppendUnique(AppendUniques(xs, a), y)
  {
    AppendUniquesConcat(xs, a, [y]);
    assert [y][1..] == [];
  }
}
