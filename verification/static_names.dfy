/**
  The static-name diff of `updateStatics`: which own property names of a new
  class definition are "newly seen" by the stable proxy constructor.

  Property-name lists are sequences, as `Object.getOwnPropertyNames` returns
  arrays; `Difference` keeps the order of its first argument, as lodash's
  `difference` does.
 */
module StaticNames {

  /** The own property through which a proxy constructor points back to its handle. */
  const MarkerName: string := "__reactPatchProxy"

  /** `staticsToIgnore`: bookkeeping names never reconciled as statics. */
  const SpecialStatics: seq<string> := [MarkerName, "type", "displayName"]

  /** `ignoreSpecialStatics`: true for the names the reconciliation may install. */
  predicate IgnoreSpecialStatics(n: string)
    ensures IgnoreSpecialStatics(n) <==> n != "__reactPatchProxy" && n != "type" && n != "displayName"
  {
    n !in SpecialStatics
  }

  /** Each name occurs at most once, as in a list of own property names. */
  predicate Distinct(xs: seq<string>) {
    forall i, j :: 0 <= i < j < |xs| ==> xs[i] != xs[j]
  }

  /** `Array.prototype.filter` on a list of names. */
  function Filter(xs: seq<string>, keep: string -> bool): (r: seq<string>)
    ensures forall x :: x in r <==> x in xs && keep(x)
    ensures |r| <= |xs|
    ensures Distinct(xs) ==> Distinct(r)
  {
    if xs == [] then []
    else if keep(xs[0]) then
      var rest := Filter(xs[1..], keep);
      assert xs[0] !in xs[1..] ==> xs[0] !in rest;
      [xs[0]] + rest
    else Filter(xs[1..], keep)
  }

  /**
    Filtering keeps the order of the list: filtering a concatenation is
    concatenating the filtered parts, and a single name is kept or dropped.
   */
  lemma {:induction false} FilterAppend(xs: seq<string>, ys: seq<string>, keep: string -> bool)
    ensures Filter(xs + ys, keep) == Filter(xs, keep) + Filter(ys, keep)
  {
    if xs != [] {
      assert (xs + ys)[0] == xs[0];
      assert (xs + ys)[1..] == xs[1..] + ys;
      FilterAppend(xs[1..], ys, keep);
    } else {
      assert xs + ys == ys;
    }
  }

  /** A single name is kept exactly when it passes. */
  lemma FilterSingle(x: string, keep: string -> bool)
    ensures Filter([x], keep) == if keep(x) then [x] else []
  {
    assert [x][1..] == [];
  }

  /** lodash `difference(xs, ys)`: the names of `xs` that do not occur in `ys`, in `xs` order. */
  function Difference(xs: seq<string>, ys: seq<string>): (r: seq<string>)
    ensures forall x :: x in r <==> x in xs && x !in ys
    ensures Distinct(xs) ==> Distinct(r)
  {
    Filter(xs, x => x !in ys)
  }

  /** `difference` keeps the order of its first list, as filtering does. */
  lemma DifferenceAppend(xs: seq<string>, zs: seq<string>, ys: seq<string>)
    ensures Difference(xs + zs, ys) == Difference(xs, ys) + Difference(zs, ys)
  {
    FilterAppend(xs, zs, x => x !in ys);
  }

  /**
    `addedNames` of `updateStatics`: the own names of the next definition,
    minus the special statics, that are not already own names of the proxy
    constructor.
   */
  function AddedNames(nextNames: seq<string>, currentNames: seq<string>): (r: seq<string>)
    ensures forall x :: x in r <==> x in nextNames && x !in currentNames && IgnoreSpecialStatics(x)
    ensures Distinct(nextNames) ==> Distinct(r)
  {
    Difference(Filter(nextNames, IgnoreSpecialStatics), Filter(currentNames, IgnoreSpecialStatics))
  }

  /** A filter that rejects every name of the list keeps nothing. */
  lemma {:induction false} FilterKeepsNothing(xs: seq<string>, keep: string -> bool)
    requires forall x :: x in xs ==> !keep(x)
    ensures Filter(xs, keep) == []
  {
    if xs != [] {
      FilterKeepsNothing(xs[1..], keep);
    }
  }

  /**
    Once the added names have become own names of the proxy constructor, a
    second reconciliation against the same definition adds nothing, whatever
    other names the constructor has gained meanwhile.
   */
  lemma {:induction false} NothingAddedTwice(nextNames: seq<string>, currentNames: seq<string>, later: seq<string>)
    requires forall x :: x in currentNames + AddedNames(nextNames, currentNames) ==> x in later
    ensures AddedNames(nextNames, later) == []
  {
    var candidates := Filter(nextNames, IgnoreSpecialStatics);
    var own := Filter(later, IgnoreSpecialStatics);
    forall x | x in candidates
      ensures x in own
    {
      assert x in currentNames || x in AddedNames(nextNames, currentNames);
    }
    FilterKeepsNothing(candidates, x => x !in own);
  }

  /** Two name lists without a common name, each repetition-free, concatenate to a repetition-free list. */
  lemma {:induction false} DistinctConcat(xs: seq<string>, ys: seq<string>)
    requires Distinct(xs) && Distinct(ys)
    requires forall y :: y in ys ==> y !in xs
    ensures Distinct(xs + ys)
  {
    forall i, j | 0 <= i < j < |xs + ys|
      ensures (xs + ys)[i] != (xs + ys)[j]
    {
      if j >= |xs| && i < |xs| {
        assert ys[j - |xs|] in ys;
        assert xs[i] in xs;
      }
    }
  }
}
