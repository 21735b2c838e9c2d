/**
 * The accumulation loops of the modelled code (`for v in items: rows.append(...)`)
 * stated as left folds over a sequence whose step may raise: the first error
 * stops the loop.
 */
module Folds {
  import opened Wrappers

  /** Apply `f` to each item in order, collecting one result per item. */
  function MapAll<A, B, E>(xs: seq<A>, f: A -> Result<B, E>): Result<seq<B>, E>
    decreases |xs|
  {
    if xs == [] then Ok([])
    else
      var init :- MapAll(xs[..|xs| - 1], f);
      var last :- f(xs[|xs| - 1]);
      Ok(init + [last])
  }

  /** A fold over one item yields that item's result alone, or its error. */
  lemma MapAllSingle<A, B, E>(x: A, f: A -> Result<B, E>)
    ensures f(x).Ok? ==> MapAll([x], f) == Ok([f(x).value])
    ensures f(x).Err? ==> MapAll([x], f) == Err(f(x).error)
  {
    assert [x][..0] == [];
    assert MapAll([x][..0], f) == Ok([]);
    if f(x).Ok? {
      assert [] + [f(x).value] == [f(x).value];
    }
  }

  /** Apply `f` to each item in order, concatenating the sequences it yields. */
  function ConcatAll<A, B, E>(xs: seq<A>, f: A -> Result<seq<B>, E>): Result<seq<B>, E>
    decreases |xs|
  {
    if xs == [] then Ok([])
    else
      var init :- ConcatAll(xs[..|xs| - 1], f);
      var last :- f(xs[|xs| - 1]);
      Ok(init + last)
  }

  /** A successful fold yields exactly one result per item, in item order. */
  lemma {:induction false} MapAllOk<A, B, E>(xs: seq<A>, f: A -> Result<B, E>)
    ensures MapAll(xs, f).Ok? <==> forall i :: 0 <= i < |xs| ==> f(xs[i]).Ok?
    ensures MapAll(xs, f).Ok? ==>
      |MapAll(xs, f).value| == |xs| &&
      forall i :: 0 <= i < |xs| ==> f(xs[i]) == Ok(MapAll(xs, f).value[i])
    decreases |xs|
  {
    if xs != [] {
      var xs' := xs[..|xs| - 1];
      MapAllOk(xs', f);
      assert forall i :: 0 <= i < |xs'| ==> xs'[i] == xs[i];
    }
  }

  /** A failing fold reports the error of the first item whose step fails. */
  lemma {:induction false} MapAllErr<A, B, E>(xs: seq<A>, f: A -> Result<B, E>)
    requires MapAll(xs, f).Err?
    ensures exists i :: 0 <= i < |xs| && f(xs[i]) == Err(MapAll(xs, f).error) &&
                        (forall j :: 0 <= j < i ==> f(xs[j]).Ok?)
    decreases |xs|
  {
    var xs' := xs[..|xs| - 1];
    assert forall i :: 0 <= i < |xs'| ==> xs'[i] == xs[i];
    if MapAll(xs', f).Err? {
      MapAllErr(xs', f);
    } else {
      MapAllOk(xs', f);
      assert f(xs[|xs| - 1]) == Err(MapAll(xs, f).error);
    }
  }

  /** Once a prefix of the items has failed, the whole fold fails with that error. */
  lemma {:induction false} MapAllPrefixErr<A, B, E>(xs: seq<A>, k: nat, f: A -> Result<B, E>)
    requires k <= |xs|
    requires MapAll(xs[..k], f).Err?
    ensures MapAll(xs, f) == MapAll(xs[..k], f)
    decreases |xs| - k
  {
    if k < |xs| {
      assert xs[..k + 1][..k] == xs[..k];
      MapAllPrefixErr(xs, k + 1, f);
    } else {
      assert xs[..k] == xs;
    }
  }

  /** Once a prefix of the items has failed, the whole fold fails with that error. */
  lemma {:induction false} ConcatAllPrefixErr<A, B, E>(xs: seq<A>, k: nat, f: A -> Result<seq<B>, E>)
    requires k <= |xs|
    requires ConcatAll(xs[..k], f).Err?
    ensures ConcatAll(xs, f) == ConcatAll(xs[..k], f)
    decreases |xs| - k
  {
    if k < |xs| {
      assert xs[..k + 1][..k] == xs[..k];
      ConcatAllPrefixErr(xs, k + 1, f);
    } else {
      assert xs[..k] == xs;
    }
  }

  /** One more step of the fold over a prefix: it extends the result, or its error is the fold's. */
  lemma MapAllSnoc<A, B, E>(xs: seq<A>, k: nat, f: A -> Result<B, E>)
    requires k < |xs|
    requires MapAll(xs[..k], f).Ok?
    ensures f(xs[k]).Ok? ==> MapAll(xs[..k + 1], f) == Ok(MapAll(xs[..k], f).value + [f(xs[k]).value])
    ensures f(xs[k]).Err? ==> MapAll(xs, f) == Err(f(xs[k]).error)
  {
    assert xs[..k + 1][..k] == xs[..k];
    if f(xs[k]).Err? {
      MapAllPrefixErr(xs, k + 1, f);
    }
  }

  /** One more step of the concatenation over a prefix: it extends the result, or its error is the fold's. */
  lemma ConcatAllSnoc<A, B, E>(xs: seq<A>, k: nat, f: A -> Result<seq<B>, E>)
    requires k < |xs|
    requires ConcatAll(xs[..k], f).Ok?
    ensures f(xs[k]).Ok? ==> ConcatAll(xs[..k + 1], f) == Ok(ConcatAll(xs[..k], f).value + f(xs[k]).value)
    ensures f(xs[k]).Err? ==> ConcatAll(xs, f) == Err(f(xs[k]).error)
  {
    assert xs[..k + 1][..k] == xs[..k];
    if f(xs[k]).Err? {
      ConcatAllPrefixErr(xs, k + 1, f);
    }
  }

  /** The number of results the items yield together; a failing item yields none. */
  function YieldCount<A, B, E>(xs: seq<A>, f: A -> Result<seq<B>, E>): nat
    decreases |xs|
  {
    if xs == [] then 0
    else YieldCount(xs[..|xs| - 1], f) + (if f(xs[|xs| - 1]).Ok? then |f(xs[|xs| - 1]).value| else 0)
  }

  /**
   * A concatenation succeeds iff every item does, and then has as many
   * results as its items yield together.
   */
  lemma {:induction false} ConcatAllOk<A, B, E>(xs: seq<A>, f: A -> Result<seq<B>, E>)
    ensures ConcatAll(xs, f).Ok? <==> forall i :: 0 <= i < |xs| ==> f(xs[i]).Ok?
    ensures ConcatAll(xs, f).Ok? ==> |ConcatAll(xs, f).value| == YieldCount(xs, f)
    decreases |xs|
  {
    if xs != [] {
      var xs' := xs[..|xs| - 1];
      ConcatAllOk(xs', f);
      assert forall i :: 0 <= i < |xs'| ==> xs'[i] == xs[i];
    }
  }
}
