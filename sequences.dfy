/** Facts about sequences, and the list-building loop the decoders share. */
module Sequences {
  import opened Wrappers

  /** Concatenation is associative. */
  lemma AppendAssociative<T>(a: seq<T>, b: seq<T>, c: seq<T>)
    ensures (a + b) + c == a + (b + c)
  {
  }

  /**
   * Converts every element in order and collects the results; the first element that fails to
   * convert decides the outcome, as a loop that throws on that element does.
   */
  function MapAll<A, B, E>(xs: seq<A>, f: A -> Result<B, E>): (r: Result<seq<B>, E>)
    ensures r.Success? ==> |r.value| == |xs| && forall i :: 0 <= i < |xs| ==> f(xs[i]) == Success(r.value[i])
    ensures r.Failure? ==> exists i :: 0 <= i < |xs| && f(xs[i]) == Failure(r.error) && forall j :: 0 <= j < i ==> f(xs[j]).Success?
  {
    if xs == [] then Success([])
    else
      var init := xs[..|xs| - 1];
      assert forall i :: 0 <= i < |init| ==> init[i] == xs[i];
      match MapAll(init, f)
      case Failure(e) => Failure(e)
      case Success(ys) =>
        match f(xs[|xs| - 1])
        case Failure(e) => Failure(e)
        case Success(y) => Success(ys + [y])
  }

  /** The collected results are exactly the successes of every element, so the outcome fails exactly when some element does. */
  lemma MapAllFailsIff<A, B, E>(xs: seq<A>, f: A -> Result<B, E>)
    ensures MapAll(xs, f).Failure? <==> exists i :: 0 <= i < |xs| && f(xs[i]).Failure?
  {
    if MapAll(xs, f).Success? {
      var ys := MapAll(xs, f).value;
      assert forall i :: 0 <= i < |xs| ==> f(xs[i]) == Success(ys[i]);
    }
  }

  /** One more element: the results so far extended by its result, unless something has failed. */
  lemma {:induction false} MapAllSnoc<A, B, E>(xs: seq<A>, x: A, f: A -> Result<B, E>)
    ensures MapAll(xs + [x], f) ==
      match MapAll(xs, f)
      case Failure(e) => Failure(e)
      case Success(ys) => (match f(x) case Failure(e) => Failure(e) case Success(y) => Success(ys + [y]))
  {
    assert (xs + [x])[..|xs + [x]| - 1] == xs;
  }

  /** The loop that builds the list: one conversion per element, in order, stopping at the first failure. */
  method CollectAll<A, B, E>(xs: seq<A>, f: A -> Result<B, E>) returns (r: Result<seq<B>, E>)
    ensures r == MapAll(xs, f)
  {
    var list: seq<B> := [];
    var i := 0;
    while i < |xs|
      invariant 0 <= i <= |xs| && |list| == i
      invariant forall j :: 0 <= j < i ==> f(xs[j]) == Success(list[j])
    {
      var item := f(xs[i]);
      if item.Failure? {
        MapAllFirstFailure(xs, f, i);
        return Failure(item.error);
      }
      list := list + [item.value];
      i := i + 1;
    }
    MapAllAllSucceed(xs, f, list);
    r := Success(list);
  }

  /** The first failure of `MapAll` is that of the first element that fails. */
  lemma MapAllFirstFailure<A, B, E>(xs: seq<A>, f: A -> Result<B, E>, i: nat)
    requires i < |xs| && f(xs[i]).Failure?
    requires forall j :: 0 <= j < i ==> f(xs[j]).Success?
    ensures MapAll(xs, f) == Failure(f(xs[i]).error)
  {
    MapAllFailsIff(xs, f);
    var k :| 0 <= k < |xs| && f(xs[k]) == Failure(MapAll(xs, f).error) && forall j :: 0 <= j < k ==> f(xs[j]).Success?;
    assert k == i;
  }

  /** When every element converts, the results are exactly the conversions, in order. */
  lemma MapAllAllSucceed<A, B, E>(xs: seq<A>, f: A -> Result<B, E>, list: seq<B>)
    requires |list| == |xs| && forall j :: 0 <= j < |xs| ==> f(xs[j]) == Success(list[j])
    ensures MapAll(xs, f) == Success(list)
  {
    var ys := MapAll(xs, f).value;
    forall j | 0 <= j < |xs|
      ensures ys[j] == list[j]
    {
      assert f(xs[j]) == Success(ys[j]) && f(xs[j]) == Success(list[j]);
    }
    assert ys == list;
  }

  /** The first element carrying the tag `s`: the search an enum's `values()` loop performs. */
  function FirstMatch<T>(xs: seq<T>, tag: T -> string, s: string): (r: Option<T>)
    ensures r.Some? <==> exists i :: 0 <= i < |xs| && tag(xs[i]) == s
    ensures r.Some? ==> tag(r.value) == s && r.value in xs
  {
    if xs == [] then None
    else if tag(xs[0]) == s then Some(xs[0])
    else FirstMatch(xs[1..], tag, s)
  }
}
