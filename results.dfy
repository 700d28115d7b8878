/** Result and Option values, and mapping a fallible function over a sequence
    the way a Python loop that raises on the first bad element does. */
module Results {

  datatype Option<+T> = None | Some(value: T)

  /** Either a value or the error that stopped the computation; usable with `:-`. */
  datatype Result<+T, +E> = Ok(value: T) | Err(error: E) {
    predicate IsFailure() { Err? }

    function PropagateFailure<U>(): Result<U, E>
      requires Err?
    {
      Err(error)
    }

    function Extract(): T
      requires Ok?
    {
      value
    }
  }

  /** Applies `f` to every element in order and stops at the first error. */
  function MapAll<A, B, E>(xs: seq<A>, f: A -> Result<B, E>): (r: Result<seq<B>, E>)
    ensures r.Ok? ==> |r.value| == |xs| && forall k :: 0 <= k < |xs| ==> f(xs[k]) == Ok(r.value[k])
    ensures r.Err? ==>
      exists k :: 0 <= k < |xs| && f(xs[k]) == Err(r.error) && forall j :: 0 <= j < k ==> f(xs[j]).Ok?
    decreases |xs|
  {
    if xs == [] then Ok([])
    else
      var init := xs[..|xs| - 1];
      assert forall k :: 0 <= k < |init| ==> xs[k] == init[k];
      match MapAll(init, f)
      case Err(e) => Err(e)
      case Ok(ys) =>
        match f(xs[|xs| - 1])
        case Err(e) =>
          assert f(xs[|init|]) == Err(e) && forall j :: 0 <= j < |init| ==> f(xs[j]).Ok?;
          Err(e)
        case Ok(y) => Ok(ys + [y])
  }

  /** The outcome is decided by the first failing element, so an error met
      on a prefix is the error of the whole sequence. */
  lemma {:induction false} MapAllErrPrefix<A, B, E>(xs: seq<A>, f: A -> Result<B, E>, i: nat)
    requires i <= |xs| && MapAll(xs[..i], f).Err?
    ensures MapAll(xs, f) == MapAll(xs[..i], f)
    decreases |xs| - i
  {
    if i < |xs| {
      var ys := xs[..i + 1];
      assert ys[..|ys| - 1] == xs[..i];
      assert MapAll(ys, f) == MapAll(xs[..i], f);
      MapAllErrPrefix(xs, f, i + 1);
    } else {
      assert xs[..i] == xs;
    }
  }

  /** The error is that of the first failing element. */
  lemma {:induction false} MapAllFirstErr<A, B, E>(xs: seq<A>, f: A -> Result<B, E>, i: nat)
    requires i < |xs| && f(xs[i]).Err? && forall j :: 0 <= j < i ==> f(xs[j]).Ok?
    ensures MapAll(xs, f) == Err(f(xs[i]).error)
  {
    var r := MapAll(xs, f);
    assert r.Err?;
    var k :| 0 <= k < |xs| && f(xs[k]) == Err(r.error) && forall j :: 0 <= j < k ==> f(xs[j]).Ok?;
    assert f(xs[k]).Err?;
    assert k == i;
  }

  /** Where every element of a suffix succeeds, an element that fails
      occurs only before it. */
  lemma {:induction false} MapAllOkAvoids<A, B, E>(xs: seq<A>, from: nat, f: A -> Result<B, E>, x: A)
    requires from <= |xs| && MapAll(xs[from..], f).Ok? && f(x).Err?
    ensures forall k :: from <= k < |xs| ==> xs[k] != x
  {
    assert forall k :: from <= k < |xs| ==> xs[k] == xs[from..][k - from];
  }

  /** Extending a successful prefix by one element. */
  lemma {:induction false} MapAllSnoc<A, B, E>(xs: seq<A>, f: A -> Result<B, E>, i: nat, ys: seq<B>)
    requires i < |xs| && MapAll(xs[..i], f) == Ok(ys)
    ensures MapAll(xs[..i + 1], f) ==
      match f(xs[i])
      case Ok(y) => Ok(ys + [y])
      case Err(e) => Err(e)
  {
    assert xs[..i + 1][..i] == xs[..i];
  }

  /** Conversely, when every element succeeds the result is the list of
      their results, in order. */
  lemma {:induction false} MapAllOk<A, B, E>(xs: seq<A>, f: A -> Result<B, E>, ys: seq<B>)
    requires |ys| == |xs| && forall k :: 0 <= k < |xs| ==> f(xs[k]) == Ok(ys[k])
    ensures MapAll(xs, f) == Ok(ys)
    decreases |xs|
  {
    if xs != [] {
      var init, rest := xs[..|xs| - 1], ys[..|ys| - 1];
      assert forall k :: 0 <= k < |init| ==> init[k] == xs[k] && rest[k] == ys[k];
      MapAllOk(init, f, rest);
      assert ys == rest + [ys[|ys| - 1]];
    }
  }

  /** The loop `for x in xs: out.append(f(x))` of a parser whose `f` raises:
      it stops at the first error. */
  method ParseEach<A, B, E>(xs: seq<A>, f: A -> Result<B, E>) returns (r: Result<seq<B>, E>)
    ensures r == MapAll(xs, f)
  {
    var out: seq<B> := [];
    for i := 0 to |xs|
      invariant MapAll(xs[..i], f) == Ok(out)
    {
      MapAllSnoc(xs, f, i, out);
      var y := f(xs[i]);
      if y.Err? {
        MapAllErrPrefix(xs, f, i + 1);
        return Err(y.error);
      }
      out := out + [y.value];
    }
    assert xs[..|xs|] == xs;
    return Ok(out);
  }
}
