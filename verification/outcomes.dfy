/** Java's `null`, the exceptions the modelled service code can raise, and the
    shape shared by every `for (Object obj : list)` loop of the service: the body
    runs on each element in order and the first exception it throws ends the loop. */
module Outcomes {

  /** A Java reference that may be `null` (`None`). */
  datatype Option<+T> = None | Some(value: T)

  /** The exceptions the modelled code raises. */
  datatype Exception =
    | NullPointer                 // a method called on `null`, or an array read through it
    | ClassCast                   // a downcast of an `Object` to a class it does not have
    | IndexOutOfBounds            // an array read past its end
    | NumberFormat                // `Long.parseLong` given text that is not a long
    | Arithmetic                  // `Math.toIntExact` given a long outside the int range
    | Validation(message: string) // the service's own `ValidationException`

  /** A value, or the exception thrown while computing it. */
  datatype Result<+T> = Ok(value: T) | Err(error: Exception) {
    predicate IsFailure() { Err? }

    function PropagateFailure<U>(): Result<U>
      requires Err?
    {
      Err(error)
    }

    function Extract(): T
      requires Ok?
    {
      value
    }
  }

  /** `i` is the first element of `xs` on which `f` throws. */
  predicate FirstFailure<A, B>(xs: seq<A>, f: A -> Result<B>, i: int) {
    0 <= i < |xs| && f(xs[i]).Err? && forall j :: 0 <= j < i ==> f(xs[j]).Ok?
  }

  /** Runs `f` on every element of `xs` in order and collects the results, as a
      for-each loop that appends to a fresh list: either every element converts
      and the results keep length and order, or the exception thrown on the first
      failing element is the outcome. */
  function MapAll<A, B>(xs: seq<A>, f: A -> Result<B>): (r: Result<seq<B>>)
    ensures r.Ok? <==> forall i :: 0 <= i < |xs| ==> f(xs[i]).Ok?
    ensures r.Ok? ==> |r.value| == |xs|
    ensures r.Ok? ==> forall i :: 0 <= i < |xs| ==> f(xs[i]) == Ok(r.value[i])
    ensures forall i :: FirstFailure(xs, f, i) ==> r == Err(f(xs[i]).error)
  {
    if xs == [] then Ok([])
    else
      var rest := MapAll(xs[1..], f);
      assert forall i :: 1 <= i < |xs| ==> xs[1..][i - 1] == xs[i];
      assert forall i :: FirstFailure(xs, f, i) && i > 0 ==> FirstFailure(xs[1..], f, i - 1);
      match f(xs[0])
      case Err(e) => Err(e)
      case Ok(y) =>
        match rest
        case Err(e) => Err(e)
        case Ok(ys) => Ok([y] + ys)
  }

  /** A list whose every element is what `f` makes of the same-indexed element
      of `xs` is the outcome of `MapAll`. */
  lemma MapAllOk<A, B>(xs: seq<A>, f: A -> Result<B>, ys: seq<B>)
    requires |ys| == |xs|
    requires forall k :: 0 <= k < |xs| ==> f(xs[k]) == Ok(ys[k])
    ensures MapAll(xs, f) == Ok(ys)
  {
    var all := MapAll(xs, f);
    assert forall k :: 0 <= k < |xs| ==> all.value[k] == ys[k];
    assert all.value == ys;
  }

  /** One more step of the loop: if the first `j` elements converted to `ys`,
      element `j` either throws, ending the whole loop with its exception, or
      extends the converted prefix by its own result. */
  lemma {:induction false} MapAllStep<A, B>(xs: seq<A>, f: A -> Result<B>, j: int, ys: seq<B>)
    requires 0 <= j < |xs| && MapAll(xs[..j], f) == Ok(ys)
    ensures f(xs[j]).Err? ==> MapAll(xs, f) == Err(f(xs[j]).error)
    ensures f(xs[j]).Ok? ==> MapAll(xs[..j + 1], f) == Ok(ys + [f(xs[j]).value])
  {
    assert forall k :: 0 <= k < j ==> xs[..j][k] == xs[k];
    if f(xs[j]).Err? {
      assert FirstFailure(xs, f, j);
    } else {
      var next := xs[..j + 1];
      assert forall k :: 0 <= k < j ==> next[k] == xs[..j][k];
      assert next[j] == xs[j];
      MapAllOk(next, f, ys + [f(xs[j]).value]);
    }
  }

  /** The overwriting loop over converted elements: `null` for no elements;
      otherwise it succeeds exactly when every element converts, and then holds
      the last element's result. */
  lemma {:induction false} LastOfMapAll<A, B>(xs: seq<A>, f: A -> Result<B>)
    ensures xs == [] ==> LastOrNull(MapAll(xs, f)) == Ok(None)
    ensures LastOrNull(MapAll(xs, f)).Ok? <==> forall i :: 0 <= i < |xs| ==> f(xs[i]).Ok?
    ensures LastOrNull(MapAll(xs, f)).Ok? && xs != [] ==>
              LastOrNull(MapAll(xs, f)) == Ok(Some(f(xs[|xs| - 1]).value))
  {
    var all := MapAll(xs, f);
    if all.Ok? && xs != [] {
      assert f(xs[|xs| - 1]) == Ok(all.value[|xs| - 1]);
    }
  }

  /** The outcome of a loop that overwrites one variable with each converted
      element: `null` for an empty list, otherwise the last element's result. */
  function LastOrNull<T>(r: Result<seq<T>>): (o: Result<Option<T>>)
    ensures o.Err? <==> r.Err?
    ensures o.Err? ==> o.error == r.error
    ensures o.Ok? ==> (o.value.None? <==> r.value == [])
    ensures o.Ok? && o.value.Some? ==> o.value.value == r.value[|r.value| - 1]
  {
    match r
    case Err(e) => Err(e)
    case Ok(s) => if s == [] then Ok(None) else Ok(Some(s[|s| - 1]))
  }
}
