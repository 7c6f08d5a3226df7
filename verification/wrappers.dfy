/** Option and Result, the failure-carrying wrappers used throughout the model. */
module Wrappers {

  datatype Option<+T> = None | Some(value: T)

  /** The outcome of a Python call that either returns a value or raises. */
  datatype Result<+T, +E> = Ok(value: T) | Err(error: E)

  /**
   * A loop over the steps `rs` that appends each step's value and lets the
   * first exception escape: the values, or that exception.
   */
  function Collect<T, E>(rs: seq<Result<T, E>>): Result<seq<T>, E>
  {
    if rs == [] then Ok([])
    else
      match Collect(rs[..|rs| - 1])
      case Err(e) => Err(e)
      case Ok(done) =>
        match rs[|rs| - 1]
        case Ok(x) => Ok(done + [x])
        case Err(e) => Err(e)
  }

  /** One more step that returns appends its value. */
  lemma {:induction false} CollectStep<T, E>(rs: seq<Result<T, E>>, i: nat, done: seq<T>)
    requires i < |rs| && Collect(rs[..i]) == Ok(done) && rs[i].Ok?
    ensures Collect(rs[..i + 1]) == Ok(done + [rs[i].value])
  {
    assert rs[..i + 1][..i] == rs[..i];
  }

  /** The first step that raises decides the outcome of the whole loop. */
  lemma {:induction false} CollectFails<T, E>(rs: seq<Result<T, E>>, i: nat, done: seq<T>)
    requires i < |rs| && Collect(rs[..i]) == Ok(done) && rs[i].Err?
    ensures Collect(rs) == Err(rs[i].error)
  {
    assert rs[..i + 1][..i] == rs[..i];
    CollectStops(rs, i + 1);
  }

  /** Once a step has raised, later steps are never looked at. */
  lemma {:induction false} CollectStops<T, E>(rs: seq<Result<T, E>>, n: nat)
    requires n <= |rs| && Collect(rs[..n]).Err?
    ensures Collect(rs) == Collect(rs[..n])
  {
    if n < |rs| {
      assert rs[..|rs| - 1][..n] == rs[..n];
      CollectStops(rs[..|rs| - 1], n);
    } else {
      assert rs[..n] == rs;
    }
  }

  /** The loop finishes exactly when no step raises, and then holds every step's value in order. */
  lemma {:induction false} CollectOk<T, E>(rs: seq<Result<T, E>>)
    ensures Collect(rs).Ok? <==> forall j | 0 <= j < |rs| :: rs[j].Ok?
    ensures Collect(rs).Ok? ==>
      |Collect(rs).value| == |rs| && forall j | 0 <= j < |rs| :: Collect(rs).value[j] == rs[j].value
  {
    if rs != [] {
      var init := rs[..|rs| - 1];
      CollectOk(init);
      assert forall j | 0 <= j < |init| :: init[j] == rs[j];
    }
  }

  /** When the loop raises, it raises what the first raising step raised. */
  lemma {:induction false} CollectErr<T, E>(rs: seq<Result<T, E>>, k: nat)
    requires k < |rs| && rs[k].Err?
    requires forall j | 0 <= j < k :: rs[j].Ok?
    ensures Collect(rs) == Err(rs[k].error)
  {
    CollectOk(rs[..k]);
    assert rs[..k + 1][..k] == rs[..k];
    CollectStops(rs, k + 1);
  }
}
