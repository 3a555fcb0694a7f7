/** Small result types shared by every module of the model. */
module Common {

  /** A value that may be absent (Python's `None` as "nothing here"). */
  datatype Option<+T> = None | Some(value: T) {

    /** The value, or `default` when absent (Python's `d.get(key, default)`). */
    function GetOr(default: T): (r: T)
      ensures Some? ==> r == value
      ensures None? ==> r == default
    {
      match this
      case Some(v) => v
      case None => default
    }
  }

  /** The outcome of evaluating a piece of the scripts: a value, or an exception
      that nothing in the script catches (AttributeError, KeyError, TypeError). */
  datatype Eval<+T> = Ok(value: T) | Raises

  /** Running steps one after another, as a script's loop does: every value
      in order, or `Raises` as soon as one step raises. */
  function AllOk<T>(steps: seq<Eval<T>>): (r: Eval<seq<T>>)
    ensures r.Ok? <==> forall i :: 0 <= i < |steps| ==> steps[i].Ok?
    ensures r.Ok? ==> |r.value| == |steps| && forall i :: 0 <= i < |steps| ==> r.value[i] == steps[i].value
  {
    if |steps| == 0 then Ok([])
    else
      match steps[0]
      case Raises => Raises
      case Ok(v) =>
        match AllOk(steps[1..])
        case Raises => Raises
        case Ok(vs) => Ok([v] + vs)
  }
}
