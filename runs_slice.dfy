/**
 * The `run` slice of Frontened/src/redux/runsSlicer.js: the result of the
 * last "Run" request, a loading flag, the last error and a `waiting` flag
 * that is set until a reply arrives.
 */
module RunsSlice {
  import opened Js

  /** The error a rejected run records when it carries no message. */
  const RunFailedMessage: string := "Failed to run problem"

  class RunState {
    var runResult: JsValue
    var loading: bool
    var error: JsValue
    var waiting: bool

    /** While a run is loading the slice waits for it and holds no error. */
    predicate Valid()
      reads this
    {
      loading ==> waiting && error == Null
    }

    predicate IsInitial()
      reads this
    {
      runResult == Null && !loading && error == Null && waiting
    }

    /** initialState. */
    constructor ()
      ensures IsInitial() && Valid()
    {
      runResult := Null;
      loading := false;
      error := Null;
      waiting := true;
    }

    /** resetRunState: back to the initial state from any state. */
    method ResetRunState()
      modifies this
      ensures IsInitial() && Valid()
    {
      runResult := Null;
      loading := false;
      error := Null;
      waiting := true;
    }

    /** runProblem.pending: the last result stays on display. */
    method Pending()
      requires Valid()
      modifies this
      ensures loading && error == Null && waiting
      ensures runResult == old(runResult)
      ensures Valid()
    {
      loading := true;
      error := Null;
      waiting := true;
    }

    /** runProblem.fulfilled: the error of an earlier rejection is not cleared. */
    method Fulfilled(payload: JsValue)
      requires Valid()
      modifies this
      ensures runResult == payload && !loading && !waiting
      ensures error == old(error)
      ensures Valid()
    {
      loading := false;
      runResult := payload;
      waiting := false;
    }

    /**
     * runProblem.rejected; `message` is `action.payload?.message`. The
     * previous result is kept and the error left is always truthy.
     */
    method Rejected(message: JsValue)
      requires Valid()
      modifies this
      ensures !loading && !waiting && error == Or(message, Str(RunFailedMessage))
      ensures Truthy(error)
      ensures runResult == old(runResult)
      ensures Valid()
    {
      loading := false;
      error := Or(message, Str(RunFailedMessage));
      waiting := false;
    }
  }
}
