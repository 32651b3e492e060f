/**
 * The `auth` slice of Frontened/src/redux/authSlicer.js: the signed-in user,
 * whether there is one, a loading flag, the last error, and a `pending` flag
 * that only the register and login cases write. The four request kinds share
 * one pending/fulfilled/rejected handler each here; every handler follows its
 * `addCase` line by line.
 */
module AuthSlice {
  import opened Js

  /** The four async thunks whose lifecycle actions the slice handles. */
  datatype Thunk = Register | Login | Logout | CheckAuth

  /** The error recorded by a rejected register, login or logout without a message. */
  const FallbackError: string := "Something went wrong"

  /** The register and login cases write `pending`; logout and checkAuth write `loading`. */
  predicate UsesPendingFlag(t: Thunk) { t == Register || t == Login }

  class AuthState {
    var user: JsValue
    var isAuthenticated: bool
    var loading: bool
    var error: JsValue
    /** Not part of the initial state, so `undefined` until register or login starts. */
    var pending: JsValue

    /**
     * Kept by every case: the slice is authenticated exactly when it holds a
     * truthy user, and a request marked as loading has no error against it.
     */
    predicate Valid()
      reads this
    {
      isAuthenticated == Truthy(user) && (loading ==> error == Null)
    }

    /** The initial state of the slice. */
    constructor ()
      ensures user == Null && !isAuthenticated && !loading && error == Null && pending == Undefined
      ensures Valid()
    {
      user := Null;
      isAuthenticated := false;
      loading := false;
      error := Null;
      pending := Undefined;
    }

    /** `<thunk>.pending`: the error is cleared and a flag is raised. */
    method Pending(t: Thunk)
      requires Valid()
      modifies this
      ensures error == Null
      ensures UsesPendingFlag(t) ==> pending == Bool(true) && loading == old(loading)
      ensures !UsesPendingFlag(t) ==> loading && pending == old(pending)
      ensures user == old(user) && isAuthenticated == old(isAuthenticated)
      ensures Valid()
    {
      if UsesPendingFlag(t) {
        pending := Bool(true);
        error := Null;
      } else {
        loading := true;
        error := Null;
      }
    }

    /**
     * `<thunk>.fulfilled`. Register, login and checkAuth store the payload as
     * the user and authenticate exactly when it is truthy; logout clears
     * everything. Register and login leave `loading` and the error alone.
     */
    method Fulfilled(t: Thunk, payload: JsValue)
      requires Valid()
      modifies this
      ensures t != Logout ==> user == payload && isAuthenticated == Truthy(payload)
      ensures t == Logout ==> user == Null && !isAuthenticated
      ensures UsesPendingFlag(t) ==>
        pending == Bool(false) && loading == old(loading) && error == old(error)
      ensures !UsesPendingFlag(t) ==> !loading && error == Null && pending == old(pending)
      ensures Valid()
    {
      match t
      case Register =>
        pending := Bool(false);
        isAuthenticated := Truthy(payload);
        user := payload;
      case Login =>
        pending := Bool(false);
        isAuthenticated := Truthy(payload);
        user := payload;
      case Logout =>
        loading := false;
        isAuthenticated := false;
        user := Null;
        error := Null;
      case CheckAuth =>
        loading := false;
        isAuthenticated := Truthy(payload);
        user := payload;
        error := Null;
    }

    /**
     * `<thunk>.rejected`; `message` is `action.payload?.message`. Every
     * rejection signs the user out and clears `loading`; only checkAuth records
     * the message with no fallback. `pending` is never cleared here, so a
     * failed register or login leaves it `true`.
     */
    method Rejected(t: Thunk, message: JsValue)
      requires Valid()
      modifies this
      ensures user == Null && !isAuthenticated && !loading
      ensures t != CheckAuth ==> error == Or(message, Str(FallbackError)) && Truthy(error)
      ensures t == CheckAuth ==> error == message
      ensures pending == old(pending)
      ensures Valid()
    {
      if t == CheckAuth {
        error := message;
        user := Null;
        loading := false;
        isAuthenticated := false;
      } else {
        loading := false;
        error := Or(message, Str(FallbackError));
        isAuthenticated := false;
        user := Null;
      }
    }
  }
}
