/** The authentication store of store/useAuthStore.ts, and the listener of
    hooks/useAuthListener.ts that feeds it. */
module AuthStore {
  import opened Wrappers
  import opened Types

  class AuthStore {
    var user: Option<User>
    var loading: bool

    /** The store starts with no user, still loading. */
    constructor ()
      ensures user == None && loading
    {
      user := None;
      loading := true;
    }

    /** `setUser`: the user is set and loading is over. */
    method SetUser(u: Option<User>)
      modifies this
      ensures user == u && !loading
    {
      user, loading := u, false;
    }

    /** `setLoading`: only the flag changes. */
    method SetLoading(b: bool)
      modifies this
      ensures loading == b && user == old(user)
    {
      loading := b;
    }

    /** `logout`: once the sign-out call has succeeded the user is cleared;
        the loading flag is untouched. A sign-out that fails rejects before
        the store changes. */
    method Logout(signOutSucceeds: bool) returns (ok: bool)
      modifies this
      ensures ok == signOutSucceeds
      ensures ok ==> user == None
      ensures !ok ==> user == old(user)
      ensures loading == old(loading)
    {
      if !signOutSucceeds {
        return false;
      }
      user := None;
      return true;
    }

    /** The auth listener's callback: `setUser(user)` then `setLoading(false)`. */
    method OnAuthChange(u: Option<User>)
      modifies this
      ensures user == u && !loading
    {
      SetUser(u);
      SetLoading(false);
    }
  }
}
