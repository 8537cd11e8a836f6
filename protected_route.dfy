/** The guard of components/auth/protected-route.tsx: what it renders and
    where its effect redirects, for each (user, loading) pair. */
module ProtectedRoute {
  import opened Wrappers
  import opened Types

  /** The three things the guard can render. */
  datatype Render = Skeleton | Nothing | Children

  /** The effect: push to /login once loading is over without a user. */
  function Redirect(user: Option<User>, loading: bool): (to: Option<string>)
    ensures to.Some? <==> !loading && user.None?
    ensures to.Some? ==> to.value == "/login"
  {
    if !loading && user.None? then Some("/login") else None
  }

  /** The rendered output. */
  function Rendered(user: Option<User>, loading: bool): (r: Render)
    ensures r == Skeleton <==> loading
    ensures r == Nothing <==> !loading && user.None?
    ensures r == Children <==> !loading && user.Some?
  {
    if loading then Skeleton
    else if user.None? then Nothing
    else Children
  }

  /** A redirect happens exactly when nothing is rendered; the children are
      never shown while a redirect is pending, and the skeleton never
      redirects. */
  lemma RedirectOnlyWhenNothingRendered(user: Option<User>, loading: bool)
    ensures Redirect(user, loading).Some? <==> Rendered(user, loading) == Nothing
    ensures Rendered(user, loading) == Children ==> Redirect(user, loading) == None
    ensures loading ==> Redirect(user, loading) == None && Rendered(user, loading) == Skeleton
  {
  }
}
