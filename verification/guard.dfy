/** The route guard in front of the admin dashboard. */
module Guard {
  import opened Wrappers
  import Auth

  const LOGIN_ROUTE: string := "/admin"

  /** What the guard renders inside the route: the children it wraps, or the nested route's outlet. */
  datatype Content = Children | Outlet

  datatype Decision =
    | ShowLoading
    | Render(content: Content)
    | Redirect(to: string, replace: bool)

  /**
   * The guard's decision. It waits while the session is loading, whatever the
   * authentication flag says; after that it renders when authenticated and
   * otherwise replaces the history entry with the login route.
   */
  function Decide(isLoading: bool, isAuthenticated: bool, hasChildren: bool): (d: Decision)
    ensures d.ShowLoading? <==> isLoading
    ensures d.Render? <==> !isLoading && isAuthenticated
    ensures d.Redirect? <==> !isLoading && !isAuthenticated
    ensures d.Render? ==> d.content == (if hasChildren then Children else Outlet)
    ensures d.Redirect? ==> d.to == LOGIN_ROUTE && d.replace
  {
    if isLoading then ShowLoading
    else if isAuthenticated then Render(if hasChildren then Children else Outlet)
    else Redirect(LOGIN_ROUTE, true)
  }

  /** The guard as a reader of the session store. */
  function DecideFor(store: Auth.AuthStore, hasChildren: bool): Decision
    reads store
  {
    Decide(store.isLoading, store.IsAuthenticated(), hasChildren)
  }

  /**
   * A freshly mounted store never makes the guard redirect; once rehydrated,
   * the guard redirects exactly when nothing was restored and no user was set.
   */
  method GuardAroundStartup(storage: map<string, string>, codec: Auth.ProfileCodec, hasChildren: bool)
    returns (before: Decision, after: Decision)
    ensures before == ShowLoading
    ensures after.Redirect? <==> !Auth.RestoreFrom(storage, codec).Restored?
    ensures after.Render? <==> Auth.RestoreFrom(storage, codec).Restored?
  {
    var store := new Auth.AuthStore(storage, codec);
    before := DecideFor(store, hasChildren);
    store.Rehydrate();
    after := DecideFor(store, hasChildren);
  }

  /** After logout the guard redirects to the login route, unless the store is still loading. */
  method GuardAfterLogout(store: Auth.AuthStore, hasChildren: bool) returns (d: Decision)
    modifies store
    ensures store.user == None && store.storage == old(store.storage) - {Auth.TOKEN_KEY, Auth.USER_KEY}
    ensures !store.isLoading ==> d == Redirect(LOGIN_ROUTE, true)
    ensures store.isLoading ==> d == ShowLoading
  {
    store.Logout();
    d := DecideFor(store, hasChildren);
  }
}
