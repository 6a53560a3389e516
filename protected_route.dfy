/** `ProtectedRoute`: renders its children only while the session holds a token. */
module ProtectedRoute {
  import opened Wrappers
  import opened Ui
  import Api
  import Auth
  import Storage

  datatype Rendered<C> = Navigate(to: string, from: Location, replace: bool) | Children(content: C)

  /**
   * The guard looks at nothing but the token: without one it redirects to
   * `/login`, recording where the user came from and replacing the history
   * entry; with one it returns the children as they are.
   */
  function Render<C>(token: Option<string>, location: Location, children: C): (r: Rendered<C>)
    ensures r.Children? <==> Truthy(token)
    ensures r.Children? ==> r.content == children
    ensures r.Navigate? ==> r == Navigate("/login", location, true)
  {
    if !Truthy(token) then Navigate("/login", location, true) else Children(children)
  }

  /**
   * While the provider's token mirrors the store, a page rendered behind the
   * guard is exactly a page whose requests the interceptor authorises.
   */
  lemma GuardAgreesWithInterceptor<C>(auth: Auth.AuthProvider, location: Location, children: C)
    requires auth.Synced()
    ensures Render(auth.token, location, children).Children?
      <==> Truthy(auth.storage.GetItem(Storage.AdminTokenKey))
  {
  }

  /**
   * Two providers over one store, as two tabs of the same origin share
   * `localStorage`. When one logs out, the other still holds its token (it
   * read the store only at mount), so its guard keeps rendering pages while
   * its interceptor no longer attaches a header. `Synced` holds only while a
   * provider is the store's only writer.
   */
  method OtherTabLogout<C>(here: Auth.AuthProvider, other: Auth.AuthProvider, config: Api.Request,
                           location: Location, children: C)
    returns (rendered: Rendered<C>, sent: Api.Request)
    requires here != other && here.storage == other.storage
    requires here.Synced() && Truthy(here.token)
    modifies other`token, other`user, other.storage
    ensures here.token == old(here.token) && !here.Synced()
    ensures rendered == Children(children)
    ensures sent == config
  {
    other.Logout();
    rendered := Render(here.token, location, children);
    sent := Api.Intercept(here.storage, config);
  }
}
