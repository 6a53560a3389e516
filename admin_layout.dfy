/** `AdminLayout`: sidebar key of the current path, and the logout button. */
module AdminLayout {
  import opened Wrappers
  import Auth
  import Storage

  /** Keys of the sidebar's menu items, in order. */
  const MenuKeys: seq<string> := ["1", "2", "3", "4", "5", "6"]

  /** `getCurrentKey`: the first matching path prefix wins; anything else is the dashboard. */
  function CurrentKey(path: string): (key: string)
    ensures key in MenuKeys
    ensures key == "2" ==> "/payouts" <= path
    ensures key == "3" ==> "/verifications" <= path
    ensures key == "4" ==> "/transactions" <= path
    ensures key == "5" ==> "/users" <= path
    ensures key == "6" ==> "/revenue" <= path
  {
    if "/payouts" <= path then "2"
    else if "/verifications" <= path then "3"
    else if "/transactions" <= path then "4"
    else if "/users" <= path then "5"
    else if "/revenue" <= path then "6"
    else "1"
  }

  /** The five prefixes exclude one another, so each key is chosen exactly by its own prefix. */
  lemma CurrentKeyExact(path: string)
    ensures CurrentKey(path) == "2" <==> "/payouts" <= path
    ensures CurrentKey(path) == "3" <==> "/verifications" <= path
    ensures CurrentKey(path) == "4" <==> "/transactions" <= path
    ensures CurrentKey(path) == "5" <==> "/users" <= path
    ensures CurrentKey(path) == "6" <==> "/revenue" <= path
    ensures CurrentKey(path) == "1" <==>
      !("/payouts" <= path || "/verifications" <= path || "/transactions" <= path
        || "/users" <= path || "/revenue" <= path)
  {
    if |path| >= 2 {
      var c := path[1];
      assert "/payouts" <= path ==> c == 'p';
      assert "/verifications" <= path ==> c == 'v';
      assert "/transactions" <= path ==> c == 't';
      assert "/users" <= path ==> c == 'u';
      assert "/revenue" <= path ==> c == 'r';
    }
  }

  /** A longer path under a menu prefix still selects that item; `/` and `/profit` select the dashboard. */
  lemma CurrentKeyExamples()
    ensures CurrentKey("/payouts/123") == "2"
    ensures CurrentKey("/users/42") == "5"
    ensures CurrentKey("/") == "1"
    ensures CurrentKey("/profit") == "1"
  {
    assert "/payouts" <= "/payouts/123";
    assert "/users" <= "/users/42";
    CurrentKeyExact("/users/42");
    assert "/profit"[2] != "/payouts"[2];
    CurrentKeyExact("/profit");
  }

  /** `handleLogout`: the session is cleared first, then the router goes to `/login`. */
  method HandleLogout(auth: Auth.AuthProvider) returns (navigateTo: string)
    modifies auth`token, auth`user, auth.storage
    ensures auth.token == None && auth.user == None && auth.Synced()
    ensures auth.storage.items == old(auth.storage.items) - {Storage.AdminTokenKey}
    ensures navigateTo == "/login"
  {
    auth.Logout();
    navigateTo := "/login";
  }
}
