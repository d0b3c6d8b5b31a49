/** The global navigation guard of the router (`router.beforeEach`): it reads
    the session from `localStorage`, drops an expired session, and calls
    `next` with the route to go to. */
module RouteGuard {
  import opened Js
  import opened WebStorage

  /** The target route: its name and the two meta flags the guard reads. */
  datatype Route = Route(name: Option<string>, requiresAuth: bool, requiresAdmin: bool)

  datatype Target = Login | Home

  /** The argument of `next`: `next()` or `next({ name })`. */
  datatype NextArg = Proceed | Redirect(target: Target)

  /** The four stored items, as read when the guard starts. */
  datatype Session = Session(token: Option<string>, role: Option<string>, user: Option<string>, expiration: Option<string>)

  /** The keys the guard removes when the session has expired. */
  const SessionKeys: set<string> := {"token", "userRole", "user", "tokenExpiration"}

  function SessionOf(items: map<string, string>): (s: Session)
    ensures s.token == MapGet(items, "token") && s.role == MapGet(items, "userRole")
    ensures s.user == MapGet(items, "user") && s.expiration == MapGet(items, "tokenExpiration")
  {
    Session(MapGet(items, "token"), MapGet(items, "userRole"), MapGet(items, "user"), MapGet(items, "tokenExpiration"))
  }

  /** `tokenExpiration && Date.now() > parseInt(tokenExpiration)`; a value
      `parseInt` cannot read gives NaN, and no comparison with NaN holds. */
  predicate Expired(expiration: Option<string>, now: int) {
    Present(expiration) && ParseInt(expiration.value).Some? && now > ParseInt(expiration.value).value
  }

  /** `userRole?.toUpperCase() === 'ADMIN'`. */
  predicate IsAdmin(role: Option<string>) {
    role.Some? && ToUpper(role.value) == "ADMIN"
  }

  /** The guard sends a navigation to the login page. */
  predicate ToLogin(s: Session, to: Route, now: int) {
    to.requiresAuth && (Expired(s.expiration, now) || !Present(s.token) || (!Present(s.user) && to.name != Some("Login")))
  }

  /** The decision of the guard, in the order its tests run. */
  function Decide(s: Session, to: Route, now: int): (r: NextArg)
    ensures r == Redirect(Login) <==> ToLogin(s, to, now)
    ensures r == Redirect(Home) <==> !ToLogin(s, to, now) && to.requiresAdmin && !IsAdmin(s.role)
    ensures r == Proceed <==> !ToLogin(s, to, now) && (!to.requiresAdmin || IsAdmin(s.role))
    // a route that asks for nothing is always entered, expired or not
    ensures !to.requiresAuth && !to.requiresAdmin ==> r == Proceed
  {
    if Expired(s.expiration, now) && to.requiresAuth then Redirect(Login)
    else if Present(s.token) && !Present(s.user) && to.requiresAuth && to.name != Some("Login") then Redirect(Login)
    else if to.requiresAuth && !Present(s.token) then Redirect(Login)
    else if to.requiresAdmin && !IsAdmin(s.role) then Redirect(Home)
    else Proceed
  }

  /** The four `removeItem` calls for an expired session. */
  method ClearSession(storage: LocalStorage)
    modifies storage
    ensures storage.items == old(storage.items) - SessionKeys
  {
    storage.RemoveItem("token");
    storage.RemoveItem("userRole");
    storage.RemoveItem("user");
    storage.RemoveItem("tokenExpiration");
  }

  /** `router.beforeEach((to, from, next) => …)` with `Date.now()` as `now`;
      `calls` lists the arguments `next` was called with. */
  method BeforeEach(storage: LocalStorage, to: Route, now: int) returns (calls: seq<NextArg>)
    modifies storage
    ensures calls == [Decide(SessionOf(old(storage.items)), to, now)]
    ensures storage.items == if Expired(MapGet(old(storage.items), "tokenExpiration"), now)
                             then old(storage.items) - SessionKeys else old(storage.items)
  {
    ghost var session := SessionOf(storage.items);
    var token := storage.GetItem("token");
    var storedRole := storage.GetItem("userRole");
    var userRole := if storedRole.Some? then Some(ToUpper(storedRole.value)) else None;
    var userData := storage.GetItem("user");
    var tokenExpiration := storage.GetItem("tokenExpiration");
    var isTokenExpired := Expired(tokenExpiration, now);
    assert session == Session(token, storedRole, userData, tokenExpiration);
    if isTokenExpired {
      ClearSession(storage);
      if to.requiresAuth {
        return [Redirect(Login)];
      }
    }
    if Present(token) && !Present(userData) && to.requiresAuth && to.name != Some("Login") {
      return [Redirect(Login)];
    }
    assert (userRole != Some("ADMIN")) == !IsAdmin(storedRole);
    if to.requiresAuth && !Present(token) {
      calls := [Redirect(Login)];
    } else if to.requiresAdmin && userRole != Some("ADMIN") {
      calls := [Redirect(Home)];
    } else {
      calls := [Proceed];
    }
  }

  /** The characters `toUpperCase` maps to the capitals of "ADMIN". */
  lemma UpperCharCapitals(c: char)
    ensures UpperChar(c) == 'A' <==> c == 'a' || c == 'A'
    ensures UpperChar(c) == 'D' <==> c == 'd' || c == 'D'
    ensures UpperChar(c) == 'M' <==> c == 'm' || c == 'M'
    ensures UpperChar(c) == 'I' <==> c == 'i' || c == 'I' || c == '\U{131}'
    ensures UpperChar(c) == 'N' <==> c == 'n' || c == 'N'
  {
  }

  /** The admin test ignores case: a stored role passes exactly when it is
      "admin" in any mix of cases (the dotless i counting as an i). */
  lemma {:induction false} AdminRoleIgnoresCase(r: string)
    ensures IsAdmin(Some(r)) <==>
              && |r| == 5
              && (r[0] == 'a' || r[0] == 'A') && (r[1] == 'd' || r[1] == 'D')
              && (r[2] == 'm' || r[2] == 'M') && (r[3] == 'i' || r[3] == 'I' || r[3] == '\U{131}')
              && (r[4] == 'n' || r[4] == 'N')
  {
    if |r| == 5 {
      UpperCharCapitals(r[0]);
      UpperCharCapitals(r[1]);
      UpperCharCapitals(r[2]);
      UpperCharCapitals(r[3]);
      UpperCharCapitals(r[4]);
      var u := ToUpper(r);
      assert u == "ADMIN" <==> u[0] == 'A' && u[1] == 'D' && u[2] == 'M' && u[3] == 'I' && u[4] == 'N';
    }
  }

  /** An expiry time stored as a decimal integer `n` has passed exactly when
      `now > n`. */
  lemma ExpiredOfNumeral(n: int, now: int)
    ensures Expired(Some(IntToString(n)), now) <==> now > n
  {
    ParseIntRoundTrip(n);
  }

  /** The token, role and user are read before an expired session is
      removed, so a route that only requires the admin role is still
      entered with the stale role while the storage is emptied. */
  lemma ExpiredAdminStillEntersAdminOnlyRoute()
    ensures var s := Session(Some("t"), Some("admin"), Some("{}"), Some("5"));
            Expired(s.expiration, 10) && Decide(s, Route(Some("Admin"), false, true), 10) == Proceed
  {
    ExpiredOfNumeral(5, 10);
    AdminRoleIgnoresCase("admin");
  }
}
