/** The admin router (api/routes/admin.route.js): which middleware chain runs
    before each admin handler. The session guard (`verifyToken`) lives in
    api/utils/verifyUser.js, which is not part of this model; here it is the
    check that a session identity is present. */
module AdminRoutes {
  import opened Common
  import opened UserModel
  import opened AdminGuard

  datatype Verb = Get | Post | Put | Delete

  datatype Middleware = VerifyToken | VerifyAdmin | VerifyAdminPasscode

  datatype Handler =
    | AdminLogin | GetAllUsers | GetAllListings | UpdateListingApproval
    | AdminDeleteListing | UpdateApprovalSettings | AdminCreateListing

  datatype Route = Route(verb: Verb, path: string, guards: seq<Middleware>, handler: Handler)

  const Protected: seq<Middleware> := [VerifyToken, VerifyAdmin]

  /** The mounted routes, in registration order. The passcode middleware is
      imported but its route line is commented out. */
  const Routes: seq<Route> := [
    Route(Post, "/login", [], AdminLogin),
    Route(Get, "/users", Protected, GetAllUsers),
    Route(Get, "/listings", Protected, GetAllListings),
    Route(Put, "/listings/:id/approval", Protected, UpdateListingApproval),
    Route(Delete, "/listings/:id", Protected, AdminDeleteListing),
    Route(Post, "/settings/approval", Protected, UpdateApprovalSettings),
    Route(Post, "/listings/create", Protected, AdminCreateListing)
  ]

  /** The first registered route for a verb and path pattern; `None` falls
      through to the framework's 404. */
  function Lookup(routes: seq<Route>, verb: Verb, path: string): (r: Option<Route>)
    ensures r.Some? ==> r.value in routes && r.value.verb == verb && r.value.path == path
    ensures r.None? <==> forall x :: x in routes ==> !(x.verb == verb && x.path == path)
  {
    if routes == [] then None
    else if routes[0].verb == verb && routes[0].path == path then Some(routes[0])
    else Lookup(routes[1..], verb, path)
  }

  /** One middleware. `caller` is the identity the session carries;
      `storeFault` stands for the admin lookup throwing. */
  function RunGuard(m: Middleware, users: map<Id, User>, caller: Option<Id>, storeFault: bool,
                    passcode: Option<string>, env: Env): Outcome
  {
    match m
    case VerifyToken => if caller.None? then Fail(HttpError(401, "Unauthorized")) else Pass
    case VerifyAdmin => AdminGuard.VerifyAdmin(users, caller, storeFault)
    case VerifyAdminPasscode => AdminGuard.VerifyAdminPasscode(passcode, env)
  }

  /** A chain: the first failing middleware answers, and the handler runs only
      when every one passes. */
  function RunGuards(ms: seq<Middleware>, users: map<Id, User>, caller: Option<Id>, storeFault: bool,
                     passcode: Option<string>, env: Env): (r: Outcome)
    ensures r == Pass <==> forall i :: 0 <= i < |ms| ==> RunGuard(ms[i], users, caller, storeFault, passcode, env) == Pass
    ensures r.Fail? ==> exists i :: 0 <= i < |ms| && r == RunGuard(ms[i], users, caller, storeFault, passcode, env)
  {
    if ms == [] then Pass
    else
      var first := RunGuard(ms[0], users, caller, storeFault, passcode, env);
      if first.Fail? then first
      else
        var rest := RunGuards(ms[1..], users, caller, storeFault, passcode, env);
        assert forall i :: 1 <= i < |ms| ==> ms[i] == ms[1..][i - 1];
        rest
  }

  /** Login is reachable without any session or passcode check. */
  lemma LoginIsOpen(users: map<Id, User>, caller: Option<Id>, storeFault: bool,
                    passcode: Option<string>, env: Env)
    ensures Lookup(Routes, Post, "/login") == Some(Route(Post, "/login", [], AdminLogin))
    ensures RunGuards(Lookup(Routes, Post, "/login").value.guards, users, caller, storeFault, passcode, env) == Pass
  {
  }

  /** Every other admin handler sits behind the session guard and the admin
      guard, in that order, and the passcode middleware is mounted nowhere. */
  lemma OtherRoutesProtected()
    ensures forall r :: r in Routes && r.handler != AdminLogin ==> r.guards == Protected
    ensures forall r :: r in Routes ==> VerifyAdminPasscode !in r.guards
  {
    var guards := seq(|Routes|, i requires 0 <= i < |Routes| => (Routes[i].handler, Routes[i].guards));
    assert guards == [(AdminLogin, []), (GetAllUsers, Protected), (GetAllListings, Protected),
                      (UpdateListingApproval, Protected), (AdminDeleteListing, Protected),
                      (UpdateApprovalSettings, Protected), (AdminCreateListing, Protected)];
    forall r | r in Routes ensures (r.handler != AdminLogin ==> r.guards == Protected) && VerifyAdminPasscode !in r.guards {
      var i :| 0 <= i < |Routes| && Routes[i] == r;
      assert guards[i] == (r.handler, r.guards);
    }
  }

  /** The protected chain lets a request through exactly when it carries an
      identity whose stored record has the admin flag; without a session the
      answer is 401 before the store is read. */
  lemma {:induction false} ProtectedPassesIff(users: map<Id, User>, caller: Option<Id>, storeFault: bool,
                                              passcode: Option<string>, env: Env)
    ensures RunGuards(Protected, users, caller, storeFault, passcode, env) == Pass <==>
              caller.Some? && !storeFault && caller.value in users && users[caller.value].isAdmin
    ensures caller.None? ==> RunGuards(Protected, users, caller, storeFault, passcode, env) == Fail(HttpError(401, "Unauthorized"))
  {
    VerifyAdminPassesIff(users, caller, storeFault);
  }
}
