/** The admin handlers (api/controllers/admin.controller.js). Every handler but
    the login runs behind `verifyToken` and `verifyAdmin` (see AdminRoutes);
    `caller` is the id those guards let through. */
module AdminController {
  import opened Common
  import opened UserModel
  import opened ListingModel
  import opened Store
  import opened AdminGuard
  import ListingQuery

  // ---------------------------------------------------------------------------
  // Login and promotion

  /** The body of `POST /login`; `None` is an absent field. */
  datatype LoginBody = LoginBody(email: Option<string>, password: Option<string>,
                                 adminPasscode: Option<string>)

  /** The decision chain of `adminLogin`: admin email, then passcode, then the
      user lookup, then the password. The first failing check decides. A missing
      password makes the hash comparison throw, which the handler answers with 500. */
  function LoginDecision(users: map<Id, User>, n: nat, body: LoginBody, env: Env): (r: Result<Id>)
    ensures !IsAdminEmail(body.email, env) ==> r == Err(HttpError(403, "Not an admin email"))
    ensures IsAdminEmail(body.email, env) && body.adminPasscode != Some(AdminPasscode(env)) ==>
              r == Err(HttpError(403, "Invalid admin passcode"))
    ensures IsAdminEmail(body.email, env) && body.adminPasscode == Some(AdminPasscode(env))
            && FirstWithEmail(users, AdminEmail(env), n).None? ==>
              r == Err(HttpError(404, "Admin user not found"))
    ensures IsAdminEmail(body.email, env) && body.adminPasscode == Some(AdminPasscode(env))
            && FirstWithEmail(users, AdminEmail(env), n).Some? ==>
              var id := FirstWithEmail(users, AdminEmail(env), n).value;
              && (body.password.None? ==> r == Err(HttpError(500, "Illegal arguments: undefined, string")))
              && (body.password.Some? && Verify(body.password.value, users[id].password) ==> r == Ok(id))
              && (body.password.Some? && !Verify(body.password.value, users[id].password) ==>
                    r == Err(HttpError(401, "Wrong credentials")))
    ensures r.Ok? ==> r.value in users && r.value < n && body.email == Some(users[r.value].email)
                      && IsAdminEmail(body.email, env) && body.adminPasscode == Some(AdminPasscode(env))
                      && body.password.Some? && Verify(body.password.value, users[r.value].password)
  {
    if !IsAdminEmail(body.email, env) then Err(HttpError(403, "Not an admin email"))
    else if body.adminPasscode != Some(AdminPasscode(env)) then Err(HttpError(403, "Invalid admin passcode"))
    else
      var found := FirstWithEmail(users, body.email.value, n);
      if found.None? then Err(HttpError(404, "Admin user not found"))
      else if body.password.None? then Err(HttpError(500, "Illegal arguments: undefined, string"))
      else if !Verify(body.password.value, users[found.value].password) then Err(HttpError(401, "Wrong credentials"))
      else Ok(found.value)
  }

  /** Setting the admin flag of a user. */
  function Promote(users: map<Id, User>, id: Id): map<Id, User>
    requires id in users
  {
    users[id := users[id].(isAdmin := true)]
  }

  /** The email lookup does not look at the admin flag. */
  lemma {:induction false} FirstWithEmailIgnoresPromotion(users: map<Id, User>, id: Id, email: string, n: nat)
    requires id in users
    ensures FirstWithEmail(Promote(users, id), email, n) == FirstWithEmail(users, email, n)
  {
    if n > 0 {
      FirstWithEmailIgnoresPromotion(users, id, email, n - 1);
    }
  }

  /** A repeat login after a successful one reaches the same decision: the
      promotion changed nothing the decision reads. */
  lemma RepeatLoginSameDecision(users: map<Id, User>, n: nat, body: LoginBody, env: Env)
    requires LoginDecision(users, n, body, env).Ok?
    ensures var id := LoginDecision(users, n, body, env).value;
            LoginDecision(Promote(users, id), n, body, env) == Ok(id)
  {
    var id := LoginDecision(users, n, body, env).value;
    FirstWithEmailIgnoresPromotion(users, id, body.email.value, n);
  }

  /** The wrong passcode is refused whatever the password. */
  lemma PasscodeCheckedBeforePassword(users: map<Id, User>, n: nat, body: LoginBody, env: Env, pw: Option<string>)
    requires body.adminPasscode != Some(AdminPasscode(env))
    ensures LoginDecision(users, n, body.(password := pw), env).Err?
    ensures LoginDecision(users, n, body.(password := pw), env).error.status == 403
  {
  }

  /** The successful login response: the user without the password, and the
      id the session cookie is issued for. */
  datatype LoggedIn = LoggedIn(user: PublicUser, sessionFor: Id)

  lemma PromotionKeepsUnique(users: map<Id, User>, id: Id)
    requires id in users && UniqueAccounts(users)
    ensures UniqueAccounts(Promote(users, id))
  {
    var p := Promote(users, id);
    forall a, b | a in p && b in p && a != b
      ensures p[a].username != p[b].username && p[a].email != p[b].email
    {
      assert p[a].username == users[a].username && p[a].email == users[a].email;
      assert p[b].username == users[b].username && p[b].email == users[b].email;
    }
  }

  /** `adminLogin`: on success the matched user is an admin afterwards (the store
      is written only when the flag was not yet set), and `verifyAdmin` lets that
      user through from the next request on. */
  method AdminLogin(db: Db, body: LoginBody, env: Env) returns (res: Result<LoggedIn>)
    requires db.Valid()
    modifies db
    ensures db.Valid() && db.listings == old(db.listings)
    ensures var d := LoginDecision(old(db.users), old(db.nextId), body, env);
            && (d.Err? ==> res == Err(d.error) && db.users == old(db.users))
            && (d.Ok? ==> && db.users == Promote(old(db.users), d.value)
                          && (old(db.users)[d.value].isAdmin ==> db.users == old(db.users))
                          && res == Ok(LoggedIn(Public(d.value, db.users[d.value]), d.value))
                          && VerifyAdmin(db.users, Some(d.value), false) == Pass)
  {
    var decision := LoginDecision(db.users, db.nextId, body, env);
    if decision.Err? {
      return Err(decision.error);
    }
    var id := decision.value;
    if !db.users[id].isAdmin {
      PromotionKeepsUnique(db.users, id);
      db.users := db.users[id := db.users[id].(isAdmin := true)];
    } else {
      assert db.users[id].(isAdmin := true) == db.users[id];
    }
    res := Ok(LoggedIn(Public(id, db.users[id]), id));
  }

  // ---------------------------------------------------------------------------
  // Reads

  function PublicUsers(s: seq<(Id, User)>): (r: seq<PublicUser>)
    ensures |r| == |s| && forall i :: 0 <= i < |s| ==> r[i] == Public(s[i].0, s[i].1)
  {
    seq(|s|, i requires 0 <= i < |s| => Public(s[i].0, s[i].1))
  }

  /** `getAllUsers`: every stored user, none with a password. */
  method GetAllUsers(db: Db) returns (r: seq<PublicUser>)
    requires db.Valid()
    ensures forall p :: p in r <==> p.id in db.users && p == Public(p.id, db.users[p.id])
    ensures forall i, j :: 0 <= i < j < |r| ==> r[i].id < r[j].id
  {
    var s := InIdOrder(db.users, db.nextId);
    r := PublicUsers(s);
    forall p: PublicUser | p.id in db.users && p == Public(p.id, db.users[p.id]) ensures p in r {
      var k :| 0 <= k < |s| && s[k] == (p.id, db.users[p.id]);
      assert r[k] == p;
    }
  }

  /** The moderation filter of `getAllListings`: applied only for one of the
      three statuses; any other value, or none, lists every status. */
  function StatusFilter(status: Option<string>): (r: Option<string>)
    ensures r.Some? <==> status.Some? && IsStatus(status.value)
    ensures r.Some? ==> r == status
  {
    if status.Some? && status.value != "" && IsStatus(status.value) then status else None
  }

  datatype AdminPage = AdminPage(listings: seq<Doc>, total: nat, hasMore: bool)

  /** A `startIndex` or `limit` parameter: the default when absent, else `parseInt`. */
  function NumberParam(params: ListingQuery.Params, key: string, default: int): Option<int> {
    if key in params then ParseInt(Some(params[key])) else Some(default)
  }

  /** One page of the matching listings, newest first, with the count and the
      `hasMore` flag of the response. */
  function PageOf(matching: seq<Doc>, start: nat, limit: int): (p: AdminPage)
    ensures p.total == |matching| && |p.listings| <= p.total
    ensures p.hasMore <==> p.total > start + limit
    ensures |p.listings| == ListingQuery.WindowSize(|matching|, start, limit)
    ensures forall d :: d in p.listings ==> d in matching
    ensures ListingQuery.Ordered(ListingQuery.CreatedAt, ListingQuery.Descending, p.listings)
    ensures p.listings == ListingQuery.Page(ListingQuery.SortDocs(ListingQuery.CreatedAt, ListingQuery.Descending, matching),
                                            start, limit)
  {
    var sorted := ListingQuery.SortDocs(ListingQuery.CreatedAt, ListingQuery.Descending, matching);
    assert |sorted| == |matching| by {
      assert |multiset(sorted)| == |multiset(matching)|;
    }
    ListingQuery.SortDocsOrdered(ListingQuery.CreatedAt, ListingQuery.Descending, matching);
    ListingQuery.SortedFromMatched(matching, sorted);
    ListingQuery.PageOrdered(ListingQuery.CreatedAt, ListingQuery.Descending, sorted, start, limit);
    AdminPage(ListingQuery.Page(sorted, start, limit), |matching|, |matching| > start + limit)
  }

  /** `getAllListings`. Defaults: `startIndex` 0, `limit` 20; newest first.
      A non-numeric or negative paging value is refused by the store (500). */
  function ListingsPage(listings: map<Id, Listing>, n: nat, params: ListingQuery.Params): (r: Result<AdminPage>)
    ensures r.Ok? <==> && NumberParam(params, "startIndex", 0).Some?
                       && NumberParam(params, "limit", 20).Some?
                       && NumberParam(params, "startIndex", 0).value >= 0
    ensures r.Ok? ==> r == Ok(PageOf(WithStatus(ListingDocs(listings, n), StatusFilter(ListingQuery.Get(params, "status"))),
                                     NumberParam(params, "startIndex", 0).value,
                                     NumberParam(params, "limit", 20).value))
  {
    var start := NumberParam(params, "startIndex", 0);
    var limit := NumberParam(params, "limit", 20);
    if start.None? || limit.None? then Err(HttpError(500, "Cast to Number failed"))
    else if start.value < 0 then Err(HttpError(500, "skip value must be non-negative"))
    else
      var matching := WithStatus(ListingDocs(listings, n), StatusFilter(ListingQuery.Get(params, "status")));
      Ok(PageOf(matching, start.value, limit.value))
  }

  /** The `hasMore` arithmetic is right for a positive limit: there is more
      exactly when this page is full and does not reach the end. */
  lemma HasMoreMeansFullPage(matching: seq<Doc>, start: nat, limit: int)
    requires limit > 0
    ensures var p := PageOf(matching, start, limit);
            && (p.hasMore ==> |p.listings| == limit)
            && (!p.hasMore && start <= p.total ==> |p.listings| == p.total - start)
  {
    var sorted := ListingQuery.SortDocs(ListingQuery.CreatedAt, ListingQuery.Descending, matching);
    assert |sorted| == |matching| by {
      assert |multiset(sorted)| == |multiset(matching)|;
    }
  }

  // ---------------------------------------------------------------------------
  // Moderation

  /** The moderation write: the new status and the admin who set it. */
  function Moderate(l: Listing, status: string, admin: Id): (m: Listing)
    ensures m.approvalStatus == status && m.approvedBy == Some(admin)
    ensures m.content == l.content && m.userRef == l.userRef && m.createdAt == l.createdAt
    ensures m.requiresApproval == l.requiresApproval
  {
    l.(approvalStatus := status, approvedBy := Some(admin))
  }

  /** Setting the same status twice is the same as setting it once. */
  lemma ModerateIdempotent(l: Listing, status: string, admin: Id)
    ensures Moderate(Moderate(l, status, admin), status, admin) == Moderate(l, status, admin)
  {
  }

  /** `updateListingApproval`: the status is validated before the store is read. */
  method UpdateListingApproval(db: Db, caller: Id, id: Id, approvalStatus: Option<string>)
    returns (res: Result<Listing>)
    requires db.Valid()
    modifies db
    ensures db.Valid() && db.users == old(db.users)
    ensures !(approvalStatus.Some? && IsStatus(approvalStatus.value)) ==>
              res == Err(HttpError(400, "Invalid approval status")) && db.listings == old(db.listings)
    ensures approvalStatus.Some? && IsStatus(approvalStatus.value) && id !in old(db.listings) ==>
              res == Err(HttpError(404, "Listing not found")) && db.listings == old(db.listings)
    ensures approvalStatus.Some? && IsStatus(approvalStatus.value) && id in old(db.listings) ==>
              res == Ok(Moderate(old(db.listings)[id], approvalStatus.value, caller))
              && db.listings == old(db.listings)[id := res.value]
  {
    if !(approvalStatus.Some? && IsStatus(approvalStatus.value)) {
      return Err(HttpError(400, "Invalid approval status"));
    }
    if id !in db.listings {
      return Err(HttpError(404, "Listing not found"));
    }
    var updated := Moderate(db.listings[id], approvalStatus.value, caller);
    db.listings := db.listings[id := updated];
    res := Ok(updated);
  }

  /** `adminDeleteListing`: removes any existing listing, whoever owns it. */
  method AdminDeleteListing(db: Db, id: Id) returns (res: Outcome)
    requires db.Valid()
    modifies db
    ensures db.Valid() && db.users == old(db.users)
    ensures id !in old(db.listings) ==>
              res == Fail(HttpError(404, "Listing not found")) && db.listings == old(db.listings)
    ensures id in old(db.listings) ==> res == Pass && db.listings == old(db.listings) - {id}
  {
    if id !in db.listings {
      return Fail(HttpError(404, "Listing not found"));
    }
    db.listings := db.listings - {id};
    res := Pass;
  }

  /** `adminCreateListing`: owned and approved by the calling admin. */
  method AdminCreateListing(db: Db, caller: Id, body: CreateBody, now: int) returns (doc: Doc)
    requires db.Valid()
    modifies db
    ensures db.Valid() && db.users == old(db.users)
    ensures doc.id !in old(db.listings) && doc.listing == FromAdminBody(body, caller, now)
    ensures db.listings == old(db.listings)[doc.id := doc.listing]
  {
    var listing := FromAdminBody(body, caller, now);
    var id := db.InsertListing(listing);
    doc := Doc(id, listing);
  }

  datatype SettingsEcho = SettingsEcho(requireApproval: Option<bool>, message: string)

  function ShowFlag(b: Option<bool>): string {
    match b
    case None => "undefined"
    case Some(v) => if v then "true" else "false"
  }

  /** `updateApprovalSettings`: answers with the requested value and stores
      nothing (no `modifies`), so the approval policy stays what the
      environment says. */
  method UpdateApprovalSettings(db: Db, requireApproval: Option<bool>) returns (res: SettingsEcho)
    ensures res.requireApproval == requireApproval
    ensures res.message == "Listing approval requirement set to: " + ShowFlag(requireApproval)
  {
    res := SettingsEcho(requireApproval, "Listing approval requirement set to: " + ShowFlag(requireApproval));
  }
}
