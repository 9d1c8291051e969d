/** The account handlers (api/controllers/user.controller.js). `caller` is the
    id the session guard resolved; `id` is the one in the request path. */
module UserController {
  import opened Common
  import opened UserModel
  import opened ListingModel
  import opened Store

  /** The body of a profile update; `None` is an absent field. */
  datatype UpdateBody = UpdateBody(username: Option<string>, email: Option<string>,
                                   avatar: Option<string>, password: Option<string>)

  /** The `$set` document: the three whitelisted fields, plus a fresh digest
      when a non-empty password was sent. Absent fields are dropped from the
      update, so they keep their stored values. */
  datatype Updates = Updates(username: Option<string>, email: Option<string>,
                             avatar: Option<string>, password: Option<Digest>)

  function UpdatesOf(body: UpdateBody): (u: Updates)
    ensures u.username == body.username && u.email == body.email && u.avatar == body.avatar
    ensures u.password.Some? <==> body.password.Some? && body.password.value != ""
    ensures u.password.Some? ==> u.password.value == Hash(body.password.value)
  {
    Updates(body.username, body.email, body.avatar,
            if body.password.Some? && body.password.value != "" then Some(Hash(body.password.value)) else None)
  }

  /** The `$set` applied to a stored user: each field the update carries
      replaces the stored one, every other field is kept. */
  function ApplyUpdates(u: User, up: Updates): (r: User)
    ensures r.isAdmin == u.isAdmin && r.adminPasscode == u.adminPasscode
    ensures r.username == (if up.username.Some? then up.username.value else u.username)
    ensures r.email == (if up.email.Some? then up.email.value else u.email)
    ensures r.avatar == (if up.avatar.Some? then up.avatar.value else u.avatar)
    ensures r.password == (if up.password.Some? then up.password.value else u.password)
  {
    User(ListingModel.Pick(up.username, u.username), ListingModel.Pick(up.email, u.email),
         ListingModel.Pick(up.password, u.password), ListingModel.Pick(up.avatar, u.avatar),
         u.isAdmin, u.adminPasscode)
  }

  /** After an update that sends a non-empty password, exactly that password
      verifies; without one, the old credential is kept. */
  lemma UpdatedPasswordVerifies(u: User, body: UpdateBody, q: string)
    ensures var r := ApplyUpdates(u, UpdatesOf(body));
            && (body.password.Some? && body.password.value != "" ==>
                  (Verify(q, r.password) <==> q == body.password.value))
            && (body.password.None? || body.password.value == "" ==> r.password == u.password)
  {
    if body.password.Some? && body.password.value != "" {
      VerifyHash(q, body.password.value);
    }
  }

  /** `updateUser`. Only the caller's own record; a clash with another user's
      username or email is the unique index's untagged error (500). */
  method UpdateUser(db: Db, caller: Id, id: Id, body: UpdateBody) returns (res: Result<PublicUser>)
    requires db.Valid()
    modifies db
    ensures db.Valid() && db.listings == old(db.listings)
    ensures caller != id ==>
              res == Err(HttpError(401, "You can only update your own account!")) && db.users == old(db.users)
    ensures caller == id && id !in old(db.users) ==>
              res == Err(HttpError(404, "User not found")) && db.users == old(db.users)
    ensures caller == id && id in old(db.users) ==>
              var updated := ApplyUpdates(old(db.users)[id], UpdatesOf(body));
              if Clashes(old(db.users), id, updated) then
                res.Err? && res.error.status == 500 && db.users == old(db.users)
              else
                res == Ok(Public(id, updated)) && db.users == old(db.users)[id := updated]
  {
    if caller != id {
      return Err(HttpError(401, "You can only update your own account!"));
    }
    var updates := UpdatesOf(body);
    if id !in db.users {
      return Err(HttpError(404, "User not found"));
    }
    var updated := ApplyUpdates(db.users[id], updates);
    if Clashes(db.users, id, updated) {
      return Err(HttpError(500, "E11000 duplicate key error"));
    }
    StoreKeepsUnique(db.users, id, updated);
    db.users := db.users[id := updated];
    res := Ok(Public(id, updated));
  }

  /** `deleteUser`: only the caller's own id; the record goes (deleting an id
      that is already gone still succeeds) and the session cookie is cleared.
      The user's listings stay in the store. */
  method DeleteUser(db: Db, caller: Id, id: Id) returns (res: Outcome, clearCookie: bool)
    requires db.Valid()
    modifies db
    ensures db.Valid() && db.listings == old(db.listings)
    ensures caller != id ==>
              res == Fail(HttpError(401, "You can only delete ur account")) && !clearCookie
              && db.users == old(db.users)
    ensures caller == id ==> res == Pass && clearCookie && db.users == old(db.users) - {id}
  {
    if caller != id {
      return Fail(HttpError(401, "You can only delete ur account")), false;
    }
    db.users := db.users - {id};
    res, clearCookie := Pass, true;
  }

  /** The documents owned by `owner`, keeping their relative order. */
  function OwnedBy(docs: seq<Doc>, owner: Id): (r: seq<Doc>)
    ensures forall d :: d in r <==> d in docs && d.listing.userRef == owner
    ensures (forall i, j :: 0 <= i < j < |docs| ==> docs[i].id < docs[j].id) ==>
              forall i, j :: 0 <= i < j < |r| ==> r[i].id < r[j].id
  {
    if docs == [] then []
    else if docs[0].listing.userRef == owner then [docs[0]] + OwnedBy(docs[1..], owner)
    else OwnedBy(docs[1..], owner)
  }

  /** `getUserListings`: exactly the listings the caller owns, in natural order,
      and only when the path names the caller. */
  method GetUserListings(db: Db, caller: Id, id: Id) returns (res: Result<seq<Doc>>)
    requires db.Valid()
    ensures caller != id ==> res == Err(HttpError(401, "You can only view your own listings!"))
    ensures caller == id ==>
              && res.Ok?
              && (forall d :: d in res.value <==> d.id in db.listings && d.listing == db.listings[d.id]
                                                  && d.listing.userRef == id)
              && (forall i, j :: 0 <= i < j < |res.value| ==> res.value[i].id < res.value[j].id)
  {
    if caller != id {
      return Err(HttpError(401, "You can only view your own listings!"));
    }
    res := Ok(OwnedBy(ListingDocs(db.listings, db.nextId), id));
  }

  /** `getUser`: the record without its password, or 404. */
  method GetUser(db: Db, id: Id) returns (res: Result<PublicUser>)
    ensures res.Ok? <==> id in db.users
    ensures res.Ok? ==> res.value == Public(id, db.users[id])
    ensures res.Err? ==> res.error == HttpError(404, "User not found!")
  {
    if id !in db.users {
      return Err(HttpError(404, "User not found!"));
    }
    res := Ok(Public(id, db.users[id]));
  }
}
