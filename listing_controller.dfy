/** The listing handlers (api/controllers/listing.controller.js). The caller id
    is the one the session guard already resolved. */
module ListingController {
  import opened Common
  import opened ListingModel
  import opened Store

  const NotFound: HttpError := HttpError(404, "Listing not found!")

  /** The 201 response: the stored document and a message naming its status. */
  datatype Created = Created(doc: Doc, message: string)

  /** `createListing`: the owner is whatever `userRef` the body names, and the
      moderation state comes from the environment. */
  method CreateListing(db: Db, body: CreateBody, env: Env, now: int) returns (res: Created)
    requires db.Valid()
    modifies db
    ensures db.Valid() && db.users == old(db.users)
    ensures res.doc.id !in old(db.listings)
    ensures res.doc.listing == FromCreateBody(body, env, now)
    ensures db.listings == old(db.listings)[res.doc.id := res.doc.listing]
    ensures res.message == if RequiresApproval(env) then "Listing created and pending admin approval"
                           else "Listing created successfully"
  {
    var listing := FromCreateBody(body, env, now);
    var id := db.InsertListing(listing);
    var message := if RequiresApproval(env) then "Listing created and pending admin approval"
                   else "Listing created successfully";
    res := Created(Doc(id, listing), message);
  }

  /** `deleteListing`: 404 for an unknown id, 401 unless the caller owns it. */
  method DeleteListing(db: Db, caller: Id, id: Id) returns (res: Outcome)
    requires db.Valid()
    modifies db
    ensures db.Valid() && db.users == old(db.users)
    ensures id !in old(db.listings) ==> res == Fail(NotFound) && db.listings == old(db.listings)
    ensures id in old(db.listings) && caller != old(db.listings)[id].userRef ==>
              res == Fail(HttpError(401, "You can only delete your own listings!"))
              && db.listings == old(db.listings)
    ensures id in old(db.listings) && caller == old(db.listings)[id].userRef ==>
              res == Pass && db.listings == old(db.listings) - {id}
  {
    if id !in db.listings {
      return Fail(NotFound);
    }
    if caller != db.listings[id].userRef {
      return Fail(HttpError(401, "You can only delete your own listings!"));
    }
    db.listings := db.listings - {id};
    res := Pass;
  }

  /** `updateListing`: the same guards; then the body's fields replace the stored
      ones, whichever fields they are. */
  method UpdateListing(db: Db, caller: Id, id: Id, body: Patch) returns (res: Result<Listing>)
    requires db.Valid()
    modifies db
    ensures db.Valid() && db.users == old(db.users)
    ensures id !in old(db.listings) ==> res == Err(NotFound) && db.listings == old(db.listings)
    ensures id in old(db.listings) && caller != old(db.listings)[id].userRef ==>
              res == Err(HttpError(401, "You can only update your own listings!"))
              && db.listings == old(db.listings)
    ensures id in old(db.listings) && caller == old(db.listings)[id].userRef ==>
              res == Ok(ApplyPatch(old(db.listings)[id], body))
              && db.listings == old(db.listings)[id := res.value]
  {
    if id !in db.listings {
      return Err(NotFound);
    }
    if caller != db.listings[id].userRef {
      return Err(HttpError(401, "You can only update your own listings!"));
    }
    var updated := ApplyPatch(db.listings[id], body);
    db.listings := db.listings[id := updated];
    res := Ok(updated);
  }

  /** `getListing`: a read; no ownership or approval check. */
  method GetListing(db: Db, id: Id) returns (res: Result<Listing>)
    ensures res.Ok? <==> id in db.listings
    ensures res.Ok? ==> res.value == db.listings[id]
    ensures res.Err? ==> res.error == NotFound
  {
    if id !in db.listings {
      return Err(NotFound);
    }
    res := Ok(db.listings[id]);
  }
}
