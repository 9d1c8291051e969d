/** The listing document as the controllers read and write it. The listing
    schema file is not part of this model; the fields below are the ones the
    controllers and pages use. The approval status is kept as a string because
    `findByIdAndUpdate` stores whatever the request body carries. */
module ListingModel {
  import opened Common

  const Pending: string := "pending"
  const Approved: string := "approved"
  const Rejected: string := "rejected"

  /** `['pending', 'approved', 'rejected'].includes(s)` */
  predicate IsStatus(s: string) {
    s == Pending || s == Approved || s == Rejected
  }

  /** What the owner describes: everything but ownership and moderation state. */
  datatype Content = Content(
    name: string, description: string, address: string,
    regularPrice: int, discountPrice: int, bathrooms: int, bedrooms: int,
    furnished: bool, parking: bool, offer: bool,
    listingType: string, imageUrls: seq<string>)

  datatype Listing = Listing(
    content: Content,
    userRef: Id,
    approvalStatus: string,
    approvedBy: Option<Id>,
    requiresApproval: Option<bool>,
    createdAt: int)

  /** A listing as a response carries it, with its `_id`. */
  datatype Doc = Doc(id: Id, listing: Listing)

  /** The body of a create request. Its `approvalStatus` and `requiresApproval`
      are optional because a client may send them; `approvedBy` likewise. */
  datatype CreateBody = CreateBody(
    content: Content,
    userRef: Id,
    approvalStatus: Option<string>,
    approvedBy: Option<Id>,
    requiresApproval: Option<bool>)

  /** `{...req.body, approvalStatus: requiresApproval ? 'pending' : 'approved', requiresApproval}`:
      the computed fields are spread after the body and win over it. */
  function FromCreateBody(body: CreateBody, env: Env, now: int): (l: Listing)
    ensures l.approvalStatus == (if RequiresApproval(env) then Pending else Approved)
    ensures l.requiresApproval == Some(RequiresApproval(env))
    ensures l.content == body.content && l.userRef == body.userRef
    ensures l.approvedBy == body.approvedBy && l.createdAt == now
  {
    var required := RequiresApproval(env);
    Listing(body.content, body.userRef, if required then Pending else Approved,
            body.approvedBy, Some(required), now)
  }

  /** Whatever moderation state the body claims, the created listing is the same. */
  lemma CreateIgnoresClaimedStatus(b: CreateBody, s: Option<string>, r: Option<bool>, env: Env, now: int)
    ensures FromCreateBody(b.(approvalStatus := s, requiresApproval := r), env, now)
         == FromCreateBody(b, env, now)
  {
  }

  /** `{...req.body, userRef: req.user.id, approvalStatus: 'approved', approvedBy: req.user.id}` */
  function FromAdminBody(body: CreateBody, caller: Id, now: int): (l: Listing)
    ensures l.userRef == caller && l.approvedBy == Some(caller) && l.approvalStatus == Approved
    ensures l.content == body.content && l.requiresApproval == body.requiresApproval
    ensures l.createdAt == now
  {
    Listing(body.content, caller, Approved, Some(caller), body.requiresApproval, now)
  }

  /** The body of an update request: each field present or absent. */
  datatype Patch = Patch(
    name: Option<string>, description: Option<string>, address: Option<string>,
    regularPrice: Option<int>, discountPrice: Option<int>,
    bathrooms: Option<int>, bedrooms: Option<int>,
    furnished: Option<bool>, parking: Option<bool>, offer: Option<bool>,
    listingType: Option<string>, imageUrls: Option<seq<string>>,
    userRef: Option<Id>, approvalStatus: Option<string>,
    approvedBy: Option<Id>, requiresApproval: Option<bool>)

  const EmptyPatch: Patch :=
    Patch(None, None, None, None, None, None, None, None, None, None,
          None, None, None, None, None, None)

  function Pick<T>(given: Option<T>, stored: T): T {
    if given.Some? then given.value else stored
  }

  function PickOpt<T>(given: Option<T>, stored: Option<T>): Option<T> {
    if given.Some? then given else stored
  }

  /** `findByIdAndUpdate(id, req.body, {new: true})`: every field the body carries
      replaces the stored one, any field included; `createdAt` is immutable. */
  function ApplyPatch(l: Listing, p: Patch): Listing {
    var c := l.content;
    Listing(
      Content(Pick(p.name, c.name), Pick(p.description, c.description), Pick(p.address, c.address),
              Pick(p.regularPrice, c.regularPrice), Pick(p.discountPrice, c.discountPrice),
              Pick(p.bathrooms, c.bathrooms), Pick(p.bedrooms, c.bedrooms),
              Pick(p.furnished, c.furnished), Pick(p.parking, c.parking), Pick(p.offer, c.offer),
              Pick(p.listingType, c.listingType), Pick(p.imageUrls, c.imageUrls)),
      Pick(p.userRef, l.userRef),
      Pick(p.approvalStatus, l.approvalStatus),
      PickOpt(p.approvedBy, l.approvedBy),
      PickOpt(p.requiresApproval, l.requiresApproval),
      l.createdAt)
  }

  /** The patch that carries every field of `m`. */
  function PatchOf(m: Listing): Patch {
    var c := m.content;
    Patch(Some(c.name), Some(c.description), Some(c.address), Some(c.regularPrice),
          Some(c.discountPrice), Some(c.bathrooms), Some(c.bedrooms), Some(c.furnished),
          Some(c.parking), Some(c.offer), Some(c.listingType), Some(c.imageUrls),
          Some(m.userRef), Some(m.approvalStatus), m.approvedBy, m.requiresApproval)
  }

  /** An empty body changes nothing. */
  lemma ApplyEmptyPatch(l: Listing)
    ensures ApplyPatch(l, EmptyPatch) == l
  {
  }

  /** Applying the same body twice is the same as applying it once. */
  lemma ApplyPatchIdempotent(l: Listing, p: Patch)
    ensures ApplyPatch(ApplyPatch(l, p), p) == ApplyPatch(l, p)
  {
  }

  /** A body with every field overwrites the whole listing, ownership and
      moderation state included; only the creation time survives. */
  lemma ApplyFullPatch(l: Listing, m: Listing)
    requires m.approvedBy.Some? && m.requiresApproval.Some?
    ensures ApplyPatch(l, PatchOf(m)) == m.(createdAt := l.createdAt)
  {
  }

  /** A body that omits the moderation fields and the owner leaves them as stored. */
  lemma PatchKeepsOmittedModeration(l: Listing, p: Patch)
    requires p.approvalStatus.None? && p.approvedBy.None? && p.userRef.None?
    ensures ApplyPatch(l, p).approvalStatus == l.approvalStatus
    ensures ApplyPatch(l, p).approvedBy == l.approvedBy
    ensures ApplyPatch(l, p).userRef == l.userRef
  {
  }

  /** The listings with the given status (all of them for `None`), in their
      original order. */
  function WithStatus(docs: seq<Doc>, filter: Option<string>): (r: seq<Doc>)
    ensures forall d :: d in r <==> d in docs && (filter.Some? ==> d.listing.approvalStatus == filter.value)
    ensures |r| <= |docs|
    ensures filter.None? ==> r == docs
  {
    if docs == [] then []
    else
      (if filter.None? || docs[0].listing.approvalStatus == filter.value then [docs[0]] else [])
      + WithStatus(docs[1..], filter)
  }
}
