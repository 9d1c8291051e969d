/** The edit page (client/src/pages/UpdateListing.jsx). The form is loaded from
    the stored listing; when that fetch fails it keeps the initial values. */
module UpdateListingPage {
  import opened Common
  import opened ListingModel
  import opened ListingForm

  /** `handleImageSubmit`: `files.map(upload)` settled with `Promise.all`. */
  function UploadImages(form: Content, files: seq<File>, host: File -> Option<string>): (r: Upload)
    ensures !UploadAllowed(|files|, |form.imageUrls|) ==> r == Upload(form.imageUrls, Some(TooManyImages))
    ensures UploadAllowed(|files|, |form.imageUrls|) && (exists i :: 0 <= i < |files| && host(files[i]).None?) ==>
              r == Upload(form.imageUrls, Some(UploadFailed))
    ensures UploadAllowed(|files|, |form.imageUrls|) && (forall i :: 0 <= i < |files| ==> host(files[i]).Some?) ==>
              && r.error.None?
              && |r.imageUrls| == |form.imageUrls| + |files|
              && r.imageUrls[..|form.imageUrls|] == form.imageUrls
              && forall i :: 0 <= i < |files| ==> r.imageUrls[|form.imageUrls| + i] == host(files[i]).value
  {
    var results := seq(|files|, i requires 0 <= i < |files| => host(files[i]));
    assert forall i :: 0 <= i < |files| ==> results[i] == host(files[i]);
    ImageSubmit(form.imageUrls, |files|, PromiseAll(results))
  }

  /** `handleChange`: one chain, so exactly the first matching branch applies. */
  function HandleChange(f: Content, e: Event): (r: Content)
    ensures IsTypeId(e.id) ==> r == f.(listingType := e.id)
    ensures IsFlagId(e.id) ==> r == SetFlag(f, e.id, e.checked)
    ensures !IsTypeId(e.id) && !IsFlagId(e.id) && IsTyped(e.kind) ==> r == SetInput(f, e.id, e)
    ensures !IsTypeId(e.id) && !IsFlagId(e.id) && !IsTyped(e.kind) ==> r == f
  {
    if IsTypeId(e.id) then f.(listingType := e.id)
    else if IsFlagId(e.id) then SetFlag(f, e.id, e.checked)
    else if IsTyped(e.kind) then SetInput(f, e.id, e)
    else f
  }

  /** The checks of `handleSubmit`: at least one image, and a discount price
      strictly below the regular price (equal prices are refused). */
  function Validate(f: Content): (r: Option<string>)
    ensures r.None? <==> |f.imageUrls| >= 1 && f.discountPrice < f.regularPrice
    ensures |f.imageUrls| == 0 ==> r == Some(NoImage)
    ensures |f.imageUrls| >= 1 && f.discountPrice >= f.regularPrice ==> r == Some(DiscountTooHigh)
  {
    if |f.imageUrls| < 1 then Some(NoImage)
    else if f.discountPrice >= f.regularPrice then Some(DiscountTooHigh)
    else None
  }

  /** `{...formData, userRef: currentUser._id}`. When the listing was loaded,
      the form also carries the moderation fields it was loaded with. */
  function RequestBody(fetched: Option<Listing>, f: Content, me: Id): (p: Patch)
    ensures p.name == Some(f.name) && p.imageUrls == Some(f.imageUrls) && p.userRef == Some(me)
    ensures fetched.None? ==> p.approvalStatus.None? && p.approvedBy.None? && p.requiresApproval.None?
    ensures fetched.Some? ==> && p.approvalStatus == Some(fetched.value.approvalStatus)
                              && p.approvedBy == fetched.value.approvedBy
                              && p.requiresApproval == fetched.value.requiresApproval
    ensures forall l :: ApplyPatch(l, p).content == f && ApplyPatch(l, p).userRef == me
  {
    var base := if fetched.Some? then fetched.value else Listing(f, me, "", None, None, 0);
    var p := PatchOf(base.(content := f, userRef := me));
    if fetched.Some? then p else p.(approvalStatus := None)
  }

  /** Saving the page stores the form's content under the saving user, and
      writes back the moderation state the listing had when the page loaded:
      a moderation decision taken in between is undone. */
  lemma SaveRestoresLoadedStatus(stored: Listing, fetched: Listing, f: Content, me: Id)
    ensures var l := ApplyPatch(stored, RequestBody(Some(fetched), f, me));
            && l.content == f && l.userRef == me
            && l.approvalStatus == fetched.approvalStatus
            && l.createdAt == stored.createdAt
  {
  }

  /** A page whose load failed sends no moderation fields, so they stay as stored. */
  lemma SaveWithoutLoadKeepsStatus(stored: Listing, f: Content, me: Id)
    ensures var l := ApplyPatch(stored, RequestBody(None, f, me));
            && l.content == f && l.userRef == me
            && l.approvalStatus == stored.approvalStatus && l.approvedBy == stored.approvedBy
            && l.requiresApproval == stored.requiresApproval
  {
  }
}
