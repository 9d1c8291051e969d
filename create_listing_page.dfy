/** The create page (client/src/pages/CreateListing.jsx). */
module CreateListingPage {
  import opened Common
  import opened ListingModel
  import opened ListingForm
  import UpdateListingPage

  /** `handleImageSubmit`: when the batch is allowed, one upload is started per
      file, in order, and the batch settles as `Promise.all` does. `host` is
      what the image host answers for a file (`None`: the upload fails). */
  method HandleImageSubmit(form: Content, files: seq<File>, host: File -> Option<string>) returns (r: Upload)
    ensures !UploadAllowed(|files|, |form.imageUrls|) ==> r == Upload(form.imageUrls, Some(TooManyImages))
    ensures UploadAllowed(|files|, |form.imageUrls|) && (exists i :: 0 <= i < |files| && host(files[i]).None?) ==>
              r == Upload(form.imageUrls, Some(UploadFailed))
    ensures UploadAllowed(|files|, |form.imageUrls|) && (forall i :: 0 <= i < |files| ==> host(files[i]).Some?) ==>
              && r.error.None?
              && |r.imageUrls| == |form.imageUrls| + |files|
              && r.imageUrls[..|form.imageUrls|] == form.imageUrls
              && forall i :: 0 <= i < |files| ==> r.imageUrls[|form.imageUrls| + i] == host(files[i]).value
    ensures r == UpdateListingPage.UploadImages(form, files, host)
  {
    if |files| > 0 && |files| + |form.imageUrls| <= MaxImages {
      var promises: seq<Option<string>> := [];
      for i := 0 to |files|
        invariant |promises| == i
        invariant forall j :: 0 <= j < i ==> promises[j] == host(files[j])
      {
        promises := promises + [host(files[i])];
      }
      assert promises == seq(|files|, i requires 0 <= i < |files| => host(files[i]));
      var all := PromiseAll(promises);
      r := ImageSubmit(form.imageUrls, |files|, all);
      assert r == UpdateListingPage.UploadImages(form, files, host);
    } else {
      r := Upload(form.imageUrls, Some(TooManyImages));
    }
  }

  /** `handleChange`: three independent tests, each building its update from
      the form as it was; when several apply, the last one is what remains. */
  method HandleChange(f: Content, e: Event) returns (next: Content)
    ensures IsTyped(e.kind) ==> next == SetInput(f, e.id, e)
    ensures !IsTyped(e.kind) && IsFlagId(e.id) ==> next == SetFlag(f, e.id, e.checked)
    ensures !IsTyped(e.kind) && IsTypeId(e.id) ==> next == f.(listingType := e.id)
    ensures !IsTyped(e.kind) && !IsFlagId(e.id) && !IsTypeId(e.id) ==> next == f
    ensures e.kind == Checkbox || !(IsTypeId(e.id) || IsFlagId(e.id)) ==> next == UpdateListingPage.HandleChange(f, e)
  {
    next := f;
    if IsTypeId(e.id) {
      next := f.(listingType := e.id);
    }
    if IsFlagId(e.id) {
      next := SetFlag(f, e.id, e.checked);
    }
    if IsTyped(e.kind) {
      next := SetInput(f, e.id, e);
    }
  }

  /** The checks of `handleSubmit`: at least one image, and a regular price
      not below the discount price (equal prices pass). */
  function Validate(f: Content): (r: Option<string>)
    ensures r.None? <==> |f.imageUrls| >= 1 && f.regularPrice >= f.discountPrice
    ensures |f.imageUrls| == 0 ==> r == Some(NoImage)
    ensures |f.imageUrls| >= 1 && f.regularPrice < f.discountPrice ==> r == Some(DiscountTooHigh)
  {
    if |f.imageUrls| < 1 then Some(NoImage)
    else if f.regularPrice < f.discountPrice then Some(DiscountTooHigh)
    else None
  }

  /** `{...formData, userRef: currentUser._id}` */
  function RequestBody(f: Content, me: Id): (b: CreateBody)
    ensures b.content == f && b.userRef == me
    ensures b.approvalStatus.None? && b.approvedBy.None? && b.requiresApproval.None?
  {
    CreateBody(f, me, None, None, None)
  }

  /** What the server stores for a submitted form: the form's content, owned
      by the submitting user, with the moderation state the environment sets. */
  lemma SubmittedFormIsStored(f: Content, me: Id, env: Env, now: int)
    ensures var l := FromCreateBody(RequestBody(f, me), env, now);
            && l.content == f && l.userRef == me && l.approvedBy.None?
            && (l.approvalStatus == Pending <==> RequiresApproval(env))
  {
  }

  /** The two pages disagree on a listing exactly when its prices are equal:
      the create page lets it through, the edit page refuses it. */
  lemma EqualPricesDisagree(f: Content)
    requires |f.imageUrls| >= 1
    ensures f.regularPrice == f.discountPrice ==>
              Validate(f).None? && UpdateListingPage.Validate(f) == Some(DiscountTooHigh)
    ensures f.regularPrice != f.discountPrice ==> Validate(f) == UpdateListingPage.Validate(f)
  {
  }
}
