/** What the create and update pages share (client/src/pages/CreateListing.jsx,
    client/src/pages/UpdateListing.jsx): the form is the listing's content,
    images are uploaded in a batch of at most six, and one image can be
    removed by its position. */
module ListingForm {
  import opened Common
  import opened ListingModel

  /** The form both pages start from. */
  const InitialForm: Content := Content("", "", "", 50, 0, 1, 1, false, false, false, "rent", [])

  const MaxImages: nat := 6
  const TooManyImages: string := "You can only upload 6 images per listing"
  const UploadFailed: string := "Image upload failed (2 MB max per image)"
  const NoImage: string := "You must upload at least one image"
  const DiscountTooHigh: string := "Discount price must be lower than regular price"

  /** A file picked for upload; what the image host makes of it is a parameter. */
  datatype File = File(name: string, size: nat)

  /** The image list after a submit, and the upload error shown (`None` for none). */
  datatype Upload = Upload(imageUrls: seq<string>, error: Option<string>)

  /** The guard of `handleImageSubmit`. */
  predicate UploadAllowed(files: nat, existing: nat) {
    files > 0 && files + existing <= MaxImages
  }

  /** `Promise.all`: every URL in file order, or a failure when any upload fails. */
  function PromiseAll(results: seq<Option<string>>): (r: Option<seq<string>>)
    ensures r.Some? <==> forall i :: 0 <= i < |results| ==> results[i].Some?
    ensures r.Some? ==> |r.value| == |results| && forall i :: 0 <= i < |results| ==> r.value[i] == results[i].value
  {
    if results == [] then Some([])
    else
      var rest := PromiseAll(results[1..]);
      if results[0].None? || rest.None? then
        assert rest.None? ==> exists i :: 1 <= i < |results| && results[i].None? by {
          if rest.None? {
            var j :| 0 <= j < |results[1..]| && results[1..][j].None?;
            assert results[j + 1].None?;
          }
        }
        None
      else Some([results[0].value] + rest.value)
  }

  /** The outcome of `handleImageSubmit` once the uploads settle. A refused
      batch and a failed batch leave the images as they were; a successful
      batch appends its URLs after the existing ones, in file order. */
  function ImageSubmit(urls: seq<string>, files: nat, uploaded: Option<seq<string>>): (r: Upload)
    ensures !UploadAllowed(files, |urls|) ==> r == Upload(urls, Some(TooManyImages))
    ensures UploadAllowed(files, |urls|) && uploaded.None? ==> r == Upload(urls, Some(UploadFailed))
    ensures UploadAllowed(files, |urls|) && uploaded.Some? ==> r == Upload(urls + uploaded.value, None)
  {
    if !UploadAllowed(files, |urls|) then Upload(urls, Some(TooManyImages))
    else if uploaded.None? then Upload(urls, Some(UploadFailed))
    else Upload(urls + uploaded.value, None)
  }

  /** A successful batch, one URL per file, never takes a listing past six images. */
  lemma UploadKeepsAtMostSix(urls: seq<string>, files: nat, uploaded: Option<seq<string>>)
    requires uploaded.Some? ==> |uploaded.value| == files
    requires |urls| <= MaxImages
    ensures |ImageSubmit(urls, files, uploaded).imageUrls| <= MaxImages
  {
  }

  /** `imageUrls.filter((_, i) => i !== index)` */
  function RemoveAt(s: seq<string>, index: int): (r: seq<string>)
    ensures |r| == if 0 <= index < |s| then |s| - 1 else |s|
  {
    if s == [] then []
    else (if index == 0 then [] else [s[0]]) + RemoveAt(s[1..], index - 1)
  }

  /** Removing drops exactly the element at that position and keeps the others
      in order; an index outside the list removes nothing. */
  lemma {:induction false} RemoveAtSlices(s: seq<string>, index: int)
    ensures 0 <= index < |s| ==> RemoveAt(s, index) == s[..index] + s[index + 1..]
    ensures !(0 <= index < |s|) ==> RemoveAt(s, index) == s
  {
    if s != [] {
      RemoveAtSlices(s[1..], index - 1);
      if 0 < index < |s| {
        assert s[..index] == [s[0]] + s[1..][..index - 1];
        assert s[index + 1..] == s[1..][index..];
      } else if index == 0 {
        assert s[index + 1..] == s[1..];
      } else {
        assert s == [s[0]] + s[1..];
      }
    }
  }

  // ---------------------------------------------------------------------------
  // Change events.

  datatype InputKind = Checkbox | Text | TextArea | Number | FileInput

  /** A change event: the element's id and type, its text value, its value as
      a number (number inputs) and its checked state. */
  datatype Event = Event(id: string, kind: InputKind, value: string, number: int, checked: bool)

  predicate IsTypeId(id: string) {
    id == "sale" || id == "rent"
  }

  predicate IsFlagId(id: string) {
    id == "parking" || id == "furnished" || id == "offer"
  }

  predicate IsTyped(kind: InputKind) {
    kind == Text || kind == TextArea || kind == Number
  }

  function SetFlag(f: Content, id: string, checked: bool): (r: Content)
    ensures IsFlagId(id) ==> r.parking == (if id == "parking" then checked else f.parking)
    ensures IsFlagId(id) ==> r.furnished == (if id == "furnished" then checked else f.furnished)
    ensures IsFlagId(id) ==> r.offer == (if id == "offer" then checked else f.offer)
    ensures r.(parking := f.parking, furnished := f.furnished, offer := f.offer) == f
  {
    if id == "parking" then f.(parking := checked)
    else if id == "furnished" then f.(furnished := checked)
    else if id == "offer" then f.(offer := checked)
    else f
  }

  /** `{...formData, [id]: value}` for the form's text and number fields. */
  function SetInput(f: Content, id: string, e: Event): (r: Content)
    ensures r.imageUrls == f.imageUrls && r.listingType == f.listingType
    ensures r.parking == f.parking && r.furnished == f.furnished && r.offer == f.offer
    ensures id == "name" ==> r == f.(name := e.value)
    ensures id == "description" ==> r == f.(description := e.value)
    ensures id == "address" ==> r == f.(address := e.value)
    ensures id == "bedrooms" ==> r == f.(bedrooms := e.number)
    ensures id == "bathrooms" ==> r == f.(bathrooms := e.number)
    ensures id == "regularPrice" ==> r == f.(regularPrice := e.number)
    ensures id == "discountPrice" ==> r == f.(discountPrice := e.number)
    ensures id !in {"name", "description", "address", "bedrooms", "bathrooms", "regularPrice", "discountPrice"} ==> r == f
  {
    if id == "name" then f.(name := e.value)
    else if id == "description" then f.(description := e.value)
    else if id == "address" then f.(address := e.value)
    else if id == "bedrooms" then f.(bedrooms := e.number)
    else if id == "bathrooms" then f.(bathrooms := e.number)
    else if id == "regularPrice" then f.(regularPrice := e.number)
    else if id == "discountPrice" then f.(discountPrice := e.number)
    else f
  }
}
