# Brickly listings, accounts and moderation — a Dafny model

Brickly is a real-estate site. Users sign up, publish sale and rental
listings, edit or delete their own listings, and search everyone's. When the
deployment requires approval, a new listing starts out "pending". It becomes
visible in search only after an administrator approves it from the admin
dashboard. Administrators log in with the configured admin email, a passcode
and their password. That login promotes their account to admin.

This project models the server side of those rules:

- the listing, user and admin controllers;
- the admin guard middleware and the admin router;
- the user schema's defaults and validation.

It also models the client pages that build the requests and show the
results: search, create, edit, profile, admin dashboard, the listing page
and sign-up.

The model has these modules:

- `Common`:
  - the environment (`REQUIRES_LISTING_APPROVAL`, `ADMIN_EMAIL`, `ADMIN_PASSCODE`) and the `||` default idiom;
  - the password digest;
  - lower-casing and substring search;
  - JavaScript's `parseInt` with no radix (decimal, or hexadecimal after `0x`);
  - a count of true flags.
- `UserModel`: the user document, its schema defaults and required fields, the password-free projection, and `isAdminEmail`.
- `ListingModel`:
  - the listing document and the create bodies of the user and admin handlers;
  - the partial update (`findByIdAndUpdate(id, req.body)`) as a `Patch`;
  - the status filter.
- `Store`: the database as a class `Db` with a map of users and a map of listings.
  - Ids are handed out in increasing order, so id order is insertion order.
  - The unique indexes on username and email are an invariant.
- `ListingQuery`: `getListings`. It covers query-string parsing, the filter, the sort, and Mongo's skip-then-limit paging.
- `ListingController`, `AdminController`, `UserController`: the handlers. Each one is a method on `Db`. It either returns the handler's error (status and message) or changes the store as the handler does.
- `AdminGuard`, `AdminRoutes`: `verifyAdmin`, `verifyAdminPasscode`, and the route table with each route's middleware chain.
- `SearchPage`:
  - the sidebar state and reading it back from the URL;
  - the sort selector's `split("_")`;
  - the submitted query string and "show more";
  - a `Results` class holding the listings on screen and the show-more flag.
- `ListingForm`, `CreateListingPage`, `UpdateListingPage`: the listing form, the image batch upload, image removal, change events, validation and the request body.
- `ProfilePage`, `AdminDashboardPage`, `ListingPage`, `SignUpPage`: status filters and counts, badges, the dashboard's endpoints and actions, the price display and the password-strength meter.

Behaviours of the code that the model makes explicit:

- The create and edit pages validate prices differently. Create refuses only `regularPrice < discountPrice`. Edit refuses `discountPrice >= regularPrice`, so equal prices pass on one page and fail on the other (`CreateListingPage.EqualPricesDisagree`).
- On the create page, `handleChange` runs three independent `if`s. The edit page uses an `else if` chain. They agree on every event except a text or number input whose id is also a listing type or a flag (`CreateListingPage.HandleChange`).
- The edit page loads the whole stored listing into its form and sends it back on save. So a save writes back the `approvalStatus` the listing had when the page was loaded, undoing any moderation in between (`UpdateListingPage.SaveRestoresLoadedStatus`).
- The search sidebar submits `"false"` for an unchecked flag, and the server reads that as "no constraint". A sidebar without a sort submits `"undefined"`, which is not a sort field. The model returns such results in natural (insertion) order (`SearchPage.SubmittedQuery`); the store itself promises no order for them.
- `updateApprovalSettings` only echoes its input. The approval policy comes from the environment alone (`AdminController.UpdateApprovalSettings` has no `modifies`).
- `deleteUser` compares ids with `!=` rather than `!==`. Both ids are strings, so this is the same test as the other handlers' strict one.

## Model

| member | source | states |
|---|---|---|
| Common.OrDefault | api/controllers/listing.controller.js:108-110 | `x \|\| d` keeps a present non-empty string and falls back to the default for an absent or empty one |
| Common.LowerChar | client/src/pages/AdminDashboard.jsx:197-200 | `toLowerCase` on one character: A-Z, U+00C0-U+00DE except U+00D7, U+0391-U+03A9 except U+03A2, and U+0400-U+042F each map to a small letter that is no capital; every other character is kept |
| Common.LowerAccentedExample | client/src/pages/AdminDashboard.jsx:197-200 | "ÉCOLE" lowers to "école" |
| Common.ParseInt | api/controllers/listing.controller.js:85-86 | `parseInt` of undefined, or of text whose first non-blank character is no digit or sign, is NaN, and a negative result needs a minus sign |
| Common.ParseIgnoresLeadingSpace | api/controllers/listing.controller.js:85-86 | any JavaScript white space or line terminator before the number is skipped |
| Common.ParseVerticalTabExample | api/controllers/listing.controller.js:85-86 | a vertical tab before "5" is skipped, giving 5 |
| Common.ParseHexExample | api/controllers/listing.controller.js:85-86 | "0x1F" is read in base 16, as 31 |
| Common.ParseNegativeHexExample | api/controllers/listing.controller.js:85-86 | "-0X10" is -16: the sign comes before the prefix, which may be upper case |
| Common.ParseBareHexPrefix | api/controllers/listing.controller.js:85-86 | "0x" not followed by a hexadecimal digit is NaN |
| Common.ParseTrailingTextExample | api/controllers/listing.controller.js:85-86 | "12px" is 12: the number ends at the first non-digit |
| Common.VerifyHash | api/controllers/admin.controller.js:31-34 | a password verifies against a stored hash exactly when it is the password that was hashed |
| Common.ParseIntRoundTrip | api/controllers/listing.controller.js:85-86 | `parseInt` reads back every integer from its decimal text |
| Common.ParseDigits | api/controllers/listing.controller.js:85-86 | `parseInt` of a run of decimal digits is its value |
| Common.ParseNegativeDigits | api/controllers/listing.controller.js:85-86 | `parseInt` of a minus sign followed by digits is the negated value |
| UserModel.CreateUser | api/models/user.model.js:3-30 | a new user is accepted exactly when username and email are non-empty and a password is present. An accepted user keeps the given fields, is not an admin, has an empty passcode and gets the default avatar when none is given. A refusal is a 500 |
| UserModel.PublicForgetsOnlyPassword | api/controllers/user.controller.js:84-86 | two users give the same response exactly when they differ only in their password |
| UserModel.IsAdminEmailDefault | api/models/user.model.js:33-36 | with no admin email configured, only "x@x" is the admin email |
| ListingModel.FromCreateBody | api/controllers/listing.controller.js:8-19 | the stored status is pending exactly when approval is required, otherwise approved. `requiresApproval` records the policy, and the body's content and owner are kept |
| ListingModel.CreateIgnoresClaimedStatus | api/controllers/listing.controller.js:12-16 | a status or policy claimed in the request body has no effect on the created listing |
| ListingModel.FromAdminBody | api/controllers/admin.controller.js:171-178 | an admin-created listing is owned and approved by the calling admin, with status approved |
| ListingModel.ApplyEmptyPatch | api/controllers/listing.controller.js:59-63 | an update with an empty body leaves the listing unchanged |
| ListingModel.ApplyPatchIdempotent | api/controllers/listing.controller.js:59-63 | sending the same update twice gives the same listing as sending it once |
| ListingModel.ApplyFullPatch | api/controllers/listing.controller.js:59-63 | a body carrying every field replaces the listing, except its creation time |
| ListingModel.PatchKeepsOmittedModeration | api/controllers/listing.controller.js:59-63 | a body without status, approver or owner keeps the stored ones |
| ListingModel.WithStatus | api/controllers/admin.controller.js:75-79 | keeps exactly the listings with the given status, and all of them when no status is given |
| Store.StoreKeepsUnique | api/models/user.model.js:4-13 | a write that clashes with no other user's username or email keeps usernames and emails unique |
| Store.InIdOrder | api/controllers/listing.controller.js:138 | lists every stored document below the id bound exactly once, in increasing id (insertion) order |
| Store.ListingDocs | api/controllers/listing.controller.js:138 | the stored listings as documents: exactly the stored ones, in insertion order |
| Store.FirstWithEmail | api/controllers/admin.controller.js:25-28 | `findOne({email})`: the first user with that email, or none when no user has it |
| Store.Db.InsertListing | api/controllers/listing.controller.js:19 | `Listing.create` stores the listing under a fresh id and changes nothing else |
| Store.Db.InsertUser | api/models/user.model.js:3-30 | a creation is refused as validation does (500). It is refused on a clash with the unique indexes (500). Otherwise the validated user is stored under a fresh id |
| ListingQuery.FlagParam | api/controllers/listing.controller.js:87-100 | an absent or "false" flag imposes no constraint; exactly "true", "1" and "yes" require the flag and exactly "0" and "no" forbid it; any other value is a 500 whose message names the value, the parameter and the model (`Cast to Boolean failed for value "maybe" (type string) at path "offer" for model "Listing"`) |
| ListingQuery.IntOr | api/controllers/listing.controller.js:85-86 | `parseInt(v) \|\| d`: the parsed value unless it is NaN or 0 |
| ListingQuery.HexLimitExample | api/controllers/listing.controller.js:85 | `?limit=0x10` asks for 16 listings |
| ListingQuery.SortParam | api/controllers/listing.controller.js:110 | exactly "createdAt" and "regularPrice" select a sort key; any other name sorts on nothing |
| ListingQuery.OrderParam | api/controllers/listing.controller.js:111 | exactly "asc" and "ascending" sort ascending and exactly "desc" and "descending" descending; any other text, including "DESC", "1" and "-1", is a 500 |
| ListingQuery.OrderTextExamples | api/controllers/listing.controller.js:139 | "DESC", "Asc", "1" and "-1" are refused as sort values |
| ListingQuery.BuildQuery | api/controllers/listing.controller.js:83-139 | the query is built exactly when the three flags cast and the order (default "desc") is valid, else a 500. A bad order is reported first, with the message naming the sort key and value; then the first flag that fails to cast, in the order offer, furnished, parking. Only approved listings are selected exactly when the request is not flagged admin and approval is required. The sort key defaults to "createdAt", `skip` is `parseInt(startIndex) \|\| 0` and `limit` `parseInt(limit) \|\| 9`, never 0; type, search term and flags follow their parameters |
| ListingQuery.Select | api/controllers/listing.controller.js:122-138 | `find(query)` keeps exactly the stored listings that match the query |
| ListingQuery.SortDocs | api/controllers/listing.controller.js:139 | the sort is a permutation of its input |
| ListingQuery.SortDocsOrdered | api/controllers/listing.controller.js:139 | the sort's result is ordered by the chosen field and direction |
| ListingQuery.NaturalOrderKeepsOrder | api/controllers/listing.controller.js:139 | a sort field the store does not have leaves the natural order unchanged |
| ListingQuery.Page | api/controllers/listing.controller.js:140-141 | the page is the run of consecutive documents starting at `skip`, as long as what is left after the skip, cut to the size of the limit unless that is 0 |
| ListingQuery.WindowSize | api/controllers/listing.controller.js:140-141 | the page length: nothing past the end, everything left when the limit is 0 or large enough, otherwise the size of the limit |
| ListingQuery.PageOrdered | api/controllers/listing.controller.js:139-141 | a page of an ordered result is ordered |
| ListingQuery.WholePage | api/controllers/listing.controller.js:140-141 | a page from the start that holds as many documents as there are is all of them |
| ListingQuery.PageConcat | api/controllers/listing.controller.js:140-141 | two consecutive pages together are the page of the combined size |
| ListingQuery.PageContinues | api/controllers/listing.controller.js:140-141 | a page from the front followed by the page that starts where it ended is the window from the front of their combined size |
| ListingQuery.Search | api/controllers/listing.controller.js:83-148 | succeeds exactly when the query is built and the skip is not negative; errors are 500. The result is exactly the window, after `skip` and cut to the limit, of the matching stored listings sorted by the key and direction; so every listing returned is stored and matches, the result is ordered, and its length is the window size. When that window starts at 0 and covers all matches, every matching stored listing is returned |
| ListingQuery.SearchWithSkip | api/controllers/listing.controller.js:138-141 | two query strings that differ only in their skip find the same sorted matches, and each answers the window at its own skip. Both windows are cut from one sorted sequence, which breaks ties in insertion order (see "## Left out") |
| ListingQuery.NonAdminSeesOnlyApproved | api/controllers/listing.controller.js:114-133 | when approval is required and the request is not flagged admin, every result is approved |
| ListingQuery.PlainQuery | api/controllers/listing.controller.js:83-133 | a request with no parameters is a query for both types, no flags, newest first, 9 results from the start |
| ListingQuery.PlainMatches | api/controllers/listing.controller.js:122-133 | that query matches exactly the sale or rent listings, and only approved ones when approval applies |
| ListingQuery.UnfilteredSearch | api/controllers/listing.controller.js:83-148 | with at most nine stored listings, the unfiltered search returns exactly the visible sale and rent listings |
| ListingQuery.ApprovalMakesVisible | api/controllers/admin.controller.js:113-116 | a pending listing is absent from a public search, and present once an admin approves it (status and approver set) |
| ListingController.CreateListing | api/controllers/listing.controller.js:4-28 | stores the listing built from the body under a fresh id. The message says whether the listing awaits approval |
| ListingController.DeleteListing | api/controllers/listing.controller.js:30-47 | a missing listing gives 404 and a non-owner 401, and neither changes the store. The owner's request removes exactly that listing |
| ListingController.UpdateListing | api/controllers/listing.controller.js:49-68 | a missing listing gives 404 and a non-owner 401, both leaving the store. The owner's request stores the body applied to the listing and returns the result |
| ListingController.GetListing | api/controllers/listing.controller.js:70-81 | returns the stored listing, or 404 exactly when there is none |
| AdminGuard.VerifyAdmin | api/utils/verifyAdmin.js:5-29 | the checks in order: 401 without a session, 500 on a store fault, 404 for an unknown user, 403 for a non-admin |
| AdminGuard.VerifyAdminPassesIff | api/utils/verifyAdmin.js:5-29 | the guard passes exactly for a known admin reached without a store fault |
| AdminGuard.VerifyAdminFollowsLiveFlag | api/utils/verifyAdmin.js:13-22 | the guard reads the stored admin flag on every request, so setting or clearing it takes effect at once |
| AdminGuard.VerifyAdminPasscode | api/utils/verifyAdmin.js:32-45 | passes exactly when the passcode equals the configured one (default "admin123"), otherwise 403 |
| AdminController.LoginDecision | api/controllers/admin.controller.js:8-34 | the checks in order: admin email (403), passcode (403), the user with that email (404), a missing password (500 "Illegal arguments: undefined, string", the hash comparison's error), a wrong password (401). With all checks passed, the login succeeds for exactly the first user with the admin email |
| AdminController.FirstWithEmailIgnoresPromotion | api/controllers/admin.controller.js:25-40 | promoting a user does not change which user the email lookup finds |
| AdminController.RepeatLoginSameDecision | api/controllers/admin.controller.js:8-55 | logging in again with the same body after a successful login succeeds for the same user |
| AdminController.PasscodeCheckedBeforePassword | api/controllers/admin.controller.js:19-22 | a wrong passcode is refused with 403 whatever password is sent |
| AdminController.PromotionKeepsUnique | api/controllers/admin.controller.js:37-40 | promotion keeps usernames and emails unique |
| AdminController.AdminLogin | api/controllers/admin.controller.js:8-55 | a refusal changes nothing. On success the user is promoted (no write when already an admin) and returned without the password, and from then on `verifyAdmin` lets that user through |
| AdminController.GetAllUsers | api/controllers/admin.controller.js:58-65 | every stored user exactly once, without the password, in insertion order |
| AdminController.StatusFilter | api/controllers/admin.controller.js:75-77 | the status filter applies exactly for one of the three statuses |
| AdminController.PageOf | api/controllers/admin.controller.js:79-91 | `total` counts every matching listing and `hasMore` holds exactly when the total exceeds start plus limit. The page is exactly the window after `start`, cut to the limit, of the matching listings sorted newest first; so it holds only matching listings, in that order, as many as the start and limit select |
| AdminController.ListingsPage | api/controllers/admin.controller.js:68-95 | succeeds exactly when the paging values parse and the start is not negative. The page is then built from the listings with the requested status |
| AdminController.HasMoreMeansFullPage | api/controllers/admin.controller.js:79-91 | with a positive limit, `hasMore` means the page is full. Otherwise the page holds all the remaining listings |
| AdminController.Moderate | api/controllers/admin.controller.js:113-116 | moderation sets the status and the approving admin and keeps everything else |
| AdminController.ModerateIdempotent | api/controllers/admin.controller.js:113-116 | applying the same decision twice is the same as applying it once |
| AdminController.UpdateListingApproval | api/controllers/admin.controller.js:98-126 | an invalid status gives 400 before the store is read, and a missing listing 404. Otherwise exactly that listing is moderated |
| AdminController.AdminDeleteListing | api/controllers/admin.controller.js:129-148 | removes any existing listing whatever its owner, or gives 404 |
| AdminController.AdminCreateListing | api/controllers/admin.controller.js:169-184 | stores the admin-owned, approved listing under a fresh id |
| AdminController.UpdateApprovalSettings | api/controllers/admin.controller.js:151-166 | echoes the requested value in the response and changes no state |
| UserController.UpdatesOf | api/controllers/user.controller.js:21-31 | username, email and avatar are passed on, and the password only when non-empty, and then hashed |
| UserController.ApplyUpdates | api/controllers/user.controller.js:34-38 | each sent field (username, email, avatar, password digest) replaces the stored one and each absent one is kept; the admin flag and passcode never change |
| UserController.UpdatedPasswordVerifies | api/controllers/user.controller.js:27-38 | after an update with a new password, exactly that password verifies. Without one, the old hash stays |
| UserController.UpdateUser | api/controllers/user.controller.js:14-50 | 401 for another user's account, then 404 for a missing user, then 500 on a username or email clash. Otherwise the update is stored and the user returned without the password |
| UserController.DeleteUser | api/controllers/user.controller.js:52-62 | 401 for another user's account. Otherwise the user is removed and the cookie cleared |
| UserController.OwnedBy | api/controllers/user.controller.js:67 | keeps exactly the listings owned by the user, in their order |
| UserController.GetUserListings | api/controllers/user.controller.js:64-75 | 401 for another user. Otherwise exactly the user's stored listings, in insertion order |
| UserController.GetUser | api/controllers/user.controller.js:77-90 | the user without the password, or 404 exactly when there is none |
| AdminRoutes.Lookup | api/routes/admin.route.js:17-26 | the route for a method and path, or none exactly when no route has them |
| AdminRoutes.RunGuards | api/routes/admin.route.js:21-26 | a chain passes exactly when every middleware passes, and a failure is the answer of one of them |
| AdminRoutes.LoginIsOpen | api/routes/admin.route.js:17-18 | `POST /login` runs no middleware, so it reaches the handler without session or passcode |
| AdminRoutes.OtherRoutesProtected | api/routes/admin.route.js:21-26 | every other route runs `verifyToken` then `verifyAdmin`, and no route runs the passcode guard |
| AdminRoutes.ProtectedPassesIff | api/routes/admin.route.js:21-26 | a protected route is reached exactly by a known admin with a session. Without a session the answer is 401 |
| SearchPage.FromUrl | client/src/pages/Search.jsx:37-65 | the sidebar is reloaded exactly when some parameter is set. Then each flag is on exactly when it reads "true", and the search term, type, sort and order take the URL value when it is non-empty, else "", "all", "created_at" and "desc" |
| SearchPage.Split | client/src/pages/Search.jsx:101-104 | `split` gives at least one part, none containing the separator |
| SearchPage.JoinSplit | client/src/pages/Search.jsx:101-104 | joining the parts of a split gives back the string |
| SearchPage.SplitJoin | client/src/pages/Search.jsx:101-104 | splitting a join of separator-free parts gives back the parts |
| SearchPage.SortChoiceOfPair | client/src/pages/Search.jsx:101-104 | a "field_order" value is read back as its field and order |
| SearchPage.SelectorOptionsUnderstood | client/src/pages/Search.jsx:294-303 | each sort option is read as its field and order, and each names a real sort field and a valid order |
| SearchPage.HandleChange | client/src/pages/Search.jsx:85-106 | each sidebar control changes exactly its own field, and other ids change nothing |
| SearchPage.ClearFilters | client/src/pages/Search.jsx:136-146 | clearing resets every filter, leaves no sort and orders descending |
| SearchPage.ActiveFiltersCount | client/src/pages/Search.jsx:148-156 | counts the active filters (a search term, a type other than "all", each flag), at most five |
| SearchPage.NoActiveFilterIff | client/src/pages/Search.jsx:148-156 | the count is zero exactly when no filter is set |
| SearchPage.ClearedHasNoActiveFilter | client/src/pages/Search.jsx:136-156 | after clearing, no filter is counted |
| SearchPage.SubmitParams | client/src/pages/Search.jsx:108-120 | the submitted query carries exactly the seven sidebar fields, flags as "true"/"false", no sort as "undefined" |
| SearchPage.SubmitThenLoad | client/src/pages/Search.jsx:37-65 | loading a submitted URL gives back the sidebar that submitted it |
| SearchPage.SubmittedQuery | client/src/pages/Search.jsx:108-120 | the server reads a submitted search as: checked flags required, unchecked ones free, no sort meaning natural order, the first 9 results |
| SearchPage.ShowMoreRequest | client/src/pages/Search.jsx:122-128 | "show more" keeps every parameter and sets `startIndex` to the number shown |
| SearchPage.ShowMoreSkipsShown | client/src/pages/Search.jsx:122-128 | the server skips exactly the listings already shown |
| SearchPage.ShowMoreQuery | client/src/pages/Search.jsx:122-127 | the "show more" request builds the same server query as the page's URL, with only the skip set to the number shown |
| SearchPage.ShowMoreContinues | client/src/pages/Search.jsx:122-133 | after a first search from the front, the "show more" search succeeds and returns the matching listings that follow the ones shown, in the same order: the two responses together are the sorted matches from the front, as many as the first response plus one page. This holds under the model's insertion-order tie-break; the store may order equal keys differently in the two requests (see "## Left out") |
| SearchPage.Results.constructor | client/src/pages/Search.jsx:33-34 | the page starts with no listings and no "show more" |
| SearchPage.Results.OnFirstBatch | client/src/pages/Search.jsx:67-79 | the first batch replaces the list, and "show more" appears exactly when more than 8 came back |
| SearchPage.Results.OnShowMoreBatch | client/src/pages/Search.jsx:129-133 | a further batch is appended, and "show more" stays only when it was on and the batch had 9 |
| ListingForm.PromiseAll | client/src/pages/CreateListing.jsx:62-73 | all URLs in file order when every upload succeeds, otherwise a failure |
| ListingForm.ImageSubmit | client/src/pages/CreateListing.jsx:51-78 | a refused or failed batch keeps the images and shows its message. A successful one appends the URLs after the existing images |
| ListingForm.UploadKeepsAtMostSix | client/src/pages/CreateListing.jsx:52 | no batch takes a listing past six images |
| ListingForm.RemoveAt | client/src/pages/CreateListing.jsx:97-102 | removal shortens the list by one exactly for a position inside it |
| ListingForm.RemoveAtSlices | client/src/pages/CreateListing.jsx:97-102 | removal drops exactly the image at that position and keeps the others in order |
| ListingForm.SetFlag | client/src/pages/CreateListing.jsx:112-117 | a checkbox sets its own flag and nothing else |
| ListingForm.SetInput | client/src/pages/CreateListing.jsx:119-124 | each of the seven text and number ids sets exactly its own field; any other id changes nothing, and the images, type and flags are never touched |
| CreateListingPage.HandleImageSubmit | client/src/pages/CreateListing.jsx:51-78 | the loop starts one upload per file in order. The outcome is refusal, failure or the appended URLs, computed from one form; edits made during the upload are not modelled |
| CreateListingPage.HandleChange | client/src/pages/CreateListing.jsx:104-125 | the last applicable branch wins. It agrees with the edit page's chain except for typed inputs whose id is a type or flag |
| CreateListingPage.Validate | client/src/pages/CreateListing.jsx:130-132 | passes exactly with at least one image and a regular price not below the discount price |
| CreateListingPage.RequestBody | client/src/pages/CreateListing.jsx:140-143 | the form plus the current user as owner, with no moderation fields |
| CreateListingPage.SubmittedFormIsStored | client/src/pages/CreateListing.jsx:135-143 | the server stores the form's content under the submitting user, pending exactly when approval is required |
| CreateListingPage.EqualPricesDisagree | client/src/pages/CreateListing.jsx:131-132 | equal prices pass on the create page and are refused on the edit page, which otherwise agree |
| UpdateListingPage.UploadImages | client/src/pages/UpdateListing.jsx:68-90 | refusal when the batch is empty or exceeds six images, failure when any upload fails, otherwise the URLs appended in file order |
| UpdateListingPage.HandleChange | client/src/pages/UpdateListing.jsx:99-108 | exactly the first matching branch applies: type, then flag, then typed input |
| UpdateListingPage.Validate | client/src/pages/UpdateListing.jsx:113-116 | passes exactly with at least one image and a discount strictly below the regular price |
| UpdateListingPage.RequestBody | client/src/pages/UpdateListing.jsx:126-129 | applied to any stored listing, the body stores the form as content and the saver as owner. After a successful load it also carries the loaded status, approver and policy; otherwise none of them |
| UpdateListingPage.SaveRestoresLoadedStatus | client/src/pages/UpdateListing.jsx:31-46 | saving a loaded page stores the form under the saver and writes back the status seen at load time |
| UpdateListingPage.SaveWithoutLoadKeepsStatus | client/src/pages/UpdateListing.jsx:110-130 | after a failed load, a save leaves the stored moderation fields |
| ProfilePage.Filtered | client/src/pages/Profile.jsx:293-296 | "all" keeps every listing, and a status keeps exactly the listings with it |
| ProfilePage.FilteredDistributes | client/src/pages/Profile.jsx:293-296 | filtering commutes with concatenation, so it keeps order |
| ProfilePage.FilterCount | client/src/pages/Profile.jsx:298-301 | a button's count is the length of the list that filter shows |
| ProfilePage.StatusCountsAddUp | client/src/pages/Profile.jsx:298-301 | when every listing has one of the three statuses, their counts add up to the "all" count |
| ProfilePage.StatusIcon | client/src/pages/Profile.jsx:269-279 | a check for approved, a cross for rejected, a clock otherwise |
| ProfilePage.StatusColor | client/src/pages/Profile.jsx:281-291 | green for approved, red for rejected, yellow for any other status |
| ProfilePage.UnknownShownAsPending | client/src/pages/Profile.jsx:269-291 | any other status, a missing one included, looks like pending, and the three statuses look different |
| ProfilePage.AfterDelete | client/src/pages/Profile.jsx:256-267 | a successful delete removes exactly the listings with that id, and a failed one keeps the list |
| ProfilePage.AfterDeleteDistributes | client/src/pages/Profile.jsx:265 | removal commutes with concatenation, so the kept listings keep their order |
| AdminDashboardPage.OnLoad | client/src/pages/AdminDashboard.jsx:38-50 | listings are fetched exactly for an admin. A visitor without a session goes to sign-in |
| AdminDashboardPage.TabEndpoint | client/src/pages/AdminDashboard.jsx:57-64 | a status tab adds `?status=<tab>`, and any other tab reads the bare endpoint |
| AdminDashboardPage.TabSelectsItsStatus | client/src/pages/AdminDashboard.jsx:57-64 | the server filters exactly by the tab's status, and by none for other tabs |
| AdminDashboardPage.ListingActionRequest | client/src/pages/AdminDashboard.jsx:157-179 | approve and reject PUT a valid status to the approval endpoint, delete sends a bodiless DELETE, and anything else PUTs `{}` |
| AdminDashboardPage.SearchFilter | client/src/pages/AdminDashboard.jsx:197-200 | keeps exactly the listings whose name or description contains the term, ignoring case |
| AdminDashboardPage.SearchFilterDistributes | client/src/pages/AdminDashboard.jsx:197-200 | filtering commutes with concatenation, so the kept listings keep their order and multiplicity |
| AdminDashboardPage.EmptyTermKeepsAll | client/src/pages/AdminDashboard.jsx:197-200 | an empty search box shows every listing |
| AdminDashboardPage.ToggleApproval | client/src/pages/AdminDashboard.jsx:128-155 | the flag flips exactly on success. A refusal shows the server message and a throw the fixed message; a success leaves the error already shown |
| AdminDashboardPage.ToggleTwiceRestores | client/src/pages/AdminDashboard.jsx:128-155 | two successful toggles restore the flag and the error shown, and a failed one leaves the flag |
| ListingPage.DiscountAmount | client/src/pages/Listing.jsx:125 | the saving is the price difference on offer, and zero otherwise |
| ListingPage.FinalPrice | client/src/pages/Listing.jsx:126 | the discount price on offer, the regular price otherwise |
| ListingPage.PriceAndSavingAddUp | client/src/pages/Listing.jsx:125-126 | price shown plus saving is the regular price, and a saving appears exactly on an offer with a lower discount price |
| ListingPage.LabelPluralIff | client/src/pages/Listing.jsx:105-110 | the room label starts with the number and is plural exactly for more than one room |
| ListingPage.ShowContact | client/src/pages/Listing.jsx:295 | the contact card shows exactly for a signed-in user who does not own the listing |
| SignUpPage.PasswordStrength | client/src/pages/SignUp.jsx:23-31 | the strength counts the criteria met, at most five; the length criterion counts UTF-16 code units |
| SignUpPage.Utf16Length | client/src/pages/SignUp.jsx:26 | `length` lies between the number of characters and twice it, and equals it when every character is in the Basic Multilingual Plane |
| SignUpPage.AstralCharsCountTwice | client/src/pages/SignUp.jsx:26 | a character outside the Basic Multilingual Plane counts twice towards the length |
| SignUpPage.FourEmojiScoreTwo | client/src/pages/SignUp.jsx:23-31 | a password of four emoji meets the length and symbol criteria and scores 2 |
| SignUpPage.StrengthExtremes | client/src/pages/SignUp.jsx:23-31 | the empty password scores 0. A score of 5 means at least 8 characters with an upper-case letter, a lower-case letter, a digit and a symbol |
| SignUpPage.OneMoreCriterion | client/src/pages/SignUp.jsx:23-31 | meeting one more criterion raises the strength by exactly one |
| SignUpPage.StrengthColor | client/src/pages/SignUp.jsx:62-66 | red up to 2, yellow at 3, green from 4 |
| SignUpPage.StrengthText | client/src/pages/SignUp.jsx:68-72 | weak up to 2, medium at 3, strong from 4 |
| SignUpPage.TextMatchesColor | client/src/pages/SignUp.jsx:62-72 | each label always comes with its own colour |

## Left out

- Network, HTTP framing, cookies and JSON: handlers take their inputs as parameters and return their answer as a value.
- JWT issuing and checking: `verifyToken` lives in `api/utils/verifyUser.js`, which is not part of this model. Its outcome is the caller id passed to the handlers and guards (`None` when there is no valid token).
- bcrypt: salted hashes are modelled as a deterministic digest. Only "verifies exactly the hashed password" is kept.
- The listing schema: `api/models/listing.model.js` is not part of this model. Its defaults and casts are taken from how the controllers use the fields.
- `$regex` with option `i` is modelled as a case-insensitive substring test. Regular-expression metacharacters in the search term are not interpreted.
- ListingQuery.SortParam: a `sort` name other than `createdAt` and `regularPrice` gives the natural order. The store would sort by any field of that name, such as `name` or `bedrooms`; only the two keys the pages use are modelled.
- ListingQuery.OrderParam: the sort-value table is Mongoose 8's, which compares exactly. Mongoose 7 and earlier lower-case the value first and also accept the text "1" and "-1". Those versions are not modelled.
- SearchPage.Results: a batch is a list of listings. On a failed search, the endpoint answers with its error object (`success`, `statusCode`, `message`) instead. For a first batch, the page then turns "show more" off and keeps that object as its list. For a "show more" batch, the page leaves the flag as it was, and spreading the object throws, so the list is kept. Neither case is modelled.
- ListingQuery.SortDocs: ties are broken by insertion order (a stable sort). The store promises no order among listings with equal sort keys, and `getListings` adds no tie-break on `_id`. So two requests for consecutive pages may order ties differently and repeat or skip a listing at a tie on the page boundary; `SearchWithSkip` and `ShowMoreContinues` hold only under the model's fixed order.
- ListingQuery.SortDocs: sorting on fields other than `createdAt` and `regularPrice` is modelled as the natural order. Mongo's ordering of mixed or missing values is not modelled.
- AdminController.ListingsPage: a non-numeric paging value is modelled as a 500. Mongo's exact error for `NaN` is not modelled.
- Form number inputs are taken as already-converted integers. The pages' `+value` coercion and `NaN` comparisons are not modelled.
- Form and body keys the model does not name are ignored, not stored.
- React rendering, navigation, loading spinners and the edit page's `uploading` flag are not modelled.
- The sign-up, sign-in, OAuth and profile-editing handlers of the pages are not modelled, apart from the password-strength meter.
- The sign-up page's `formData` bookkeeping is not modelled.
- Concurrency: two requests never interleave. Lost updates between the edit page's load and save are the only race stated (`UpdateListingPage.SaveRestoresLoadedStatus`).
- The admin dashboard's `handleTabChange`, `fetchUsers` and users table are not modelled.
- The listing page's parking and furnished labels are not modelled.
- Dates: `createdAt` is an integer supplied by the caller, standing in for the clock.
- The image host (Cloudinary) is a function parameter from file to an optional URL; `None` is a rejected upload.
- UpdateListingPage.UploadImages: a host reply without `secure_url` resolves the upload with `undefined`, and the page appends that entry. The model takes every resolved upload to carry a URL, because image lists are lists of strings; a host answer of `None` stands for a rejected upload only.
- CreateListingPage.HandleImageSubmit: the same reply without `secure_url` is not modelled. Also, the create page's `.then` spreads the `formData` captured when the button was clicked (client/src/pages/CreateListing.jsx:64-67), so an edit or an image removal made while the batch uploads is undone; the edit page updates from the latest form (`prev =>`, client/src/pages/UpdateListing.jsx:77-80) and keeps it. The model takes one form for the whole batch, so it has no edits during the upload and does not tell the two pages apart there.
- ListingQuery.FlagParam: the value is quoted as it is. Node's inspection, which the message uses, escapes backslashes and control characters and changes the quoting of a value holding both kinds of quote; those values' messages are not modelled.
- Common.ParseInt: integers are exact. JavaScript numbers round above 2^53, and a very long digit run gives a rounded or infinite value; this is not modelled.
- ListingQuery.IntOr: the same rounding above 2^53 is not modelled.
- AdminController.NumberParam: the same rounding above 2^53 is not modelled.
- Common.LowerChar: only A-Z, U+00C0-U+00DE, U+0391-U+03A9 and U+0400-U+042F are lowered. Other capitals that `toLowerCase` lowers are kept as they are: Latin Extended (such as Ā U+0100, Ł U+0141, Ÿ U+0178), accented Greek (Ά U+0386, Έ-Ώ U+0388-U+038F, Ϊ and Ϋ U+03AA-U+03AB), Cyrillic beyond U+042F (Ѣ U+0462, Ґ U+0490), and every other script. Lowering is one character at a time, so the final sigma (Σ at the end of a word becomes ς) and characters whose lower case is longer (U+0130) are not modelled.
- AdminDashboardPage.SearchFilter: uses Common.LowerChar, so a name with one of the capitals listed on that line, or with a final sigma ("ΟΣ" against the term "ος"), is matched differently than in the page.
- ListingQuery.Matches: the `$regex` case-insensitive match uses Common.LowerChar too, with the same limits.
- ListingController.DeleteListing: ids are taken as well-formed. A malformed id makes `findById` throw a cast error, and here that lookup runs outside the `try` (api/controllers/listing.controller.js:31), so the rejection never reaches the error middleware.
- ListingController.UpdateListing: the same, with the lookup outside the `try` at api/controllers/listing.controller.js:50.
- ListingController.GetListing: a malformed id is a cast error answered with 500; ids are taken as well-formed.
- UserController.GetUser: a malformed id is a cast error answered with 500; ids are taken as well-formed.
- AdminController.UpdateListingApproval: a malformed id is a cast error answered with 500; ids are taken as well-formed.
- AdminController.AdminDeleteListing: a malformed id is a cast error answered with 500; ids are taken as well-formed.
- Query strings are maps from a name to one string. A repeated key (an array) and bracket syntax (`type[$ne]=sale`, an object) are not modelled.
- ListingQuery.UnfilteredSearch: stated only for stores of at most nine listings, the default page size. Beyond that it is bounded by the page.
- ListingQuery.ApprovalMakesVisible: stated only for stores of at most nine listings, for the same reason.
- The test route `test` in `user.controller.js` answers a constant and is not modelled.
