/** The admin dashboard (client/src/pages/AdminDashboard.jsx): who may see it,
    which endpoint each tab reads, the request each listing action sends, the
    local search box and the approval toggle. */
module AdminDashboardPage {
  import opened Common
  import opened UserModel
  import opened ListingModel
  import ListingQuery
  import AdminController

  const ListingsEndpoint: string := "/api/admin/listings"

  /** What the page does on load. */
  datatype Access = ToSignIn | ToHome | FetchListings

  /** No signed-in user goes to sign-in, a non-admin to the home page; only an
      admin's session loads listings. */
  function OnLoad(currentUser: Option<PublicUser>): (a: Access)
    ensures a == FetchListings <==> currentUser.Some? && currentUser.value.isAdmin
    ensures a == ToSignIn <==> currentUser.None?
  {
    if currentUser.None? then ToSignIn
    else if !currentUser.value.isAdmin then ToHome
    else FetchListings
  }

  /** `fetchListings`: the three status tabs add `?status=<tab>`; any other tab
      reads the bare endpoint. */
  method TabEndpoint(tab: string) returns (endpoint: string)
    ensures IsStatus(tab) ==> endpoint == ListingsEndpoint + "?status=" + tab
    ensures !IsStatus(tab) ==> endpoint == ListingsEndpoint
  {
    endpoint := ListingsEndpoint;
    if tab == Pending {
      endpoint := endpoint + "?status=pending";
    } else if tab == Approved {
      endpoint := endpoint + "?status=approved";
    } else if tab == Rejected {
      endpoint := endpoint + "?status=rejected";
    }
  }

  /** The query a tab's endpoint carries. */
  function TabParams(tab: string): ListingQuery.Params {
    if IsStatus(tab) then map["status" := tab] else map[]
  }

  /** The server filters by exactly the tab's status, and lists every status
      for any other tab. */
  lemma TabSelectsItsStatus(tab: string)
    ensures AdminController.StatusFilter(ListingQuery.Get(TabParams(tab), "status")) ==
              if IsStatus(tab) then Some(tab) else None
  {
  }

  // ---------------------------------------------------------------------------
  // Listing actions.

  datatype Method = Put | Delete

  /** The JSON body of a PUT: `{approvalStatus}` or `{}`. */
  datatype ActionBody = ActionBody(approvalStatus: Option<string>)

  /** A request: method, endpoint and body (`None`: no body is sent). */
  datatype Request = Request(verb: Method, endpoint: string, body: Option<ActionBody>)

  /** `handleListingAction`: approve and reject PUT the new status to the
      approval endpoint, delete sends a DELETE without a body, and any other
      action PUTs an empty object to the listing's endpoint. */
  method ListingActionRequest(listingId: string, action: string) returns (req: Request)
    ensures action == "approve" ==>
              req == Request(Put, ListingsEndpoint + "/" + listingId + "/approval", Some(ActionBody(Some(Approved))))
    ensures action == "reject" ==>
              req == Request(Put, ListingsEndpoint + "/" + listingId + "/approval", Some(ActionBody(Some(Rejected))))
    ensures action == "delete" ==> req == Request(Delete, ListingsEndpoint + "/" + listingId, None)
    ensures action !in {"approve", "reject", "delete"} ==>
              req == Request(Put, ListingsEndpoint + "/" + listingId, Some(ActionBody(None)))
    ensures req.body.Some? && req.body.value.approvalStatus.Some? ==> IsStatus(req.body.value.approvalStatus.value)
  {
    var endpoint := ListingsEndpoint + "/" + listingId;
    var verb := Put;
    var body := ActionBody(None);
    if action == "approve" || action == "reject" {
      endpoint := endpoint + "/approval";
      body := ActionBody(Some(if action == "approve" then Approved else Rejected));
    } else if action == "delete" {
      verb := Delete;
    }
    req := Request(verb, endpoint, if verb == Delete then None else Some(body));
  }

  // ---------------------------------------------------------------------------
  // The search box.

  /** `filteredListings`: a listing stays when the lower-cased term occurs in
      its lower-cased name or description. */
  function SearchFilter(listings: seq<Doc>, term: string): (r: seq<Doc>)
    ensures forall d :: d in r <==> d in listings && (ContainsIgnoreCase(d.listing.content.name, term)
                                                     || ContainsIgnoreCase(d.listing.content.description, term))
  {
    if listings == [] then []
    else
      var c := listings[0].listing.content;
      (if ContainsIgnoreCase(c.name, term) || ContainsIgnoreCase(c.description, term) then [listings[0]] else [])
      + SearchFilter(listings[1..], term)
  }

  /** Filtering commutes with putting lists together, so the listings that stay
      keep their order and their number of occurrences. */
  lemma {:induction false} SearchFilterDistributes(a: seq<Doc>, b: seq<Doc>, term: string)
    ensures SearchFilter(a + b, term) == SearchFilter(a, term) + SearchFilter(b, term)
  {
    if a == [] {
      assert a + b == b;
    } else {
      assert (a + b)[0] == a[0];
      assert (a + b)[1..] == a[1..] + b;
      SearchFilterDistributes(a[1..], b, term);
    }
  }

  /** An empty search box shows every listing. */
  lemma {:induction false} EmptyTermKeepsAll(listings: seq<Doc>)
    ensures SearchFilter(listings, "") == listings
  {
    if listings != [] {
      EmptyIsContained(Lower(listings[0].listing.content.name));
      EmptyTermKeepsAll(listings[1..]);
    }
  }

  // ---------------------------------------------------------------------------
  // The approval toggle.

  /** How the settings request ended. */
  datatype Response = Succeeded | Refused(message: string) | Threw

  /** The page's flag after `handleApprovalToggle`, and the error it shows. It
      asks for the opposite of the current flag and flips it only when the
      request neither threw nor came back refused; a success does not clear an
      error already on the page. */
  function ToggleApproval(requireApproval: bool, error: Option<string>, response: Response): (r: (bool, Option<string>))
    ensures r.0 == (if response == Succeeded then !requireApproval else requireApproval)
    ensures response == Succeeded ==> r.1 == error
    ensures response.Refused? ==> r.1 == Some(response.message)
    ensures response == Threw ==> r.1 == Some("Failed to update approval settings")
  {
    match response
    case Succeeded => (!requireApproval, error)
    case Refused(message) => (requireApproval, Some(message))
    case Threw => (requireApproval, Some("Failed to update approval settings"))
  }

  /** Two successful toggles bring the flag back; a failed one leaves it. */
  lemma ToggleTwiceRestores(requireApproval: bool, error: Option<string>, response: Response)
    ensures var once := ToggleApproval(requireApproval, error, Succeeded);
            ToggleApproval(once.0, once.1, Succeeded) == (requireApproval, error)
    ensures response != Succeeded ==> ToggleApproval(requireApproval, error, response).0 == requireApproval
  {
  }
}
