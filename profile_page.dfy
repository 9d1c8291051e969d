/** The listings tab of the profile page (client/src/pages/Profile.jsx): the
    status filter, the counts on its buttons, the status badge and the local
    list after a delete. */
module ProfilePage {
  import opened Common
  import opened ListingModel

  const All: string := "all"

  /** `filteredListings` for the selected filter. */
  function Filtered(listings: seq<Doc>, filter: string): (r: seq<Doc>)
    ensures filter == All ==> r == listings
    ensures filter != All ==> forall d :: d in r <==> d in listings && d.listing.approvalStatus == filter
  {
    if filter == All then listings else WithStatus(listings, Some(filter))
  }

  /** Filtering commutes with putting lists together, so it keeps the order of
      the listings it keeps. */
  lemma {:induction false} FilteredDistributes(a: seq<Doc>, b: seq<Doc>, filter: string)
    ensures Filtered(a + b, filter) == Filtered(a, filter) + Filtered(b, filter)
  {
    if filter != All {
      if a == [] {
        assert a + b == b;
      } else {
        assert (a + b)[0] == a[0];
        assert (a + b)[1..] == a[1..] + b;
        FilteredDistributes(a[1..], b, filter);
      }
    }
  }

  /** `getFilterCount`: the number on a filter button. */
  function FilterCount(listings: seq<Doc>, status: string): (n: nat)
    ensures n == |Filtered(listings, status)|
  {
    if status == All then |listings| else |WithStatus(listings, Some(status))|
  }

  /** When every listing carries one of the three statuses, the three status
      counts add up to the "all" count. */
  lemma {:induction false} StatusCountsAddUp(listings: seq<Doc>)
    requires forall d :: d in listings ==> IsStatus(d.listing.approvalStatus)
    ensures FilterCount(listings, Pending) + FilterCount(listings, Approved) + FilterCount(listings, Rejected)
            == FilterCount(listings, All)
  {
    if listings != [] {
      assert listings[0] in listings;
      StatusCountsAddUp(listings[1..]);
    }
  }

  // ---------------------------------------------------------------------------
  // The status badge.

  datatype Icon = CheckCircle | XCircle | Clock

  function StatusIcon(status: string): (icon: Icon)
    ensures icon == CheckCircle <==> status == Approved
    ensures icon == XCircle <==> status == Rejected
  {
    if status == Approved then CheckCircle
    else if status == Rejected then XCircle
    else Clock
  }

  function StatusColor(status: string): (color: string)
    ensures status == Approved ==> color == "bg-green-100 text-green-800 border-green-200"
    ensures status == Rejected ==> color == "bg-red-100 text-red-800 border-red-200"
    ensures status != Approved && status != Rejected ==> color == "bg-yellow-100 text-yellow-800 border-yellow-200"
  {
    if status == Approved then "bg-green-100 text-green-800 border-green-200"
    else if status == Rejected then "bg-red-100 text-red-800 border-red-200"
    else "bg-yellow-100 text-yellow-800 border-yellow-200"
  }

  /** A missing, empty or unknown status is shown exactly like a pending one,
      and the three statuses are told apart by both color and icon. */
  lemma UnknownShownAsPending(status: string)
    ensures !(status == Approved || status == Rejected) ==>
              StatusIcon(status) == StatusIcon(Pending) && StatusColor(status) == StatusColor(Pending)
    ensures StatusColor(Pending) != StatusColor(Approved) && StatusColor(Pending) != StatusColor(Rejected)
            && StatusColor(Approved) != StatusColor(Rejected)
  {
  }

  // ---------------------------------------------------------------------------
  // Deleting from the list.

  /** `handleListingDelete` once the server answers: on success exactly the
      listing with that id leaves the list; on failure the list stays. */
  function AfterDelete(listings: seq<Doc>, id: Id, succeeded: bool): (r: seq<Doc>)
    ensures !succeeded ==> r == listings
    ensures succeeded ==> forall d :: d in r <==> d in listings && d.id != id
    ensures |r| <= |listings|
  {
    if !succeeded || listings == [] then listings
    else (if listings[0].id != id then [listings[0]] else []) + AfterDelete(listings[1..], id, true)
  }

  /** Removal commutes with putting lists together, so the listings that stay
      keep their order. */
  lemma {:induction false} AfterDeleteDistributes(a: seq<Doc>, b: seq<Doc>, id: Id)
    ensures AfterDelete(a + b, id, true) == AfterDelete(a, id, true) + AfterDelete(b, id, true)
  {
    if a == [] {
      assert a + b == b;
    } else {
      assert (a + b)[0] == a[0];
      assert (a + b)[1..] == a[1..] + b;
      AfterDeleteDistributes(a[1..], b, id);
    }
  }
}
