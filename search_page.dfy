/** The search page (client/src/pages/Search.jsx): the sidebar state, how it
    is read from and written to the URL, the sort selector, the active-filter
    badge and the "show more" paging of results. */
module SearchPage {
  import opened Common
  import opened ListingModel
  import opened ListingQuery
  import opened Store

  /** The sidebar state. `sort` is `None` while the object carries no `sort`
      key: the initial and the cleared state only hold a `sort_order` key,
      which nothing reads. */
  datatype Sidebar = Sidebar(searchTerm: string, listingType: string,
                             parking: bool, furnished: bool, offer: bool,
                             sort: Option<string>, order: string)

  const Initial: Sidebar := Sidebar("", "all", false, false, false, None, "desc")

  /** A `URLSearchParams` value is truthy unless it is absent or empty. */
  predicate Truthy(v: Option<string>) {
    v.Some? && v.value != ""
  }

  /** Whether the page load takes the sidebar from the URL: any of the seven
      parameters is set. */
  predicate AnySet(url: Params) {
    || Truthy(Get(url, "searchTerm")) || Truthy(Get(url, "type")) || Truthy(Get(url, "parking"))
    || Truthy(Get(url, "furnished")) || Truthy(Get(url, "offer")) || Truthy(Get(url, "sort"))
    || Truthy(Get(url, "order"))
  }

  /** The effect of a page load on the sidebar: when any of the seven
      parameters is set, the sidebar is replaced by the URL's values;
      otherwise it is kept. */
  function FromUrl(current: Sidebar, url: Params): (s: Sidebar)
    ensures !AnySet(url) ==> s == current
    ensures AnySet(url) ==>
              && (s.parking <==> Get(url, "parking") == Some("true"))
              && (s.furnished <==> Get(url, "furnished") == Some("true"))
              && (s.offer <==> Get(url, "offer") == Some("true"))
              && (Truthy(Get(url, "searchTerm")) ==> s.searchTerm == Get(url, "searchTerm").value)
              && (!Truthy(Get(url, "searchTerm")) ==> s.searchTerm == "")
              && (Truthy(Get(url, "type")) ==> s.listingType == Get(url, "type").value)
              && (!Truthy(Get(url, "type")) ==> s.listingType == "all")
              && (Truthy(Get(url, "sort")) ==> s.sort == Get(url, "sort"))
              && (!Truthy(Get(url, "sort")) ==> s.sort == Some("created_at"))
              && (Truthy(Get(url, "order")) ==> s.order == Get(url, "order").value)
              && (!Truthy(Get(url, "order")) ==> s.order == "desc")
  {
    if AnySet(url) then
      Sidebar(OrDefault(Get(url, "searchTerm"), ""), OrDefault(Get(url, "type"), "all"),
              Get(url, "parking") == Some("true"), Get(url, "furnished") == Some("true"),
              Get(url, "offer") == Some("true"),
              Some(OrDefault(Get(url, "sort"), "created_at")), OrDefault(Get(url, "order"), "desc"))
    else current
  }

  // ---------------------------------------------------------------------------
  // The sort selector: `value.split('_')`.

  function IndexOf(s: string, c: char): (k: nat)
    requires c in s
    ensures k < |s| && s[k] == c && c !in s[..k]
  {
    if s[0] == c then 0
    else
      assert c in s[1..] by { var j :| 0 <= j < |s| && s[j] == c; assert s[1..][j - 1] == c; }
      var k := 1 + IndexOf(s[1..], c);
      assert s[..k] == [s[0]] + s[1..][..k - 1];
      k
  }

  /** JavaScript's `split` on a single character: the pieces between the
      separators, always at least one. */
  function Split(s: string, c: char): (parts: seq<string>)
    ensures |parts| >= 1
    ensures forall i :: 0 <= i < |parts| ==> c !in parts[i]
    decreases |s|
  {
    if c !in s then [s]
    else
      var k := IndexOf(s, c);
      [s[..k]] + Split(s[k + 1..], c)
  }

  function Join(parts: seq<string>, c: char): string
    requires |parts| >= 1
  {
    if |parts| == 1 then parts[0] else parts[0] + [c] + Join(parts[1..], c)
  }

  /** Splitting loses nothing: joining the pieces gives the value back. */
  lemma {:induction false} JoinSplit(s: string, c: char)
    ensures Join(Split(s, c), c) == s
    decreases |s|
  {
    if c in s {
      var k := IndexOf(s, c);
      var head, tail := s[..k], s[k + 1..];
      var pieces := Split(tail, c);
      assert Split(s, c) == [head] + pieces;
      assert ([head] + pieces)[1..] == pieces;
      JoinSplit(tail, c);
      assert s == head + [c] + tail;
    }
  }

  /** Pieces free of the separator are recovered from their join. */
  lemma {:induction false} SplitJoin(parts: seq<string>, c: char)
    requires |parts| >= 1
    requires forall i :: 0 <= i < |parts| ==> c !in parts[i]
    ensures Split(Join(parts, c), c) == parts
  {
    if |parts| > 1 {
      var tail := parts[1..];
      assert c !in parts[0];
      assert forall i :: 0 <= i < |tail| ==> c !in tail[i] by {
        forall i | 0 <= i < |tail| ensures c !in tail[i] { assert tail[i] == parts[i + 1]; }
      }
      SplitAfterFirst(parts[0], Join(tail, c), c);
      SplitJoin(tail, c);
      assert parts == [parts[0]] + tail;
    }
  }

  /** The first piece of a split ends at the first separator. */
  lemma SplitAfterFirst(head: string, rest: string, c: char)
    requires c !in head
    ensures Split(head + [c] + rest, c) == [head] + Split(rest, c)
  {
    var s := head + [c] + rest;
    IndexOfAfterPrefix(head, rest, c);
    assert s[..|head|] == head;
    assert s[|head| + 1..] == rest;
  }

  lemma {:induction false} IndexOfAfterPrefix(head: string, rest: string, c: char)
    requires c !in head
    ensures c in head + [c] + rest && IndexOf(head + [c] + rest, c) == |head|
  {
    var s := head + [c] + rest;
    assert s[|head|] == c;
    if head != [] {
      assert s[1..] == head[1..] + [c] + rest;
      IndexOfAfterPrefix(head[1..], rest, c);
    }
  }

  /** The (sort, order) pair chosen by a selector value: the first piece and
      the second, with `created_at` and `desc` standing in for missing or
      empty pieces. */
  function SortChoice(value: string): (string, string) {
    var parts := Split(value, '_');
    (OrDefault(Some(parts[0]), "created_at"),
     if |parts| > 1 then OrDefault(Some(parts[1]), "desc") else "desc")
  }

  /** A `field_order` value with two non-empty pieces yields exactly them. */
  lemma SortChoiceOfPair(field: string, order: string)
    requires field != "" && order != "" && '_' !in field && '_' !in order
    ensures SortChoice(field + "_" + order) == (field, order)
  {
    var parts := [field, order];
    assert Join(parts, '_') == field + "_" + order;
    SplitJoin(parts, '_');
  }

  /** The selector's options, as (field, order) pairs; each option's value is
      the two joined by an underscore. */
  const SortOptions: seq<(string, string)> :=
    [("regularPrice", "desc"), ("regularPrice", "asc"), ("createdAt", "desc"), ("createdAt", "asc")]

  function OptionValue(option: (string, string)): string {
    option.0 + "_" + option.1
  }

  /** Every option of the selector comes back as its own field and order, and
      both name a sort the search endpoint understands. */
  lemma SelectorOptionsUnderstood(i: nat)
    requires i < |SortOptions|
    ensures SortChoice(OptionValue(SortOptions[i])) == SortOptions[i]
    ensures SortParam(SortOptions[i].0) != NaturalOrder && OrderParam(SortOptions[i].1).Ok?
  {
    SortChoiceOfPair(SortOptions[i].0, SortOptions[i].1);
  }

  // ---------------------------------------------------------------------------
  // Edits.

  /** A change event: the element's id, its value and its checked state. */
  datatype Event = Event(id: string, value: string, checked: bool)

  /** `handleChange`. The ids the branches test are disjoint, so at most one
      branch applies; an unknown id changes nothing. */
  function HandleChange(s: Sidebar, e: Event): (r: Sidebar)
    ensures e.id in {"all", "rent", "sale"} ==> r == s.(listingType := e.id)
    ensures e.id == "searchTerm" ==> r == s.(searchTerm := e.value)
    ensures e.id == "parking" ==> r == s.(parking := e.checked)
    ensures e.id == "furnished" ==> r == s.(furnished := e.checked)
    ensures e.id == "offer" ==> r == s.(offer := e.checked)
    ensures e.id == "sort_order" ==> r == s.(sort := Some(SortChoice(e.value).0), order := SortChoice(e.value).1)
    ensures e.id !in {"all", "rent", "sale", "searchTerm", "parking", "furnished", "offer", "sort_order"} ==> r == s
  {
    if e.id == "all" || e.id == "rent" || e.id == "sale" then s.(listingType := e.id)
    else if e.id == "searchTerm" then s.(searchTerm := e.value)
    else if e.id == "parking" then s.(parking := e.checked)
    else if e.id == "furnished" then s.(furnished := e.checked)
    else if e.id == "offer" then s.(offer := e.checked)
    else if e.id == "sort_order" then
      var choice := SortChoice(e.value);
      s.(sort := Some(choice.0), order := choice.1)
    else s
  }

  /** `clearFilters`: the initial state again, `sort` key included in its absence. */
  function ClearFilters(s: Sidebar): (r: Sidebar)
    ensures r.searchTerm == "" && r.listingType == "all" && !r.parking && !r.furnished && !r.offer
    ensures r.sort.None? && r.order == "desc"
  {
    Initial
  }

  // ---------------------------------------------------------------------------
  // The active-filter badge.

  /** The five checks the badge counts, in the order they are tested. */
  function FilterChecks(s: Sidebar): seq<bool> {
    [s.searchTerm != "", s.listingType != "all", s.parking, s.furnished, s.offer]
  }

  function ActiveFilters(s: Sidebar): nat {
    CountTrue(FilterChecks(s))
  }

  /** `getActiveFiltersCount`: one increment per active filter. */
  method ActiveFiltersCount(s: Sidebar) returns (count: nat)
    ensures count == ActiveFilters(s)
    ensures count <= 5
  {
    count := 0;
    if s.searchTerm != "" { count := count + 1; }
    if s.listingType != "all" { count := count + 1; }
    if s.parking { count := count + 1; }
    if s.furnished { count := count + 1; }
    if s.offer { count := count + 1; }
    CountTrueFive(FilterChecks(s));
  }

  /** The badge shows nothing exactly when the sidebar is in its cleared state
      as far as filters go. */
  lemma NoActiveFilterIff(s: Sidebar)
    ensures ActiveFilters(s) == 0 <==>
              s.searchTerm == "" && s.listingType == "all" && !s.parking && !s.furnished && !s.offer
  {
    var checks := FilterChecks(s);
    CountTrueBounds(checks);
    assert checks[0] == (s.searchTerm != "") && checks[1] == (s.listingType != "all");
    assert checks[2] == s.parking && checks[3] == s.furnished && checks[4] == s.offer;
  }

  /** After "Clear All" no filter is active. */
  lemma ClearedHasNoActiveFilter(s: Sidebar)
    ensures ActiveFilters(ClearFilters(s)) == 0
  {
    CountTrueBounds(FilterChecks(ClearFilters(s)));
  }

  // ---------------------------------------------------------------------------
  // Submitting: the seven keys are always written; booleans as 'true'/'false',
  // an absent sort as the string 'undefined'.

  function BoolText(b: bool): string {
    if b then "true" else "false"
  }

  function SortText(sort: Option<string>): string {
    if sort.Some? then sort.value else "undefined"
  }

  function SubmitParams(s: Sidebar): (p: Params)
    ensures forall k :: k in p <==> k in {"searchTerm", "type", "parking", "furnished", "offer", "sort", "order"}
    ensures Get(p, "searchTerm") == Some(s.searchTerm) && Get(p, "type") == Some(s.listingType)
    ensures Get(p, "parking") == Some(BoolText(s.parking)) && Get(p, "furnished") == Some(BoolText(s.furnished))
    ensures Get(p, "offer") == Some(BoolText(s.offer))
    ensures Get(p, "sort") == Some(SortText(s.sort)) && Get(p, "order") == Some(s.order)
  {
    map["searchTerm" := s.searchTerm, "type" := s.listingType, "parking" := BoolText(s.parking),
        "furnished" := BoolText(s.furnished), "offer" := BoolText(s.offer),
        "sort" := SortText(s.sort), "order" := s.order]
  }

  /** Submitting and reloading gives the same sidebar back, provided the type,
      sort and order are non-empty; a sidebar without a sort key comes back
      with the literal sort 'undefined'. */
  lemma SubmitThenLoad(current: Sidebar, s: Sidebar)
    requires s.listingType != "" && s.order != ""
    requires s.sort.Some? ==> s.sort.value != ""
    ensures FromUrl(current, SubmitParams(s)) == s.(sort := Some(SortText(s.sort)))
  {
    var p := SubmitParams(s);
    assert Truthy(Get(p, "type"));
  }

  /** What the search endpoint makes of a submitted sidebar: an unchecked box
      imposes nothing, a checked one requires the feature, and a sidebar that
      never chose a sort is served in natural order. */
  lemma SubmittedQuery(s: Sidebar, env: Env)
    requires OrderParam(OrDefault(Some(s.order), "desc")).Ok?
    ensures var q := BuildQuery(SubmitParams(s), env);
            && q.Ok?
            && q.value.parking == (if s.parking then Only(true) else AnyFlag)
            && q.value.furnished == (if s.furnished then Only(true) else AnyFlag)
            && q.value.offer == (if s.offer then Only(true) else AnyFlag)
            && (s.sort.None? ==> q.value.sortField == NaturalOrder)
            && q.value.skip == 0 && q.value.limit == 9
  {
    var p := SubmitParams(s);
    assert Get(p, "startIndex").None? && Get(p, "limit").None?;
    assert FlagParam("parking", Get(p, "parking")) == Ok(if s.parking then Only(true) else AnyFlag);
    assert FlagParam("furnished", Get(p, "furnished")) == Ok(if s.furnished then Only(true) else AnyFlag);
    assert FlagParam("offer", Get(p, "offer")) == Ok(if s.offer then Only(true) else AnyFlag);
    assert s.sort.None? ==> OrDefault(Get(p, "sort"), "createdAt") == "undefined";
  }

  // ---------------------------------------------------------------------------
  // The result list and its "show more" button.

  /** The next request of "show more": the current URL with `startIndex` set to
      the number of listings shown. */
  function ShowMoreRequest(url: Params, shown: nat): (p: Params)
    ensures forall k :: k != "startIndex" ==> Get(p, k) == Get(url, k)
    ensures ParseInt(Get(p, "startIndex")) == Some(shown as int)
  {
    ParseIntRoundTrip(shown);
    url["startIndex" := IntToString(shown)]
  }

  /** The endpoint skips exactly the listings already shown. */
  lemma ShowMoreSkipsShown(url: Params, shown: nat, env: Env)
    requires BuildQuery(ShowMoreRequest(url, shown), env).Ok?
    ensures BuildQuery(ShowMoreRequest(url, shown), env).value.skip == shown
  {
  }

  /** "Show more" continues a first search: the request with `startIndex` set
      to the number of listings shown succeeds and returns the listings that
      follow them in the same order, so the two responses together are the
      matching listings from the front, as many as the first response plus one
      more page. */
  lemma ShowMoreContinues(listings: map<Id, Listing>, n: nat, url: Params, env: Env)
    requires Search(listings, n, url, env).Ok?
    requires BuildQuery(url, env).value.skip == 0
    ensures var q := BuildQuery(url, env).value;
            var first := Search(listings, n, url, env).value;
            var second := Search(listings, n, ShowMoreRequest(url, |first|), env);
            && second.Ok?
            && first + second.value
                 == Page(SortDocs(q.sortField, q.direction, Select(q, ListingDocs(listings, n))),
                         0, |first| + BoundOf(q.limit))
  {
    var q := BuildQuery(url, env).value;
    var first := Search(listings, n, url, env).value;
    ShowMoreQuery(url, |first|, env);
    SearchWithSkip(listings, n, url, ShowMoreRequest(url, |first|), env, |first|);
    PageContinues(SortDocs(q.sortField, q.direction, Select(q, ListingDocs(listings, n))), q.limit);
  }

  /** The "show more" request builds the same query with only the skip changed. */
  lemma ShowMoreQuery(url: Params, shown: nat, env: Env)
    requires BuildQuery(url, env).Ok?
    ensures BuildQuery(ShowMoreRequest(url, shown), env) == Ok(BuildQuery(url, env).value.(skip := shown))
  {
    var p := ShowMoreRequest(url, shown);
    assert Get(p, "offer") == Get(url, "offer") && Get(p, "furnished") == Get(url, "furnished");
    assert Get(p, "parking") == Get(url, "parking") && Get(p, "order") == Get(url, "order");
    assert Get(p, "sort") == Get(url, "sort") && Get(p, "type") == Get(url, "type");
    assert Get(p, "searchTerm") == Get(url, "searchTerm") && Get(p, "isAdmin") == Get(url, "isAdmin");
    assert Get(p, "limit") == Get(url, "limit");
  }

  class Results {
    var listings: seq<Doc>
    var showMore: bool

    constructor ()
      ensures listings == [] && !showMore
    {
      listings := [];
      showMore := false;
    }

    /** A page load: the button shows iff the batch has more than 8 listings. */
    method OnFirstBatch(data: seq<Doc>)
      modifies this
      ensures listings == data
      ensures showMore <==> |data| > 8
    {
      showMore := false;
      if |data| > 8 {
        showMore := true;
      } else {
        showMore := false;
      }
      listings := data;
    }

    /** `onShowMoreClick` once its batch arrives: the batch goes after the
        listings already shown, and a short batch hides the button. */
    method OnShowMoreBatch(data: seq<Doc>)
      modifies this
      ensures listings == old(listings) + data
      ensures showMore == (old(showMore) && |data| >= 9)
    {
      if |data| < 9 {
        showMore := false;
      }
      listings := listings + data;
    }
  }
}
