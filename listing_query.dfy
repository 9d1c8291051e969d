/** The public search (`getListings`, api/controllers/listing.controller.js):
    translating query-string parameters into a store filter, matching,
    ordering and paging. The `searchTerm` is matched as a literal,
    case-insensitive substring of the name. */
module ListingQuery {
  import opened Common
  import opened ListingModel
  import opened Store

  /** A query string whose every parameter occurs once, as a plain string:
      parameter name to its value. */
  type Params = map<string, string>

  function Get(params: Params, key: string): Option<string> {
    if key in params then Some(params[key]) else None
  }

  /** The constraint on one boolean field. */
  datatype FlagFilter = AnyFlag | Only(value: bool)

  /** The constraint on `type`: `{$in: ['sale', 'rent']}` or one exact value. */
  datatype TypeFilter = SaleOrRent | Exactly(value: string)

  datatype SortField = CreatedAt | RegularPrice | NaturalOrder
  datatype Direction = Ascending | Descending

  datatype Query = Query(
    searchTerm: string,
    offer: FlagFilter, furnished: FlagFilter, parking: FlagFilter,
    listingType: TypeFilter,
    approvedOnly: bool,
    sortField: SortField, direction: Direction,
    skip: int, limit: int)

  /** An offer/furnished/parking parameter named `path`. Absent or `'false'`
      imposes nothing; any other value is cast to a boolean the way the document
      mapper casts (`'true'`, `'1'`, `'yes'` and `'0'`, `'no'`); anything else
      is a cast error naming the value, the path and the model. */
  function FlagParam(path: string, v: Option<string>): (r: Result<FlagFilter>)
    ensures r == Ok(AnyFlag) <==> v.None? || v.value == "false"
    ensures r == Ok(Only(true)) <==> v.Some? && (v.value == "true" || v.value == "1" || v.value == "yes")
    ensures r == Ok(Only(false)) <==> v.Some? && (v.value == "0" || v.value == "no")
    ensures r.Err? ==> v.Some? && r.error == HttpError(500, BooleanCastError(path, v.value))
  {
    if v.None? || v.value == "false" then Ok(AnyFlag)
    else if v.value == "true" || v.value == "1" || v.value == "yes" then Ok(Only(true))
    else if v.value == "0" || v.value == "no" then Ok(Only(false))
    else Err(HttpError(500, BooleanCastError(path, v.value)))
  }

  /** The message of the cast error for a query-string value at a boolean path
      of the listing model. */
  function BooleanCastError(path: string, value: string): string {
    "Cast to Boolean failed for value \"" + value + "\" (type string) at path \"" + path
    + "\" for model \"Listing\""
  }

  /** `type`: absent or `'all'` admits both sale and rent. */
  function TypeParam(v: Option<string>): TypeFilter {
    if v.None? || v.value == "all" then SaleOrRent else Exactly(v.value)
  }

  /** `parseInt(v) || d`: NaN and zero both fall back to the default. */
  function IntOr(v: Option<string>, d: int): (r: int)
    ensures ParseInt(v).Some? && ParseInt(v).value != 0 ==> r == ParseInt(v).value
    ensures (ParseInt(v).None? || ParseInt(v) == Some(0)) ==> r == d
  {
    var n := ParseInt(v);
    if n.None? || n.value == 0 then d else n.value
  }

  /** `?limit=0x10` asks for sixteen listings. */
  lemma HexLimitExample()
    ensures IntOr(Some("0x10"), 9) == 16
  {
    var s := "0x10";
    ParseUnsignedText(s);
    assert HexPrefixed(s) && s[2..] == "10";
    assert LeadingDigits("0", 16) == "0" by { assert "0"[1..] == []; }
    assert LeadingDigits("10", 16) == "10" by { assert "10"[1..] == "0"; }
    assert DigitsValue("1", 16) == 1 by { assert "1"[..0] == []; }
    assert DigitsValue("10", 16) == 16 by { assert "10"[..1] == "1"; }
  }

  /** `sort`: the two keys the store can order by; any other name orders by a
      field no listing has, which leaves the natural order. */
  function SortParam(v: string): (f: SortField)
    ensures f == CreatedAt <==> v == "createdAt"
    ensures f == RegularPrice <==> v == "regularPrice"
  {
    if v == "createdAt" then CreatedAt
    else if v == "regularPrice" then RegularPrice
    else NaturalOrder
  }

  /** `order`: the direction names Mongoose 8 accepts as a sort value. They are
      compared exactly, so case matters, and the numbers 1 and -1 are accepted
      only as numbers, never as the query-string text "1" or "-1". */
  function OrderParam(v: string): (r: Result<Direction>)
    ensures r == Ok(Ascending) <==> v == "asc" || v == "ascending"
    ensures r == Ok(Descending) <==> v == "desc" || v == "descending"
    ensures r.Err? ==> r.error.status == 500
  {
    if v == "asc" || v == "ascending" then Ok(Ascending)
    else if v == "desc" || v == "descending" then Ok(Descending)
    else Err(HttpError(500, "Invalid sort value"))
  }

  /** Upper-case names and numeric text are refused. */
  lemma OrderTextExamples()
    ensures OrderParam("DESC").Err? && OrderParam("Asc").Err?
    ensures OrderParam("1").Err? && OrderParam("-1").Err?
  {
  }

  /** The message of the `TypeError` that `sort` throws for a bad value. */
  function SortValueError(key: string, value: string): string {
    "Invalid sort value: { " + key + ": " + value + " }"
  }

  /** The query `getListings` builds. The approval clause is added only when the
      query string does not say `isAdmin=true` and approval is required. The sort
      value is checked when `sort` is called, before the filter is cast when the
      query runs, so a bad order is reported ahead of a bad flag. */
  function BuildQuery(params: Params, env: Env): (r: Result<Query>)
    ensures r.Ok? <==> && FlagParam("offer", Get(params, "offer")).Ok? && FlagParam("furnished", Get(params, "furnished")).Ok?
                       && FlagParam("parking", Get(params, "parking")).Ok?
                       && OrderParam(OrDefault(Get(params, "order"), "desc")).Ok?
    ensures r.Err? ==> r.error.status == 500
    ensures OrderParam(OrDefault(Get(params, "order"), "desc")).Err? ==>
              r == Err(HttpError(500, SortValueError(OrDefault(Get(params, "sort"), "createdAt"),
                                                     OrDefault(Get(params, "order"), "desc"))))
    ensures OrderParam(OrDefault(Get(params, "order"), "desc")).Ok? ==>
              var offer := FlagParam("offer", Get(params, "offer"));
              var furnished := FlagParam("furnished", Get(params, "furnished"));
              var parking := FlagParam("parking", Get(params, "parking"));
              && (offer.Err? ==> r == Err(offer.error))
              && (offer.Ok? && furnished.Err? ==> r == Err(furnished.error))
              && (offer.Ok? && furnished.Ok? && parking.Err? ==> r == Err(parking.error))
    ensures r.Ok? ==> && r.value.sortField == SortParam(OrDefault(Get(params, "sort"), "createdAt"))
                      && Ok(r.value.direction) == OrderParam(OrDefault(Get(params, "order"), "desc"))
    ensures r.Ok? ==> && r.value.skip == IntOr(Get(params, "startIndex"), 0)
                      && r.value.limit == IntOr(Get(params, "limit"), 9)
    ensures r.Ok? ==> (r.value.approvedOnly <==> Get(params, "isAdmin") != Some("true") && RequiresApproval(env))
    ensures r.Ok? ==> r.value.limit != 0 && r.value.listingType == TypeParam(Get(params, "type"))
    ensures r.Ok? ==> r.value.searchTerm == OrDefault(Get(params, "searchTerm"), "")
    ensures r.Ok? ==> Ok(r.value.offer) == FlagParam("offer", Get(params, "offer"))
                      && Ok(r.value.furnished) == FlagParam("furnished", Get(params, "furnished"))
                      && Ok(r.value.parking) == FlagParam("parking", Get(params, "parking"))
  {
    var offer := FlagParam("offer", Get(params, "offer"));
    var furnished := FlagParam("furnished", Get(params, "furnished"));
    var parking := FlagParam("parking", Get(params, "parking"));
    var direction := OrderParam(OrDefault(Get(params, "order"), "desc"));
    if direction.Err? then
      Err(HttpError(500, SortValueError(OrDefault(Get(params, "sort"), "createdAt"),
                                        OrDefault(Get(params, "order"), "desc"))))
    else if offer.Err? then Err(offer.error)
    else if furnished.Err? then Err(furnished.error)
    else if parking.Err? then Err(parking.error)
    else
      Ok(Query(
        OrDefault(Get(params, "searchTerm"), ""),
        offer.value, furnished.value, parking.value,
        TypeParam(Get(params, "type")),
        Get(params, "isAdmin") != Some("true") && RequiresApproval(env),
        SortParam(OrDefault(Get(params, "sort"), "createdAt")), direction.value,
        IntOr(Get(params, "startIndex"), 0), IntOr(Get(params, "limit"), 9)))
  }

  predicate FlagMatches(f: FlagFilter, b: bool) {
    f.AnyFlag? || f.value == b
  }

  predicate TypeMatches(f: TypeFilter, t: string) {
    match f
    case SaleOrRent => t == "sale" || t == "rent"
    case Exactly(v) => t == v
  }

  predicate Matches(q: Query, l: Listing) {
    && ContainsIgnoreCase(l.content.name, q.searchTerm)
    && FlagMatches(q.offer, l.content.offer)
    && FlagMatches(q.furnished, l.content.furnished)
    && FlagMatches(q.parking, l.content.parking)
    && TypeMatches(q.listingType, l.content.listingType)
    && (q.approvedOnly ==> l.approvalStatus == Approved)
  }

  function Select(q: Query, docs: seq<Doc>): (r: seq<Doc>)
    ensures forall d :: d in r <==> d in docs && Matches(q, d.listing)
    ensures |r| <= |docs|
  {
    if docs == [] then []
    else (if Matches(q, docs[0].listing) then [docs[0]] else []) + Select(q, docs[1..])
  }

  // ---------------------------------------------------------------------------
  // Ordering: a stable insertion sort on the chosen key (documents that tie keep
  // their natural order).

  function Key(f: SortField, l: Listing): int {
    match f
    case CreatedAt => l.createdAt
    case RegularPrice => l.content.regularPrice
    case NaturalOrder => 0
  }

  /** `a` belongs strictly before `b`. */
  predicate Ahead(f: SortField, dir: Direction, a: Listing, b: Listing) {
    if dir == Descending then Key(f, a) > Key(f, b) else Key(f, a) < Key(f, b)
  }

  ghost predicate Ordered(f: SortField, dir: Direction, s: seq<Doc>) {
    forall i, j :: 0 <= i < j < |s| ==> !Ahead(f, dir, s[j].listing, s[i].listing)
  }

  function Insert(f: SortField, dir: Direction, d: Doc, s: seq<Doc>): (r: seq<Doc>)
    ensures multiset(r) == multiset(s) + multiset{d}
  {
    if s == [] || !Ahead(f, dir, s[0].listing, d.listing) then [d] + s
    else
      assert s == [s[0]] + s[1..];
      [s[0]] + Insert(f, dir, d, s[1..])
  }

  function SortDocs(f: SortField, dir: Direction, s: seq<Doc>): (r: seq<Doc>)
    ensures multiset(r) == multiset(s)
  {
    if s == [] then []
    else
      assert s == [s[0]] + s[1..];
      Insert(f, dir, s[0], SortDocs(f, dir, s[1..]))
  }

  /** A document that none of an ordered sequence belongs before can lead it. */
  lemma PrependOrdered(f: SortField, dir: Direction, x: Doc, r: seq<Doc>)
    requires Ordered(f, dir, r)
    requires forall y :: y in r ==> !Ahead(f, dir, y.listing, x.listing)
    ensures Ordered(f, dir, [x] + r)
  {
    var full := [x] + r;
    forall i, j | 0 <= i < j < |full| ensures !Ahead(f, dir, full[j].listing, full[i].listing) {
      assert full[j] == r[j - 1];
      if i > 0 {
        assert full[i] == r[i - 1];
      }
    }
  }

  lemma {:induction false} InsertOrdered(f: SortField, dir: Direction, d: Doc, s: seq<Doc>)
    requires Ordered(f, dir, s)
    ensures Ordered(f, dir, Insert(f, dir, d, s))
  {
    if s == [] || !Ahead(f, dir, s[0].listing, d.listing) {
      forall y | y in s ensures !Ahead(f, dir, y.listing, d.listing) {
        var k :| 0 <= k < |s| && s[k] == y;
        if k > 0 {
          assert !Ahead(f, dir, s[k].listing, s[0].listing);
        }
      }
      PrependOrdered(f, dir, d, s);
    } else {
      var tail := s[1..];
      assert Ordered(f, dir, tail);
      InsertOrdered(f, dir, d, tail);
      var r := Insert(f, dir, d, tail);
      forall y | y in r ensures !Ahead(f, dir, y.listing, s[0].listing) {
        assert y in multiset(r);
        if y != d {
          assert y in multiset(tail);
          var k :| 0 <= k < |tail| && tail[k] == y;
          assert s[k + 1] == y;
        }
      }
      PrependOrdered(f, dir, s[0], r);
    }
  }

  /** The sorted result is ordered by the key and is a permutation of its input. */
  lemma {:induction false} SortDocsOrdered(f: SortField, dir: Direction, s: seq<Doc>)
    ensures Ordered(f, dir, SortDocs(f, dir, s))
    ensures multiset(SortDocs(f, dir, s)) == multiset(s)
  {
    if s != [] {
      SortDocsOrdered(f, dir, s[1..]);
      InsertOrdered(f, dir, s[0], SortDocs(f, dir, s[1..]));
    }
  }

  /** With no sort key every document ties, so the natural order is kept. */
  lemma {:induction false} NaturalOrderKeepsOrder(dir: Direction, s: seq<Doc>)
    ensures SortDocs(NaturalOrder, dir, s) == s
  {
    if s != [] {
      NaturalOrderKeepsOrder(dir, s[1..]);
    }
  }

  // ---------------------------------------------------------------------------
  // Paging: the store applies `skip` before `limit` whatever the call order;
  // a limit of 0 means no limit and a negative limit is taken by its size.

  /** How many of `total` documents a page holds: those left after the skip,
      cut to the size of the limit unless that is 0. */
  function WindowSize(total: nat, skip: nat, limit: int): (k: nat)
    ensures k <= total && (skip >= total ==> k == 0)
    ensures limit != 0 ==> k <= BoundOf(limit)
    ensures skip <= total && (limit == 0 || total - skip <= BoundOf(limit)) ==> k == total - skip
    ensures limit != 0 && skip + BoundOf(limit) <= total ==> k == BoundOf(limit)
  {
    var left := if skip <= total then total - skip else 0;
    if limit == 0 || BoundOf(limit) >= left then left else BoundOf(limit)
  }

  /** The page is the run of consecutive documents starting at `skip`. */
  function Page<T>(s: seq<T>, skip: nat, limit: int): (r: seq<T>)
    ensures |r| <= |s| && |r| <= (if limit < 0 then -limit else if limit == 0 then |s| else limit)
    ensures |r| == WindowSize(|s|, skip, limit)
    ensures forall i :: 0 <= i < |r| ==> skip + i < |s| && r[i] == s[skip + i]
    ensures forall x :: x in r ==> x in s
  {
    var rest := if skip <= |s| then s[skip..] else [];
    var size := if limit < 0 then -limit else limit;
    if size == 0 || size >= |rest| then rest else rest[..size]
  }

  /** A page of an ordered sequence is ordered. */
  lemma PageOrdered(f: SortField, dir: Direction, s: seq<Doc>, skip: nat, limit: int)
    requires Ordered(f, dir, s)
    ensures Ordered(f, dir, Page(s, skip, limit))
  {
    var r := Page(s, skip, limit);
    forall i, j | 0 <= i < j < |r| ensures !Ahead(f, dir, r[j].listing, r[i].listing) {
      assert r[i] == s[skip + i] && r[j] == s[skip + j];
    }
  }

  /** A page that starts at the front and holds as many documents as there are
      is the whole sequence. */
  lemma WholePage<T>(s: seq<T>, limit: int)
    requires WindowSize(|s|, 0, limit) == |s|
    ensures Page(s, 0, limit) == s
  {
    var r := Page(s, 0, limit);
    assert forall i :: 0 <= i < |r| ==> r[i] == s[i];
  }

  /** Two consecutive pages are the page of their combined size. */
  lemma PageConcat<T>(s: seq<T>, skip: nat, n: nat, m: nat)
    requires n > 0 && m > 0 && skip + n <= |s|
    ensures Page(s, skip, n) + Page(s, skip + n, m) == Page(s, skip, n + m)
  {
    var rest := s[skip..];
    assert s[skip + n..] == rest[n..];
    if n + m < |rest| {
      assert rest[..n] + rest[n..][..m] == rest[..n + m];
    } else {
      assert rest[..n] + rest[n..] == rest;
    }
  }

  /** Asking again from where a first page from the front ended gives the
      documents that follow it: both pages together are the window from the
      front as long as the first page plus one more page. */
  lemma PageContinues<T>(s: seq<T>, limit: int)
    requires limit != 0
    ensures var first := Page(s, 0, limit);
            first + Page(s, |first|, limit) == Page(s, 0, |first| + BoundOf(limit))
  {
    var first := Page(s, 0, limit);
    var second := Page(s, |first|, limit);
    var whole := Page(s, 0, |first| + BoundOf(limit));
    if |s| <= BoundOf(limit) {
      assert |first| == |s| && |second| == 0;
    } else {
      assert |first| == BoundOf(limit);
    }
    assert |first + second| == |whole|;
    forall i | 0 <= i < |whole| ensures (first + second)[i] == whole[i] {
      if i >= |first| {
        assert second[i - |first|] == s[i];
      }
    }
  }

  /** The filter does not depend on the paging values. */
  lemma {:induction false} SelectIgnoresPaging(q: Query, skip: int, docs: seq<Doc>)
    ensures Select(q.(skip := skip), docs) == Select(q, docs)
  {
    if docs != [] {
      SelectIgnoresPaging(q, skip, docs[1..]);
    }
  }

  /** Two query strings that build the same query up to the skip find the same
      sorted matches; the second answers the window at its own skip. */
  lemma SearchWithSkip(listings: map<Id, Listing>, n: nat, params: Params, other: Params, env: Env, skip: nat)
    requires BuildQuery(params, env).Ok?
    requires BuildQuery(other, env) == Ok(BuildQuery(params, env).value.(skip := skip))
    ensures var q := BuildQuery(params, env).value;
            Search(listings, n, other, env)
              == Ok(Page(SortDocs(q.sortField, q.direction, Select(q, ListingDocs(listings, n))), skip, q.limit))
  {
    var q := BuildQuery(params, env).value;
    SelectIgnoresPaging(q, skip, ListingDocs(listings, n));
  }

  /** The full search over a store snapshot. */
  function Search(listings: map<Id, Listing>, n: nat, params: Params, env: Env): (r: Result<seq<Doc>>)
    ensures r.Ok? <==> BuildQuery(params, env).Ok? && BuildQuery(params, env).value.skip >= 0
    ensures r.Err? ==> r.error.status == 500
    ensures r.Ok? ==> forall d :: d in r.value ==>
                        (d.id in listings && listings[d.id] == d.listing
                         && Matches(BuildQuery(params, env).value, d.listing))
    ensures r.Ok? ==> |r.value| <= BoundOf(BuildQuery(params, env).value.limit)
    ensures r.Ok? ==> var q := BuildQuery(params, env).value;
                      && Ordered(q.sortField, q.direction, r.value)
                      && |r.value| == WindowSize(|Select(q, ListingDocs(listings, n))|, q.skip, q.limit)
    ensures r.Ok? ==> var q := BuildQuery(params, env).value;
                      q.skip == 0 && WindowSize(|Select(q, ListingDocs(listings, n))|, 0, q.limit)
                                     == |Select(q, ListingDocs(listings, n))|
                      ==> forall id :: id < n && id in listings && Matches(q, listings[id])
                                       ==> Doc(id, listings[id]) in r.value
    ensures r.Ok? ==> var q := BuildQuery(params, env).value;
                      r.value == Page(SortDocs(q.sortField, q.direction, Select(q, ListingDocs(listings, n))),
                                      q.skip, q.limit)
  {
    var q := BuildQuery(params, env);
    if q.Err? then Err(q.error)
    else if q.value.skip < 0 then Err(HttpError(500, "skip value must be non-negative"))
    else
      var matched := Select(q.value, ListingDocs(listings, n));
      var sorted := SortDocs(q.value.sortField, q.value.direction, matched);
      SortedFromMatched(matched, sorted);
      SortDocsOrdered(q.value.sortField, q.value.direction, matched);
      PageOrdered(q.value.sortField, q.value.direction, sorted, q.value.skip, q.value.limit);
      if q.value.skip == 0 && WindowSize(|matched|, 0, q.value.limit) == |matched| then
        WholePage(sorted, q.value.limit);
        AllMatchedSorted(matched, sorted);
        Ok(Page(sorted, q.value.skip, q.value.limit))
      else
        Ok(Page(sorted, q.value.skip, q.value.limit))
  }

  /** Sorting loses no document. */
  lemma AllMatchedSorted(matched: seq<Doc>, sorted: seq<Doc>)
    requires multiset(sorted) == multiset(matched)
    ensures forall d :: d in matched ==> d in sorted
  {
    forall d | d in matched ensures d in sorted {
      assert d in multiset(matched);
    }
  }

  /** How many documents a page of that limit may hold at most. */
  function BoundOf(limit: int): nat {
    if limit < 0 then -limit else limit
  }

  lemma SortedFromMatched(matched: seq<Doc>, sorted: seq<Doc>)
    requires multiset(sorted) == multiset(matched)
    ensures forall d :: d in sorted ==> d in matched
  {
    forall d | d in sorted ensures d in matched {
      assert d in multiset(sorted);
    }
  }

  // ---------------------------------------------------------------------------
  // What the approval gate shows.

  /** With approval required, a search that does not claim `isAdmin=true`
      returns approved listings only, whatever its other parameters. */
  lemma NonAdminSeesOnlyApproved(listings: map<Id, Listing>, n: nat, params: Params, env: Env)
    requires RequiresApproval(env) && Get(params, "isAdmin") != Some("true")
    ensures var r := Search(listings, n, params, env);
            r.Ok? ==> forall d :: d in r.value ==> d.listing.approvalStatus == Approved
  {
  }

  /** The query string of a search with no filter, with or without the
      `isAdmin=true` claim. */
  function PlainParams(admin: bool): Params {
    if admin then map["isAdmin" := "true"] else map[]
  }

  /** The query such a search builds: no constraint but the type and the
      approval gate, newest first, the first nine. */
  lemma PlainQuery(admin: bool, env: Env)
    ensures BuildQuery(PlainParams(admin), env) ==
              Ok(Query("", AnyFlag, AnyFlag, AnyFlag, SaleOrRent, !admin && RequiresApproval(env),
                       CreatedAt, Descending, 0, 9))
  {
    var params := PlainParams(admin);
    assert Get(params, "startIndex").None? && Get(params, "limit").None?;
    assert Get(params, "sort").None? && Get(params, "order").None?;
  }

  /** Under that query a listing matches exactly when it is for sale or rent
      and passes the approval gate. */
  lemma PlainMatches(approvedOnly: bool, l: Listing)
    ensures Matches(Query("", AnyFlag, AnyFlag, AnyFlag, SaleOrRent, approvedOnly, CreatedAt, Descending, 0, 9), l)
            <==> (l.content.listingType == "sale" || l.content.listingType == "rent")
                 && (approvedOnly ==> l.approvalStatus == Approved)
  {
    EmptyIsContained(Lower(l.content.name));
    assert Lower("") == "";
  }

  /** A search with no filter over a store small enough for one page returns
      exactly the sale and rent listings the approval gate lets through: all
      of them for a caller claiming `isAdmin=true`, the approved ones for any
      other caller when approval is required. */
  lemma UnfilteredSearch(listings: map<Id, Listing>, n: nat, admin: bool, env: Env)
    requires |ListingDocs(listings, n)| <= 9
    ensures var r := Search(listings, n, PlainParams(admin), env);
            && r.Ok?
            && forall d :: d in r.value <==>
                 && d in ListingDocs(listings, n)
                 && (d.listing.content.listingType == "sale" || d.listing.content.listingType == "rent")
                 && (!admin && RequiresApproval(env) ==> d.listing.approvalStatus == Approved)
  {
    PlainQuery(admin, env);
    var q := Query("", AnyFlag, AnyFlag, AnyFlag, SaleOrRent, !admin && RequiresApproval(env), CreatedAt, Descending, 0, 9);
    var docs := ListingDocs(listings, n);
    var matched := Select(q, docs);
    var sorted := SortDocs(CreatedAt, Descending, matched);
    assert |sorted| == |matched| by { assert |multiset(sorted)| == |multiset(matched)|; }
    assert Page(sorted, 0, 9) == sorted;
    assert Search(listings, n, PlainParams(admin), env) == Ok(sorted);
    forall d | d in docs
      ensures Matches(q, d.listing) <==>
                (d.listing.content.listingType == "sale" || d.listing.content.listingType == "rent")
                && (!admin && RequiresApproval(env) ==> d.listing.approvalStatus == Approved)
    {
      PlainMatches(!admin && RequiresApproval(env), d.listing);
    }
    forall d ensures d in sorted <==> d in matched {
      assert d in sorted <==> d in multiset(sorted);
    }
  }

  /** The moderation round trip: with approval required, a pending listing is
      missing from a plain search and present once it is approved (for a store
      small enough for one page). */
  lemma ApprovalMakesVisible(listings: map<Id, Listing>, n: nat, id: Id, admin: Id, approved: Listing, env: Env)
    requires RequiresApproval(env) && id < n && id in listings
    requires listings[id].approvalStatus == Pending
    requires approved == listings[id].(approvalStatus := Approved, approvedBy := Some(admin))
    requires listings[id].content.listingType == "sale" || listings[id].content.listingType == "rent"
    requires |ListingDocs(listings, n)| <= 9
    ensures Search(listings, n, PlainParams(false), env).Ok?
    ensures Doc(id, listings[id]) !in Search(listings, n, PlainParams(false), env).value
    ensures Search(listings[id := approved], n, PlainParams(false), env).Ok?
    ensures Doc(id, approved) in Search(listings[id := approved], n, PlainParams(false), env).value
  {
    var before := Doc(id, listings[id]);
    UnfilteredSearch(listings, n, false, env);
    assert before !in Search(listings, n, PlainParams(false), env).value by {
      assert before.listing.approvalStatus != Approved;
    }
    var after := listings[id := approved];
    assert after.Keys == listings.Keys;
    SameIdsSameCount(listings, after, n);
    var now := Doc(id, approved);
    assert now in ListingDocs(after, n);
    UnfilteredSearch(after, n, false, env);
  }
}
