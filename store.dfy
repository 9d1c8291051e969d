/** The document store behind the controllers: the `users` and `listings`
    collections as maps from id to document, held in one object that the
    controllers read and update in place. Ids come from a counter, so
    ascending id order is the collections' natural (insertion) order. */
module Store {
  import opened Common
  import opened UserModel
  import opened ListingModel

  /** The unique indexes on `username` and `email`. */
  ghost predicate UniqueAccounts(users: map<Id, User>) {
    forall a, b :: a in users && b in users && a != b ==>
      users[a].username != users[b].username && users[a].email != users[b].email
  }

  /** Would storing `u` under `id` clash with another user's username or email? */
  predicate Clashes(users: map<Id, User>, id: Id, u: User) {
    exists other :: other in users && other != id &&
      (users[other].username == u.username || users[other].email == u.email)
  }

  lemma StoreKeepsUnique(users: map<Id, User>, id: Id, u: User)
    requires UniqueAccounts(users) && !Clashes(users, id, u)
    ensures UniqueAccounts(users[id := u])
  {
  }

  /** The documents of `m` with ids below `n`, in ascending id order. */
  function InIdOrder<T>(m: map<Id, T>, n: nat): (r: seq<(Id, T)>)
    ensures forall i :: 0 <= i < |r| ==> r[i].0 < n && r[i].0 in m && m[r[i].0] == r[i].1
    ensures forall id :: id < n && id in m ==> (id, m[id]) in r
    ensures forall i, j :: 0 <= i < j < |r| ==> r[i].0 < r[j].0
  {
    if n == 0 then []
    else
      var prefix := InIdOrder(m, n - 1);
      if n - 1 in m then prefix + [(n - 1, m[n - 1])] else prefix
  }

  /** Id and listing pairs as documents, position by position. */
  function AsDocs(s: seq<(Id, Listing)>): (r: seq<Doc>)
    ensures |r| == |s| && forall i :: 0 <= i < |s| ==> r[i] == Doc(s[i].0, s[i].1)
  {
    seq(|s|, i requires 0 <= i < |s| => Doc(s[i].0, s[i].1))
  }

  /** The listings of `m` with ids below `n` as documents, in natural order. */
  function ListingDocs(m: map<Id, Listing>, n: nat): (r: seq<Doc>)
    ensures forall d :: d in r <==> d.id < n && d.id in m && m[d.id] == d.listing
    ensures forall i, j :: 0 <= i < j < |r| ==> r[i].id < r[j].id
    ensures |r| == |InIdOrder(m, n)|
  {
    var s := InIdOrder(m, n);
    var r := AsDocs(s);
    forall d | d in r ensures d.id < n && d.id in m && m[d.id] == d.listing {
      var k :| 0 <= k < |r| && r[k] == d;
      assert s[k] == (d.id, d.listing);
    }
    forall id | id < n && id in m ensures Doc(id, m[id]) in r {
      var k :| 0 <= k < |s| && s[k] == (id, m[id]);
      assert r[k] == Doc(id, m[id]);
    }
    forall i, j | 0 <= i < j < |r| ensures r[i].id < r[j].id {
      assert r[i].id == s[i].0 && r[j].id == s[j].0;
    }
    r
  }

  /** How many documents there are below `n` depends only on which ids are taken. */
  lemma {:induction false} SameIdsSameCount<T>(m: map<Id, T>, m2: map<Id, T>, n: nat)
    requires m.Keys == m2.Keys
    ensures |InIdOrder(m, n)| == |InIdOrder(m2, n)|
  {
    if n > 0 {
      SameIdsSameCount(m, m2, n - 1);
      assert (n - 1 in m) == (n - 1 in m2);
      assert |InIdOrder(m, n)| == |InIdOrder(m, n - 1)| + (if n - 1 in m then 1 else 0);
      assert |InIdOrder(m2, n)| == |InIdOrder(m2, n - 1)| + (if n - 1 in m2 then 1 else 0);
    }
  }

  /** `findOne({email})`: the first user in natural order with that email. */
  function FirstWithEmail(users: map<Id, User>, email: string, n: nat): (r: Option<Id>)
    ensures r.Some? ==> r.value < n && r.value in users && users[r.value].email == email
    ensures r.None? ==> forall id :: id < n && id in users ==> users[id].email != email
    ensures r.Some? ==> forall id :: id < r.value && id in users ==> users[id].email != email
  {
    if n == 0 then None
    else
      var earlier := FirstWithEmail(users, email, n - 1);
      if earlier.Some? then earlier
      else if n - 1 in users && users[n - 1].email == email then Some(n - 1)
      else None
  }

  class Db {
    var users: map<Id, User>
    var listings: map<Id, Listing>
    var nextId: Id

    ghost predicate Valid()
      reads this
    {
      && (forall id :: id in users ==> id < nextId)
      && (forall id :: id in listings ==> id < nextId)
      && UniqueAccounts(users)
    }

    constructor ()
      ensures Valid() && users == map[] && listings == map[]
    {
      users, listings, nextId := map[], map[], 0;
    }

    /** `Listing.create(data)`: stores the document under a fresh id. */
    method InsertListing(l: Listing) returns (id: Id)
      requires Valid()
      modifies this
      ensures Valid()
      ensures id !in old(listings) && listings == old(listings)[id := l]
      ensures users == old(users)
    {
      id := nextId;
      listings := listings[id := l];
      nextId := nextId + 1;
    }

    /** `User.create(fields)`: schema validation, then the unique indexes (a
        duplicate key is an untagged store error, answered with 500). */
    method InsertUser(f: NewUser) returns (res: Result<Id>)
      requires Valid()
      modifies this
      ensures Valid() && listings == old(listings)
      ensures CreateUser(f).Err? ==> res == Err(CreateUser(f).error) && users == old(users)
      ensures CreateUser(f).Ok? && Clashes(old(users), old(nextId), CreateUser(f).value) ==>
                res.Err? && res.error.status == 500 && users == old(users)
      ensures CreateUser(f).Ok? && !Clashes(old(users), old(nextId), CreateUser(f).value) ==>
                res.Ok? && res.value !in old(users)
                && users == old(users)[res.value := CreateUser(f).value]
    {
      var created := CreateUser(f);
      if created.Err? {
        return Err(created.error);
      }
      if Clashes(users, nextId, created.value) {
        return Err(HttpError(500, "E11000 duplicate key error"));
      }
      StoreKeepsUnique(users, nextId, created.value);
      res := Ok(nextId);
      users := users[nextId := created.value];
      nextId := nextId + 1;
    }
  }
}
