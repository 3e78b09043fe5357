/** `GET /properties`: the validity filter, the query filters and the newest-first order. */
module Listing {
  import opened Wrappers
  import opened Seqs
  import opened Text
  import opened Records

  /** The query string: "" (or None) for a parameter that was not given. */
  datatype Query = Query(
    location: string,
    status: string,
    minPrice: Option<int>,
    maxPrice: Option<int>,
    propertyType: string)

  const NoQuery := Query("", "", None, None, "")

  /** A stored value survives validation when it has a truthy `id` and `title`. */
  predicate IsListable(p: Property)
  {
    p.id != "" && p.title != ""
  }

  /** `p.price` is truthy: present and not zero. */
  predicate PriceTruthy(p: Property)
  {
    p.price.Some? && p.price.value != 0
  }

  predicate LocationPasses(p: Property, location: string)
  {
    p.location != "" && MatchesIgnoringCase(p.location, location)
  }

  predicate MinPricePasses(p: Property, minPrice: int)
  {
    PriceTruthy(p) && p.price.value >= minPrice
  }

  predicate MaxPricePasses(p: Property, maxPrice: int)
  {
    PriceTruthy(p) && p.price.value <= maxPrice
  }

  /**
   * The five `if (param) properties = properties.filter(...)` passes, in the handler's order.
   * Each keeps the entries that pass, as often as they occur, and drops the rest; an empty
   * parameter keeps everything.
   */
  function ByLocation(ps: seq<Property>, location: string): (r: seq<Property>)
    ensures forall x ::
      multiset(r)[x] == if location != "" ==> LocationPasses(x, location) then multiset(ps)[x] else 0
  {
    if location == "" then ps
    else
      FilterCount(ps, p => LocationPasses(p, location));
      Filter(ps, p => LocationPasses(p, location))
  }

  function ByStatus(ps: seq<Property>, status: string): (r: seq<Property>)
    ensures forall x ::
      multiset(r)[x] == if status != "" ==> x.status == status then multiset(ps)[x] else 0
  {
    if status == "" then ps
    else
      FilterCount(ps, (p: Property) => p.status == status);
      Filter(ps, (p: Property) => p.status == status)
  }

  function ByMinPrice(ps: seq<Property>, minPrice: Option<int>): (r: seq<Property>)
    ensures forall x ::
      multiset(r)[x] == if minPrice.Some? ==> MinPricePasses(x, minPrice.value) then multiset(ps)[x] else 0
  {
    if minPrice.None? then ps
    else
      FilterCount(ps, p => MinPricePasses(p, minPrice.value));
      Filter(ps, p => MinPricePasses(p, minPrice.value))
  }

  function ByMaxPrice(ps: seq<Property>, maxPrice: Option<int>): (r: seq<Property>)
    ensures forall x ::
      multiset(r)[x] == if maxPrice.Some? ==> MaxPricePasses(x, maxPrice.value) then multiset(ps)[x] else 0
  {
    if maxPrice.None? then ps
    else
      FilterCount(ps, p => MaxPricePasses(p, maxPrice.value));
      Filter(ps, p => MaxPricePasses(p, maxPrice.value))
  }

  function ByType(ps: seq<Property>, propertyType: string): (r: seq<Property>)
    ensures forall x ::
      multiset(r)[x] == if propertyType != "" ==> x.propertyType == propertyType then multiset(ps)[x] else 0
  {
    if propertyType == "" then ps
    else
      FilterCount(ps, (p: Property) => p.propertyType == propertyType);
      Filter(ps, (p: Property) => p.propertyType == propertyType)
  }

  /** The sort key: the creation time, or 0 when `createdAt` is missing. */
  function Stamp(p: Property): int
  {
    if p.createdAt.Some? then p.createdAt.value else 0
  }

  predicate NewestFirst(s: seq<Property>)
  {
    forall i, j :: 0 <= i < j < |s| ==> Stamp(s[i]) >= Stamp(s[j])
  }

  /**
   * A record without `createdAt` sorts as time 0: when every stored time is positive, the
   * undated records come after all the dated ones.
   */
  lemma UndatedSortLast(s: seq<Property>)
    requires NewestFirst(s)
    requires forall p :: p in s && p.createdAt.Some? ==> p.createdAt.value > 0
    ensures forall i, j :: 0 <= i < j < |s| && s[i].createdAt.None? ==> s[j].createdAt.None?
  {
    forall i, j | 0 <= i < j < |s| && s[i].createdAt.None?
      ensures s[j].createdAt.None?
    {
      assert Stamp(s[i]) >= Stamp(s[j]);
      assert s[j] in s;
    }
  }

  /** Insert `p` before the first entry that is strictly older (so it stays ahead of equal stamps). */
  function Insert(p: Property, s: seq<Property>): (r: seq<Property>)
    requires NewestFirst(s)
    ensures NewestFirst(r)
    ensures multiset(r) == multiset(s) + multiset{p}
  {
    if s == [] || Stamp(p) >= Stamp(s[0]) then [p] + s
    else
      var rest := Insert(p, s[1..]);
      assert s == [s[0]] + s[1..];
      InsertedAreNotNewer(p, s, rest);
      HeadFirst(s[0], rest);
      [s[0]] + rest
  }

  /** A head no older than anything behind it extends a newest-first list. */
  lemma HeadFirst(h: Property, t: seq<Property>)
    requires NewestFirst(t)
    requires forall x :: x in t ==> Stamp(x) <= Stamp(h)
    ensures NewestFirst([h] + t)
  {
    var r := [h] + t;
    forall i, j | 0 <= i < j < |r| ensures Stamp(r[i]) >= Stamp(r[j]) {
      if i == 0 {
        assert r[j] == t[j - 1];
      } else {
        assert r[i] == t[i - 1] && r[j] == t[j - 1];
      }
    }
  }

  /** Whatever is inserted behind the head is no newer than the head. */
  lemma InsertedAreNotNewer(p: Property, s: seq<Property>, rest: seq<Property>)
    requires NewestFirst(s) && s != [] && Stamp(p) < Stamp(s[0])
    requires multiset(rest) == multiset(s[1..]) + multiset{p}
    ensures forall x :: x in rest ==> Stamp(x) <= Stamp(s[0])
  {
    forall x | x in rest ensures Stamp(x) <= Stamp(s[0]) {
      assert x in multiset(rest);
      if x != p {
        assert x in multiset(s[1..]);
        var j :| 0 <= j < |s[1..]| && s[1..][j] == x;
        assert s[j + 1] == x;
      }
    }
  }

  /** `properties.sort((a, b) => dateB - dateA)`: a stable sort, newest first. */
  function SortNewestFirst(s: seq<Property>): (r: seq<Property>)
    ensures NewestFirst(r)
    ensures multiset(r) == multiset(s)
  {
    if s == [] then []
    else
      assert s == [s[0]] + s[1..];
      Insert(s[0], SortNewestFirst(s[1..]))
  }

  /** The handler's result for the values a prefix scan returned, in scan order. */
  function ListProperties(scan: seq<Property>, q: Query): (r: seq<Property>)
    ensures NewestFirst(r)
  {
    var valid := Filter(scan, IsListable);
    var filtered := ByType(ByMaxPrice(ByMinPrice(ByStatus(ByLocation(valid, q.location), q.status),
                                                 q.minPrice), q.maxPrice), q.propertyType);
    SortNewestFirst(filtered)
  }

  /** Every filter of the query, stated at once. */
  predicate Admits(p: Property, q: Query)
  {
    (q.location != "" ==> LocationPasses(p, q.location)) &&
    (q.status != "" ==> p.status == q.status) &&
    (q.minPrice.Some? ==> MinPricePasses(p, q.minPrice.value)) &&
    (q.maxPrice.Some? ==> MaxPricePasses(p, q.maxPrice.value)) &&
    (q.propertyType != "" ==> p.propertyType == q.propertyType)
  }

  /**
   * The listing holds every valid stored value that passes every filter, as often as the scan
   * returned it, and nothing else.
   */
  lemma ListingCount(scan: seq<Property>, q: Query, x: Property)
    ensures multiset(ListProperties(scan, q))[x] ==
            if IsListable(x) && Admits(x, q) then multiset(scan)[x] else 0
  {
    var valid := Filter(scan, IsListable);
    FilterCount(scan, IsListable);
    var a := ByLocation(valid, q.location);
    var b := ByStatus(a, q.status);
    var c := ByMinPrice(b, q.minPrice);
    var d := ByMaxPrice(c, q.maxPrice);
    var e := ByType(d, q.propertyType);
    assert multiset(e)[x] == if IsListable(x) && Admits(x, q) then multiset(scan)[x] else 0;
    assert ListProperties(scan, q) == SortNewestFirst(e);
  }

  /** Soundness and completeness of the listing as membership. */
  lemma ListingMembers(scan: seq<Property>, q: Query)
    ensures forall x :: x in ListProperties(scan, q) <==> x in scan && IsListable(x) && Admits(x, q)
  {
    forall x ensures x in ListProperties(scan, q) <==> x in scan && IsListable(x) && Admits(x, q) {
      ListingCount(scan, q, x);
      assert x in ListProperties(scan, q) <==> multiset(ListProperties(scan, q))[x] > 0;
      assert x in scan <==> multiset(scan)[x] > 0;
    }
  }

  /** With any price bound, a property whose price is missing or zero is never listed. */
  lemma PriceBoundExcludesFalsyPrice(scan: seq<Property>, q: Query, p: Property)
    requires q.minPrice.Some? || q.maxPrice.Some?
    requires !PriceTruthy(p)
    ensures p !in ListProperties(scan, q)
  {
    ListingMembers(scan, q);
  }

  /** With no query at all, every valid stored value is listed and no other. */
  lemma UnfilteredListsEveryValid(scan: seq<Property>)
    ensures forall x :: x in ListProperties(scan, NoQuery) <==> x in scan && IsListable(x)
  {
    ListingMembers(scan, NoQuery);
  }
}
