/**
 * The browse page's client-side filtering: the validity filter applied to fetched data and the
 * `filteredProperties` predicate over the search box, the type select and the two price inputs.
 */
module PropertiesPage {
  import opened Wrappers
  import opened Seqs
  import opened Text
  import opened Records
  import Listing

  /** The page's filter state: "" (or None) for an empty input, "all" for no type. */
  datatype PageFilters = PageFilters(searchQuery: string, typeFilter: string, minPrice: Option<int>, maxPrice: Option<int>)

  /** The state the page starts in. */
  const Initial := PageFilters("", "all", None, None)

  /** One element of a JSON array of properties: a record or `null`. */
  type Entry = Option<Property>

  /** `(data.properties || []).filter(p => p && p.id && p.title)`. */
  function FetchedProperties(data: Option<seq<Entry>>): (r: seq<Property>)
    ensures data.None? ==> r == []
    ensures forall p :: p in r <==> data.Some? && Some(p) in data.value && p.id != "" && p.title != ""
  {
    if data.None? then [] else KeepValid(data.value)
  }

  /** The filter over a present array. */
  function KeepValid(entries: seq<Entry>): (r: seq<Property>)
    ensures |r| <= |entries|
    ensures forall p :: p in r <==> Some(p) in entries && p.id != "" && p.title != ""
  {
    if entries == [] then []
    else
      var rest := KeepValid(entries[1..]);
      assert forall e :: e in entries <==> e == entries[0] || e in entries[1..];
      match entries[0]
      case Some(p) => if p.id != "" && p.title != "" then [p] + rest else rest
      case None => rest
  }

  /** A backend listing passes the page's fetch filter unchanged: the server already dropped those records. */
  lemma {:induction false} FetchKeepsListing(listing: seq<Property>)
    requires forall p :: p in listing ==> Listing.IsListable(p)
    ensures KeepValid(seq(|listing|, i requires 0 <= i < |listing| => Some(listing[i]))) == listing
  {
    if listing != [] {
      var entries := seq(|listing|, i requires 0 <= i < |listing| => Some(listing[i]));
      var tail := seq(|listing| - 1, i requires 0 <= i < |listing| - 1 => Some(listing[1..][i]));
      assert entries[1..] == tail;
      assert entries[0] == Some(listing[0]) && Listing.IsListable(listing[0]);
      FetchKeepsListing(listing[1..]);
      assert KeepValid(entries) == [listing[0]] + KeepValid(tail);
      assert listing == [listing[0]] + listing[1..];
    }
  }

  /**
   * The predicate of `filteredProperties`, branch by branch. A property passes exactly when it
   * has an id, matches the search in its location or title (ignoring case), has the selected
   * type, and its price, if truthy, lies within the bounds.
   */
  predicate PageAdmits(p: Property, f: PageFilters)
    ensures PageAdmits(p, f) <==>
      p.id != "" &&
      (f.searchQuery != "" ==>
         MatchesIgnoringCase(p.location, f.searchQuery) || MatchesIgnoringCase(p.title, f.searchQuery)) &&
      (f.typeFilter != "all" ==> p.propertyType == f.typeFilter) &&
      (f.minPrice.Some? && Listing.PriceTruthy(p) ==> p.price.value >= f.minPrice.value) &&
      (f.maxPrice.Some? && Listing.PriceTruthy(p) ==> p.price.value <= f.maxPrice.value)
  {
    if p.id == "" then false
    else if f.searchQuery != "" &&
            !(MatchesIgnoringCase(p.location, f.searchQuery) || MatchesIgnoringCase(p.title, f.searchQuery)) then false
    else if f.typeFilter != "all" && p.propertyType != f.typeFilter then false
    else if f.minPrice.Some? && Listing.PriceTruthy(p) && p.price.value < f.minPrice.value then false
    else if f.maxPrice.Some? && Listing.PriceTruthy(p) && p.price.value > f.maxPrice.value then false
    else true
  }

  /** `properties.filter(...)` with that predicate. */
  function FilteredProperties(ps: seq<Property>, f: PageFilters): (r: seq<Property>)
    ensures |r| <= |ps|
    ensures forall p :: p in r <==> p in ps && PageAdmits(p, f)
  {
    Filter(ps, p => PageAdmits(p, f))
  }

  /** What the page shows, clause by clause, in terms of the property's own fields. */
  lemma FilteredMembers(ps: seq<Property>, f: PageFilters)
    ensures forall p :: p in FilteredProperties(ps, f) <==>
      p in ps &&
      p.id != "" &&
      (f.searchQuery != "" ==>
         MatchesIgnoringCase(p.location, f.searchQuery) || MatchesIgnoringCase(p.title, f.searchQuery)) &&
      (f.typeFilter != "all" ==> p.propertyType == f.typeFilter) &&
      (f.minPrice.Some? && Listing.PriceTruthy(p) ==> p.price.value >= f.minPrice.value) &&
      (f.maxPrice.Some? && Listing.PriceTruthy(p) ==> p.price.value <= f.maxPrice.value)
  {
  }

  /** The filter keeps the page's order and only drops entries. */
  lemma FilteredKeepsOrder(ps: seq<Property>, f: PageFilters)
    ensures IsSubsequence(FilteredProperties(ps, f), ps)
    ensures forall p :: multiset(FilteredProperties(ps, f))[p] == if PageAdmits(p, f) then multiset(ps)[p] else 0
  {
    FilterIsSubsequence(ps, p => PageAdmits(p, f));
    FilterCount(ps, p => PageAdmits(p, f));
  }

  /** With every input empty, the page shows exactly the entries that have an id. */
  lemma {:induction false} InitialShowsEveryEntryWithId(ps: seq<Property>)
    ensures FilteredProperties(ps, Initial) == Filter(ps, (p: Property) => p.id != "")
  {
    if ps != [] {
      InitialShowsEveryEntryWithId(ps[1..]);
    }
  }

  /** A property whose price is missing or zero passes any price bound. */
  lemma FalsyPricePassesBounds(p: Property, f: PageFilters)
    requires !Listing.PriceTruthy(p)
    ensures PageAdmits(p, f) == PageAdmits(p, f.(minPrice := None, maxPrice := None))
  {
  }

  /**
   * The page and the server disagree on a property without a price: under a minimum price the
   * page keeps it, the server's listing drops it.
   */
  lemma PriceSemanticsDiffer(p: Property, bound: int)
    requires Listing.IsListable(p) && p.price.None?
    ensures PageAdmits(p, Initial.(minPrice := Some(bound)))
    ensures p !in Listing.ListProperties([p], Listing.NoQuery.(minPrice := Some(bound)))
  {
    Listing.PriceBoundExcludesFalsyPrice([p], Listing.NoQuery.(minPrice := Some(bound)), p);
  }
}
