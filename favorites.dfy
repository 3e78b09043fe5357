/** The `user:<id>:favorites` index list: add, remove and resolve. */
module Favorites {
  import opened Seqs
  import opened Records

  /** `if (!favorites.includes(id)) favorites.push(id)`. */
  function WithFavorite(favs: seq<string>, propertyId: string): (r: seq<string>)
    ensures propertyId in r
    ensures propertyId in favs ==> r == favs
    ensures propertyId !in favs ==> r == favs + [propertyId]
  {
    if propertyId in favs then favs else favs + [propertyId]
  }

  /** `favorites.filter(id => id !== propertyId)`. */
  function WithoutFavorite(favs: seq<string>, propertyId: string): (r: seq<string>)
    ensures propertyId !in r
    ensures forall y :: y in r <==> y in favs && y != propertyId
  {
    Filter(favs, id => id != propertyId)
  }

  /** Adding is idempotent: a second add of the same id leaves the list as the first add did. */
  lemma AddIdempotent(favs: seq<string>, propertyId: string)
    ensures WithFavorite(WithFavorite(favs, propertyId), propertyId) == WithFavorite(favs, propertyId)
  {
  }

  /** Favoriting a new id twice leaves it in the list exactly once, and every other id as often as before. */
  lemma AddTwiceKeepsOneCopy(favs: seq<string>, propertyId: string)
    requires propertyId !in favs
    ensures var r := WithFavorite(WithFavorite(favs, propertyId), propertyId);
      multiset(r)[propertyId] == 1 &&
      forall y :: y != propertyId ==> multiset(r)[y] == multiset(favs)[y]
  {
    assert multiset(favs)[propertyId] == 0;
  }

  /** Removal drops every copy of the id and keeps every other id, as often as before and in order. */
  lemma RemoveKeepsOthersInOrder(favs: seq<string>, propertyId: string)
    ensures var r := WithoutFavorite(favs, propertyId);
      IsSubsequence(r, favs) &&
      multiset(r)[propertyId] == 0 &&
      forall y :: y != propertyId ==> multiset(r)[y] == multiset(favs)[y]
  {
    FilterIsSubsequence(favs, id => id != propertyId);
    FilterCount(favs, id => id != propertyId);
  }

  /** Removing an id just added restores the list it was added to. */
  lemma RemoveUndoesAdd(favs: seq<string>, propertyId: string)
    requires propertyId !in favs
    ensures WithoutFavorite(WithFavorite(favs, propertyId), propertyId) == favs
  {
    var keep := (id: string) => id != propertyId;
    FilterAppend(favs, [propertyId], keep);
    FilterKeepsAll(favs, keep);
    assert Filter([propertyId], keep) == [];
  }

  /**
   * `GET /favorites`: each stored id resolved to its property; ids whose record is gone are dropped.
   * The result follows the list: one entry per id that still resolves, in order, repeats included.
   * The handler maps first and drops the nulls after; dropping the ids without a record first
   * and then mapping gives the same list.
   */
  function FavoriteProperties(ids: seq<string>, properties: map<string, Property>): (r: seq<Property>)
    ensures |r| <= |ids|
    ensures forall p :: p in r ==> exists k :: k in ids && k in properties && properties[k] == p
    ensures forall k :: k in ids && k in properties ==> properties[k] in r
    ensures var found := Resolvable(ids, properties);
      |r| == |found| && forall i :: 0 <= i < |r| ==> found[i] in properties && r[i] == properties[found[i]]
  {
    var found := Resolvable(ids, properties);
    FetchedMembers(found, properties);
    Fetched(found, properties)
  }

  /** The `map` over ids that all resolve: one record per id, in order. */
  function Fetched(found: seq<string>, properties: map<string, Property>): (r: seq<Property>)
    requires forall k :: k in found ==> k in properties
    ensures |r| == |found|
    ensures forall i :: 0 <= i < |r| ==> r[i] == properties[found[i]]
  {
    if found == [] then []
    else
      assert forall k :: k in found[1..] ==> k in found;
      [properties[found[0]]] + Fetched(found[1..], properties)
  }

  /** The fetched records are exactly the records of the fetched ids. */
  lemma FetchedMembers(found: seq<string>, properties: map<string, Property>)
    requires forall k :: k in found ==> k in properties
    ensures forall p :: p in Fetched(found, properties) ==> exists k :: k in found && properties[k] == p
    ensures forall k :: k in found ==> properties[k] in Fetched(found, properties)
  {
    var r := Fetched(found, properties);
    forall p | p in r ensures exists k :: k in found && properties[k] == p {
      var i :| 0 <= i < |r| && r[i] == p;
      assert found[i] in found;
    }
    forall k | k in found ensures properties[k] in r {
      var i :| 0 <= i < |found| && found[i] == k;
      assert r[i] in r;
    }
  }
}
