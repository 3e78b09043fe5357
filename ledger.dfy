/** The booking ledger: booking records, their status changes and the per-user booking index lists. */
module Ledger {
  import opened Seqs
  import opened Records
  import opened Registry

  const StatusPending := "pending"

  /** The record `POST /bookings` stores: the request, the customer's stamps and the property's owner. */
  function NewBooking(bookingId: string, req: BookingRequest, customerId: string, customer: Profile,
                      ownerId: string, now: int): (b: Booking)
    ensures b.id == bookingId && b.status == StatusPending && b.createdAt == now
    ensures b.customerId == customerId && b.ownerId == ownerId && b.propertyId == req.propertyId
    ensures b.customerName == customer.name && b.customerEmail == customer.email
    ensures b.bookingType == req.bookingType && b.paymentMethod == req.paymentMethod
    ensures b.amount == req.amount && b.contactInfo == req.contactInfo
  {
    Booking(bookingId, req.propertyId, customerId, customer.name, customer.email, ownerId,
            req.bookingType, req.paymentMethod, req.amount, req.contactInfo, StatusPending, now)
  }

  /** `{ ...booking, status }`: the requested status, whatever it is and whatever the current one was. */
  function WithStatus(b: Booking, status: string): (r: Booking)
    ensures r.status == status && r.(status := b.status) == b
  {
    b.(status := status)
  }

  /**
   * The index lists agree with the records: every booking is listed for its customer and its
   * owner, and every listed id names a booking of which that user is the customer or the owner.
   */
  ghost predicate IndexExact(index: map<string, seq<string>>, bookings: map<string, Booking>)
  {
    (forall k :: k in bookings ==>
       bookings[k].id == k &&
       k in Lookup(index, bookings[k].customerId) &&
       k in Lookup(index, bookings[k].ownerId)) &&
    (forall u, k :: u in index && k in index[u] ==>
       k in bookings && (bookings[k].customerId == u || bookings[k].ownerId == u))
  }

  /** The index writes of a booking creation: push to the customer's list, then to the owner's. */
  function IndexBooking(index: map<string, seq<string>>, customerId: string, ownerId: string,
                        bookingId: string): (r: map<string, seq<string>>)
    ensures r.Keys == index.Keys + {customerId, ownerId}
    ensures bookingId in Lookup(r, customerId) && bookingId in Lookup(r, ownerId)
    ensures forall u :: Lookup(index, u) <= Lookup(r, u)
  {
    Append(Append(index, customerId, bookingId), ownerId, bookingId)
  }

  /**
   * Both lists grow by exactly the new id; when the customer is also the property's owner
   * (the owner id is whatever the property record holds) the one list receives it twice.
   */
  lemma IndexBookingGrowsBothLists(index: map<string, seq<string>>, customerId: string, ownerId: string,
                                   bookingId: string)
    ensures var r := IndexBooking(index, customerId, ownerId, bookingId);
      (customerId != ownerId ==>
         Lookup(r, customerId) == Lookup(index, customerId) + [bookingId] &&
         Lookup(r, ownerId) == Lookup(index, ownerId) + [bookingId]) &&
      (customerId == ownerId ==>
         Lookup(r, customerId) == Lookup(index, customerId) + [bookingId, bookingId]) &&
      forall u :: u != customerId && u != ownerId ==> Lookup(r, u) == Lookup(index, u)
  {
    var once := Append(index, customerId, bookingId);
    if customerId == ownerId {
      assert Lookup(once, customerId) + [bookingId] == Lookup(index, customerId) + [bookingId, bookingId];
    }
  }

  /** Creating a booking under a fresh id keeps the index exact. */
  lemma {:induction false} CreateKeepsIndexExact(index: map<string, seq<string>>, bookings: map<string, Booking>,
                                                  b: Booking)
    requires IndexExact(index, bookings)
    requires b.id !in bookings
    ensures IndexExact(IndexBooking(index, b.customerId, b.ownerId, b.id), bookings[b.id := b])
  {
    var r := IndexBooking(index, b.customerId, b.ownerId, b.id);
    var bs := bookings[b.id := b];
    IndexBookingGrowsBothLists(index, b.customerId, b.ownerId, b.id);
    forall k | k in bs
      ensures bs[k].id == k && k in Lookup(r, bs[k].customerId) && k in Lookup(r, bs[k].ownerId)
    {
      if k != b.id {
        assert k in Lookup(index, bookings[k].customerId) && k in Lookup(index, bookings[k].ownerId);
      }
    }
    forall u, k | u in r && k in r[u]
      ensures k in bs && (bs[k].customerId == u || bs[k].ownerId == u)
    {
      assert k in Lookup(r, u);
      if k != b.id {
        assert k in Lookup(index, u);
        assert u in index;
      }
    }
  }

  /** A status change keeps the index exact: it touches neither the id, the customer nor the owner. */
  lemma StatusChangeKeepsIndexExact(index: map<string, seq<string>>, bookings: map<string, Booking>,
                                    k: string, status: string)
    requires IndexExact(index, bookings)
    requires k in bookings
    ensures IndexExact(index, bookings[k := WithStatus(bookings[k], status)])
  {
  }

  /** One entry of `GET /bookings`: `{ ...booking, property }`. */
  datatype BookingView = BookingView(booking: Booking, property: Property)

  /** The stand-in for a property whose record is gone. */
  const Unavailable: Property := Blank("").(title := "Property Unavailable", location := "N/A")

  /** The property a booking refers to, or the stand-in. */
  function PropertyOr(properties: map<string, Property>, propertyId: string): (p: Property)
    ensures propertyId in properties ==> p == properties[propertyId]
    ensures propertyId !in properties ==> p.title == "Property Unavailable" && p.location == "N/A"
  {
    if propertyId in properties then properties[propertyId] else Unavailable
  }

  /**
   * `GET /bookings`: each listed id resolved to its booking, joined with its property; missing
   * bookings dropped. The result follows the list: one view per id that resolves, in order, so a
   * booking indexed twice in the list is shown twice.
   */
  function BookingViews(ids: seq<string>, bookings: map<string, Booking>, properties: map<string, Property>)
    : (r: seq<BookingView>)
    ensures |r| <= |ids|
    ensures forall v :: v in r ==>
      (exists k :: k in ids && k in bookings && v.booking == bookings[k]) &&
      v.property == PropertyOr(properties, v.booking.propertyId)
    ensures forall k :: k in ids && k in bookings ==>
      BookingView(bookings[k], PropertyOr(properties, bookings[k].propertyId)) in r
    ensures var found := Resolvable(ids, bookings);
      |r| == |found| &&
      forall i :: 0 <= i < |r| ==>
        found[i] in bookings && r[i] == BookingView(bookings[found[i]], PropertyOr(properties, bookings[found[i]].propertyId))
  {
    var found := Resolvable(ids, bookings);
    JoinedMembers(found, bookings, properties);
    Joined(found, bookings, properties)
  }

  /** `{ ...booking, property }` for a stored booking. */
  function View(bookings: map<string, Booking>, properties: map<string, Property>, k: string): BookingView
    requires k in bookings
  {
    BookingView(bookings[k], PropertyOr(properties, bookings[k].propertyId))
  }

  /** The final `map` of `GET /bookings` over ids that all resolve: one view per id, in order. */
  function Joined(found: seq<string>, bookings: map<string, Booking>, properties: map<string, Property>)
    : (r: seq<BookingView>)
    requires forall k :: k in found ==> k in bookings
    ensures |r| == |found|
    ensures forall i :: 0 <= i < |r| ==> r[i] == View(bookings, properties, found[i])
  {
    if found == [] then []
    else
      assert forall k :: k in found[1..] ==> k in found;
      [View(bookings, properties, found[0])] + Joined(found[1..], bookings, properties)
  }

  /** The joined views are exactly the views of the joined ids. */
  lemma JoinedMembers(found: seq<string>, bookings: map<string, Booking>, properties: map<string, Property>)
    requires forall k :: k in found ==> k in bookings
    ensures forall v :: v in Joined(found, bookings, properties) ==>
      exists k :: k in found && v == View(bookings, properties, k)
    ensures forall k :: k in found ==> View(bookings, properties, k) in Joined(found, bookings, properties)
  {
    var r := Joined(found, bookings, properties);
    forall v | v in r ensures exists k :: k in found && v == View(bookings, properties, k) {
      var i :| 0 <= i < |r| && r[i] == v;
      assert found[i] in found;
    }
    forall k | k in found ensures View(bookings, properties, k) in r {
      var i :| 0 <= i < |found| && found[i] == k;
      assert r[i] in r;
    }
  }

  /**
   * A booking whose customer is also the property's owner is pushed twice onto one list, and the
   * listing then shows it twice.
   */
  lemma RepeatedIdShownTwice(k: string, bookings: map<string, Booking>, properties: map<string, Property>)
    requires k in bookings
    ensures BookingViews([k, k], bookings, properties) == [View(bookings, properties, k), View(bookings, properties, k)]
  {
  }

  /**
   * With an exact index, a user's booking list shows exactly the bookings in which that user is
   * the customer or the property's owner.
   */
  lemma {:induction false} ListedBookingsAreExactlyOwn(index: map<string, seq<string>>, bookings: map<string, Booking>,
                                                       properties: map<string, Property>, u: string)
    requires IndexExact(index, bookings)
    ensures var r := BookingViews(Lookup(index, u), bookings, properties);
      (forall v :: v in r ==> v.booking.customerId == u || v.booking.ownerId == u) &&
      (forall k :: k in bookings && (bookings[k].customerId == u || bookings[k].ownerId == u) ==>
         BookingView(bookings[k], PropertyOr(properties, bookings[k].propertyId)) in r)
  {
    var ids := Lookup(index, u);
    var r := BookingViews(ids, bookings, properties);
    forall v | v in r ensures v.booking.customerId == u || v.booking.ownerId == u {
      var k :| k in ids && k in bookings && v.booking == bookings[k];
      assert u in index && k in index[u];
    }
  }
}
