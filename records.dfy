/**
 * The records the handlers keep under `user:*`, `property:*` and `booking:*`, and the
 * notification entries of the per-user inboxes.
 *
 * A string field that a JSON record may lack is modelled as `string`, with "" standing for
 * the absent field. The handlers' tests on a field (`!p.title`, `p.location && ...`,
 * `p.status === status` with a non-empty `status`) treat the two alike; a missing `title`
 * interpolated into a message text, and the page's `type` comparison against a filter that
 * is "", would tell them apart.
 */
module Records {
  import opened Wrappers
  import opened Expiry

  /** `profile.role`. */
  datatype Role = Customer | Owner | Admin

  function RoleName(role: Role): (name: string)
    ensures name != ""
  {
    match role
    case Customer => "customer"
    case Owner => "owner"
    case Admin => "admin"
  }

  /** The signup role check: only `customer` and `owner` may be requested; anything else is a 400. */
  function ParseSignupRole(name: string): (r: Option<Role>)
    ensures r.Some? <==> name == "customer" || name == "owner"
    ensures r.Some? ==> r.value != Admin && RoleName(r.value) == name
  {
    if name == "customer" then Some(Customer)
    else if name == "owner" then Some(Owner)
    else None
  }

  /** Every role a user may sign up for is accepted under its own name. */
  lemma SignupRoleRoundTrip(role: Role)
    requires role != Admin
    ensures ParseSignupRole(RoleName(role)) == Some(role)
  {
  }

  /** A `user:<id>` record. */
  datatype Profile = Profile(
    id: string,
    email: string,
    name: string,
    role: Role,
    isActive: bool,
    convertedToOwner: bool,
    createdAt: int)

  /** A `property:<id>` record (timestamps are integers). */
  datatype Property = Property(
    id: string,
    title: string,
    description: string,
    location: string,
    price: Option<int>,
    propertyType: string,
    bedrooms: Option<int>,
    bathrooms: Option<int>,
    area: Option<int>,
    images: seq<string>,
    duration: string,
    status: string,
    ownerId: string,
    ownerName: string,
    ownerEmail: string,
    createdAt: Option<int>,
    expiryDate: Option<ExpiryDate>,
    approvedAt: Option<int>,
    approvedBy: string,
    rejectedAt: Option<int>,
    rejectedBy: string,
    rejectionReason: string)

  /** A JSON request body for a property: each field that was sent, and only those. */
  datatype Patch = Patch(
    id: Option<string>,
    title: Option<string>,
    description: Option<string>,
    location: Option<string>,
    price: Option<int>,
    propertyType: Option<string>,
    bedrooms: Option<int>,
    bathrooms: Option<int>,
    area: Option<int>,
    images: Option<seq<string>>,
    duration: Option<string>,
    status: Option<string>,
    ownerId: Option<string>,
    ownerName: Option<string>,
    ownerEmail: Option<string>,
    createdAt: Option<int>,
    expiryDate: Option<ExpiryDate>,
    approvedAt: Option<int>,
    approvedBy: Option<string>,
    rejectedAt: Option<int>,
    rejectedBy: Option<string>,
    rejectionReason: Option<string>)

  /** The body that sends nothing. */
  const EmptyPatch := Patch(None, None, None, None, None, None, None, None, None, None, None,
                            None, None, None, None, None, None, None, None, None, None, None)

  /** A field value after a spread: the patch's value when it sent one, else the old value. */
  function Over<T>(current: T, sent: Option<T>): T
  {
    sent.GetOr(current)
  }

  /** An optional field after a spread: a sent value replaces it. */
  function OverOpt<T>(current: Option<T>, sent: Option<T>): Option<T>
  {
    if sent.Some? then sent else current
  }

  /** `{ ...p, ...u }`: every field the patch sent overrides, every other field is kept.
    * In particular a body may rewrite the record's id, owner and status. */
  function Merge(p: Property, u: Patch): (r: Property)
    ensures u.id.Some? ==> r.id == u.id.value
    ensures u.ownerId.Some? ==> r.ownerId == u.ownerId.value
    ensures u.status.Some? ==> r.status == u.status.value
  {
    Property(
      Over(p.id, u.id),
      Over(p.title, u.title),
      Over(p.description, u.description),
      Over(p.location, u.location),
      OverOpt(p.price, u.price),
      Over(p.propertyType, u.propertyType),
      OverOpt(p.bedrooms, u.bedrooms),
      OverOpt(p.bathrooms, u.bathrooms),
      OverOpt(p.area, u.area),
      Over(p.images, u.images),
      Over(p.duration, u.duration),
      Over(p.status, u.status),
      Over(p.ownerId, u.ownerId),
      Over(p.ownerName, u.ownerName),
      Over(p.ownerEmail, u.ownerEmail),
      OverOpt(p.createdAt, u.createdAt),
      OverOpt(p.expiryDate, u.expiryDate),
      OverOpt(p.approvedAt, u.approvedAt),
      Over(p.approvedBy, u.approvedBy),
      OverOpt(p.rejectedAt, u.rejectedAt),
      Over(p.rejectedBy, u.rejectedBy),
      Over(p.rejectionReason, u.rejectionReason))
  }

  /** The patch `{ ...u, ...v }`: `v`'s fields override `u`'s. */
  function Combine(u: Patch, v: Patch): (w: Patch)
  {
    Patch(
      OverOpt(u.id, v.id),
      OverOpt(u.title, v.title),
      OverOpt(u.description, v.description),
      OverOpt(u.location, v.location),
      OverOpt(u.price, v.price),
      OverOpt(u.propertyType, v.propertyType),
      OverOpt(u.bedrooms, v.bedrooms),
      OverOpt(u.bathrooms, v.bathrooms),
      OverOpt(u.area, v.area),
      OverOpt(u.images, v.images),
      OverOpt(u.duration, v.duration),
      OverOpt(u.status, v.status),
      OverOpt(u.ownerId, v.ownerId),
      OverOpt(u.ownerName, v.ownerName),
      OverOpt(u.ownerEmail, v.ownerEmail),
      OverOpt(u.createdAt, v.createdAt),
      OverOpt(u.expiryDate, v.expiryDate),
      OverOpt(u.approvedAt, v.approvedAt),
      OverOpt(u.approvedBy, v.approvedBy),
      OverOpt(u.rejectedAt, v.rejectedAt),
      OverOpt(u.rejectedBy, v.rejectedBy),
      OverOpt(u.rejectionReason, v.rejectionReason))
  }

  /** A merged field holds the value the patch sent, or the old value when it sent none. */
  predicate Spread<T(==)>(merged: T, current: T, sent: Option<T>)
  {
    (sent.Some? ==> merged == sent.value) && (sent.None? ==> merged == current)
  }

  /** The same for a field that is itself optional: a sent value replaces it. */
  predicate SpreadOpt<T(==)>(merged: Option<T>, current: Option<T>, sent: Option<T>)
  {
    (sent.Some? ==> merged == sent) && (sent.None? ==> merged == current)
  }

  /** The shallow merge, field by field: sent keys override, the rest survive. */
  lemma MergeOverrides(p: Property, u: Patch)
    ensures var r := Merge(p, u);
      Spread(r.id, p.id, u.id) && Spread(r.title, p.title, u.title) &&
      Spread(r.description, p.description, u.description) && Spread(r.location, p.location, u.location) &&
      SpreadOpt(r.price, p.price, u.price) && Spread(r.propertyType, p.propertyType, u.propertyType) &&
      SpreadOpt(r.bedrooms, p.bedrooms, u.bedrooms) && SpreadOpt(r.bathrooms, p.bathrooms, u.bathrooms) &&
      SpreadOpt(r.area, p.area, u.area) && Spread(r.images, p.images, u.images) &&
      Spread(r.duration, p.duration, u.duration) && Spread(r.status, p.status, u.status) &&
      Spread(r.ownerId, p.ownerId, u.ownerId) && Spread(r.ownerName, p.ownerName, u.ownerName) &&
      Spread(r.ownerEmail, p.ownerEmail, u.ownerEmail) && SpreadOpt(r.createdAt, p.createdAt, u.createdAt) &&
      SpreadOpt(r.expiryDate, p.expiryDate, u.expiryDate) && SpreadOpt(r.approvedAt, p.approvedAt, u.approvedAt) &&
      Spread(r.approvedBy, p.approvedBy, u.approvedBy) && SpreadOpt(r.rejectedAt, p.rejectedAt, u.rejectedAt) &&
      Spread(r.rejectedBy, p.rejectedBy, u.rejectedBy) &&
      Spread(r.rejectionReason, p.rejectionReason, u.rejectionReason)
  {
  }

  /** An empty body leaves the record as it was. */
  lemma MergeEmpty(p: Property)
    ensures Merge(p, EmptyPatch) == p
  {
  }

  /** Sending the same update twice has the effect of sending it once. */
  lemma MergeIdempotent(p: Property, u: Patch)
    ensures Merge(Merge(p, u), u) == Merge(p, u)
  {
  }

  /** Two updates in a row are one update with the later one's fields winning. */
  lemma MergeSequential(p: Property, u: Patch, v: Patch)
    ensures Merge(Merge(p, u), v) == Merge(p, Combine(u, v))
  {
  }

  /** An inbox entry of `user:<id>:notifications`. */
  datatype Notification = Notification(
    id: string,
    kind: string,
    propertyId: string,
    propertyTitle: string,
    ownerName: string,
    message: string,
    createdAt: int,
    read: bool)

  /** The `contactInfo` object a customer sends with a booking. */
  datatype ContactInfo = ContactInfo(phone: string, alternativePhone: string, address: string, notes: string)

  /** The body of `POST /bookings`. */
  datatype BookingRequest = BookingRequest(
    propertyId: string,
    bookingType: string,
    paymentMethod: string,
    amount: int,
    contactInfo: ContactInfo)

  /** A `booking:<id>` record. */
  datatype Booking = Booking(
    id: string,
    propertyId: string,
    customerId: string,
    customerName: string,
    customerEmail: string,
    ownerId: string,
    bookingType: string,
    paymentMethod: string,
    amount: int,
    contactInfo: ContactInfo,
    status: string,
    createdAt: int)
}
