/**
 * The backend's handlers as one object over the key-value store. Each map or per-user list
 * below is one family of keys; a handler reads what it needs, changes it and writes it back.
 * The caller is the identity the bearer token resolved to (`None` when the token is missing
 * or rejected), and fresh ids and the clock are parameters.
 */
module Server {
  import opened Wrappers
  import opened Seqs
  import opened Records
  import opened Registry
  import opened Inbox
  import opened Favorites
  import opened Ledger
  import Listing

  /** Prepend each recipient's own entry to that recipient's inbox. */
  function NotifyAll(inboxes: map<string, seq<Notification>>, notes: map<string, Notification>)
    : (r: map<string, seq<Notification>>)
    ensures r.Keys == inboxes.Keys + notes.Keys
    ensures forall u :: u in notes ==> Lookup(r, u) == [notes[u]] + Lookup(inboxes, u)
    ensures forall u :: u !in notes ==> Lookup(r, u) == Lookup(inboxes, u)
  {
    map u | u in inboxes.Keys + notes.Keys :: if u in notes then [notes[u]] + Lookup(inboxes, u) else inboxes[u]
  }

  /** Notifying one more of the pending recipients is one more prepend. */
  lemma NotifyOneMore(inboxes: map<string, seq<Notification>>, notes: map<string, Notification>,
                      pending: set<string>, a: string)
    requires a in pending && pending <= notes.Keys
    ensures NotifyAll(inboxes, notes - (pending - {a})) ==
            Prepend(NotifyAll(inboxes, notes - pending), a, notes[a])
  {
    var done := notes - pending;
    var more := notes - (pending - {a});
    assert more.Keys == done.Keys + {a};
    var lhs := NotifyAll(inboxes, more);
    var rhs := Prepend(NotifyAll(inboxes, done), a, notes[a]);
    assert lhs.Keys == rhs.Keys;
    forall u | u in lhs.Keys ensures lhs[u] == rhs[u] {
      assert lhs[u] == Lookup(lhs, u) && rhs[u] == Lookup(rhs, u);
    }
  }

  /** The admin fan-out loop: for each recipient, read its inbox, `unshift` its entry, write it back. */
  method NotifyEach(inboxes: map<string, seq<Notification>>, notes: map<string, Notification>)
    returns (r: map<string, seq<Notification>>)
    ensures r == NotifyAll(inboxes, notes)
  {
    var pending := notes.Keys;
    r := inboxes;
    while pending != {}
      invariant pending <= notes.Keys
      invariant r == NotifyAll(inboxes, notes - pending)
      decreases pending
    {
      var recipient :| recipient in pending;
      NotifyOneMore(inboxes, notes, pending, recipient);
      var inbox := Lookup(r, recipient);
      inbox := [notes[recipient]] + inbox;
      r := r[recipient := inbox];
      pending := pending - {recipient};
    }
    assert notes - {} == notes;
  }

  /** The keys of a store, each once: the order of a prefix scan. */
  ghost predicate Enumerates(keys: seq<string>, m: map<string, Property>)
  {
    (forall i, j :: 0 <= i < j < |keys| ==> keys[i] != keys[j]) &&
    (forall k :: k in keys <==> k in m)
  }

  /** The values stored under `keys`, in that order. */
  function ValuesAt(m: map<string, Property>, keys: seq<string>): (r: seq<Property>)
    requires forall k :: k in keys ==> k in m
    ensures |r| == |keys|
    ensures forall i :: 0 <= i < |keys| ==> r[i] == m[keys[i]]
  {
    seq(|keys|, i requires 0 <= i < |keys| => m[keys[i]])
  }

  /** A prefix scan's key order: some enumeration of the stored keys, each once. */
  method EnumerateKeys(m: map<string, Property>) returns (keys: seq<string>)
    ensures Enumerates(keys, m)
  {
    keys := [];
    var rest := m.Keys;
    while rest != {}
      invariant rest <= m.Keys
      invariant forall k :: k in keys <==> k in m && k !in rest
      invariant forall i, j :: 0 <= i < j < |keys| ==> keys[i] != keys[j]
      decreases rest
    {
      var k :| k in rest;
      keys := keys + [k];
      rest := rest - {k};
    }
  }

  /** A scan over an enumeration of the keys yields exactly the stored values. */
  lemma ScanHoldsEveryValue(m: map<string, Property>, keys: seq<string>)
    requires Enumerates(keys, m)
    ensures forall p :: p in ValuesAt(m, keys) <==> p in m.Values
  {
    var scan := ValuesAt(m, keys);
    forall p | p in m.Values ensures p in scan {
      var k :| k in m && m[k] == p;
      var i :| 0 <= i < |keys| && keys[i] == k;
      assert scan[i] == p;
    }
  }

  class Backend {
    /** `user:<id>` */
    var users: map<string, Profile>
    /** `property:<id>` */
    var properties: map<string, Property>
    /** `booking:<id>` */
    var bookings: map<string, Booking>
    /** `user:<id>:properties` */
    var ownedProperties: map<string, seq<string>>
    /** `user:<id>:favorites` */
    var favorites: map<string, seq<string>>
    /** `user:<id>:bookings` */
    var userBookings: map<string, seq<string>>
    /** `user:<id>:notifications` */
    var notifications: map<string, seq<Notification>>
    /** `admin:initialized` */
    var adminInitialized: bool

    /** The booking index lists match the bookings. */
    ghost predicate Valid()
      reads this
    {
      IndexExact(userBookings, bookings)
    }

    /** An empty store. */
    constructor ()
      ensures Valid()
      ensures users == map[] && properties == map[] && bookings == map[]
      ensures ownedProperties == map[] && favorites == map[] && userBookings == map[] && notifications == map[]
      ensures !adminInitialized
    {
      users, properties, bookings := map[], map[], map[];
      ownedProperties, favorites, userBookings, notifications := map[], map[], map[], map[];
      adminInitialized := false;
    }

    /** `profile?.role === role`: a user without a profile has no role. */
    predicate HasRole(uid: string, role: Role)
      reads this
      ensures HasRole(uid, role) ==> uid in users
    {
      uid in users && users[uid].role == role
    }

    /**
     * The owner-or-admin guard of update and delete: an admin manages every record, anyone else
     * only a record naming them as owner, whether or not they have a profile.
     */
    predicate MayManage(uid: string, p: Property)
      reads this
      ensures HasRole(uid, Admin) ==> MayManage(uid, p)
      ensures !HasRole(uid, Admin) ==> (MayManage(uid, p) <==> p.ownerId == uid)
    {
      p.ownerId == uid || HasRole(uid, Admin)
    }

    /** The ids of the profiles whose role is admin. */
    function AdminIds(): (ids: set<string>)
      reads this
      ensures forall u :: u in ids <==> exists k :: k in users && users[k].role == Admin && users[k].id == u
    {
      set k | k in users && users[k].role == Admin :: users[k].id
    }

    /** Startup: store the system administrator's profile once, when the identity provider gave an id. */
    method InitializeAdmin(adminId: Option<string>, now: int)
      requires Valid()
      modifies this
      ensures Valid()
      ensures old(adminInitialized) || adminId.None? ==> unchanged(this)
      ensures !old(adminInitialized) && adminId.Some? ==>
        adminInitialized &&
        users == old(users)[adminId.value := Profile(adminId.value, "admin@realestateconnect.rw",
                                                     "System Administrator", Admin, true, false, now)] &&
        properties == old(properties) && bookings == old(bookings) && ownedProperties == old(ownedProperties) &&
        favorites == old(favorites) && userBookings == old(userBookings) && notifications == old(notifications)
    {
      if adminInitialized || adminId.None? {
        return;
      }
      users := users[adminId.value := Profile(adminId.value, "admin@realestateconnect.rw",
                                              "System Administrator", Admin, true, false, now)];
      adminInitialized := true;
    }

    /**
     * `POST /signup`: only `customer` and `owner` may be requested (400); a refusal by the identity
     * provider (`identity == None`) is a 400 too; otherwise the profile is stored under the new id.
     */
    method Signup(role: string, email: string, name: string, identity: Option<string>, now: int)
      returns (r: Outcome<Profile>)
      requires Valid()
      modifies this
      ensures Valid()
      ensures ParseSignupRole(role).None? || identity.None? ==> r == Err(BadRequest) && unchanged(this)
      ensures r.Ok? <==> ParseSignupRole(role).Some? && identity.Some?
      ensures r.Ok? ==>
        r.value == Profile(identity.value, email, name, ParseSignupRole(role).value, true, false, now) &&
        r.value.role != Admin &&
        users == old(users)[identity.value := r.value] &&
        properties == old(properties) && bookings == old(bookings) && ownedProperties == old(ownedProperties) &&
        favorites == old(favorites) && userBookings == old(userBookings) && notifications == old(notifications) &&
        adminInitialized == old(adminInitialized)
    {
      var parsed := ParseSignupRole(role);
      if parsed.None? || identity.None? {
        return Err(BadRequest);
      }
      var profile := Profile(identity.value, email, name, parsed.value, true, false, now);
      users := users[identity.value := profile];
      r := Ok(profile);
    }

    /** `GET /notifications`: the caller's inbox, most recent first. */
    function GetNotifications(caller: Option<string>): (r: Outcome<seq<Notification>>)
      reads this
      ensures caller.None? <==> r == Err(Unauthorized)
      ensures r.Ok? <==> caller.Some?
      ensures r.Ok? ==> r.value == Lookup(notifications, caller.value)
    {
      if caller.None? then Err(Unauthorized) else Ok(Lookup(notifications, caller.value))
    }

    /** `PUT /notifications/:id/read`: mark the caller's matching entries read; an unknown id still succeeds. */
    method MarkNotificationRead(caller: Option<string>, notificationId: string) returns (r: Outcome<bool>)
      requires Valid()
      modifies this
      ensures Valid()
      ensures caller.None? <==> r == Err(Unauthorized)
      ensures r.Ok? <==> caller.Some?
      ensures r.Err? ==> unchanged(this)
      ensures r.Ok? ==>
        r.value &&
        notifications == old(notifications)[caller.value := MarkRead(old(Lookup(notifications, caller.value)), notificationId)] &&
        users == old(users) && properties == old(properties) && bookings == old(bookings) &&
        ownedProperties == old(ownedProperties) && favorites == old(favorites) &&
        userBookings == old(userBookings) && adminInitialized == old(adminInitialized)
    {
      if caller.None? {
        return Err(Unauthorized);
      }
      var uid := caller.value;
      var inbox := Lookup(notifications, uid);
      notifications := notifications[uid := MarkRead(inbox, notificationId)];
      r := Ok(true);
    }

    /**
     * `POST /properties`: only a caller whose profile role is `owner` may list (403). The record is
     * stored under the fresh id, the id is pushed to the owner's property list, and every admin's
     * inbox receives one `property_listed` entry at the front.
     */
    method CreateProperty(caller: Option<string>, body: Patch, propertyId: string, now: int,
                          noteId: string -> string) returns (r: Outcome<Property>)
      requires Valid()
      requires propertyId !in properties
      modifies this
      ensures Valid()
      ensures caller.None? ==> r == Err(Unauthorized)
      ensures caller.Some? && !old(HasRole(caller.value, Owner)) ==> r == Err(Forbidden)
      ensures caller.Some? && old(HasRole(caller.value, Owner)) ==> r.Ok?
      ensures r.Err? ==> unchanged(this)
      ensures r.Ok? ==>
        caller.Some? && old(HasRole(caller.value, Owner)) &&
        r.value == NewListing(propertyId, body, caller.value, old(users[caller.value]), now) &&
        properties == old(properties)[propertyId := r.value] &&
        ownedProperties == Append(old(ownedProperties), caller.value, propertyId) &&
        notifications == NotifyAll(old(notifications),
                                   ListedNotes(noteId, old(AdminIds()), propertyId, r.value.title, r.value.ownerName, now)) &&
        users == old(users) && bookings == old(bookings) && favorites == old(favorites) &&
        userBookings == old(userBookings) && adminInitialized == old(adminInitialized)
    {
      if caller.None? {
        return Err(Unauthorized);
      }
      var uid := caller.value;
      if !HasRole(uid, Owner) {
        return Err(Forbidden);
      }
      var profile := users[uid];
      var listing := NewListing(propertyId, body, uid, profile, now);
      var notes := ListedNotes(noteId, AdminIds(), propertyId, listing.title, profile.name, now);
      var inboxes := NotifyEach(notifications, notes);
      properties := properties[propertyId := listing];
      var owned := Lookup(ownedProperties, uid);
      owned := owned + [propertyId];
      ownedProperties := ownedProperties[uid := owned];
      notifications := inboxes;
      r := Ok(listing);
    }

    /**
     * `GET /properties`: scan every `property:` key in some order, keep the valid records that pass
     * the query, newest first.
     */
    method GetProperties(q: Listing.Query) returns (r: seq<Property>)
      ensures exists keys :: Enumerates(keys, properties) &&
                             r == Listing.ListProperties(ValuesAt(properties, keys), q)
      ensures forall p :: p in r <==> p in properties.Values && Listing.IsListable(p) && Listing.Admits(p, q)
      ensures Listing.NewestFirst(r)
    {
      var keys := EnumerateKeys(properties);
      var scan := ValuesAt(properties, keys);
      r := Listing.ListProperties(scan, q);
      Listing.ListingMembers(scan, q);
      ScanHoldsEveryValue(properties, keys);
    }

    /** `GET /properties/:id`. */
    function GetProperty(id: string): (r: Outcome<Property>)
      reads this
      ensures r.Ok? <==> id in properties
      ensures r.Ok? ==> r.value == properties[id]
      ensures r.Err? ==> r.error == NotFound
    {
      if id in properties then Ok(properties[id]) else Err(NotFound)
    }

    /**
     * `PUT /properties/:id`: 404 for an unknown id, then 403 unless the caller owns the record or
     * is an admin; otherwise the body is spread over the record and nothing else changes.
     */
    method UpdateProperty(caller: Option<string>, id: string, patch: Patch) returns (r: Outcome<Property>)
      requires Valid()
      modifies this
      ensures Valid()
      ensures caller.None? ==> r == Err(Unauthorized)
      ensures caller.Some? && id !in old(properties) ==> r == Err(NotFound)
      ensures caller.Some? && id in old(properties) && !old(MayManage(caller.value, properties[id])) ==>
                r == Err(Forbidden)
      ensures caller.Some? && id in old(properties) && old(MayManage(caller.value, properties[id])) ==> r.Ok?
      ensures r.Err? ==> unchanged(this)
      ensures r.Ok? ==>
        caller.Some? && id in old(properties) && old(MayManage(caller.value, properties[id])) &&
        r.value == Merge(old(properties[id]), patch) &&
        properties == old(properties)[id := r.value] &&
        users == old(users) && bookings == old(bookings) && ownedProperties == old(ownedProperties) &&
        favorites == old(favorites) && userBookings == old(userBookings) &&
        notifications == old(notifications) && adminInitialized == old(adminInitialized)
    {
      if caller.None? {
        return Err(Unauthorized);
      }
      var uid := caller.value;
      if id !in properties {
        return Err(NotFound);
      }
      var property := properties[id];
      if !MayManage(uid, property) {
        return Err(Forbidden);
      }
      var updated := Merge(property, patch);
      properties := properties[id := updated];
      r := Ok(updated);
    }

    /**
     * `DELETE /properties/:id`: same guards as update; only the `property:` record goes, every
     * index list (owner's properties, favorites) keeps the id.
     */
    method DeleteProperty(caller: Option<string>, id: string) returns (r: Outcome<bool>)
      requires Valid()
      modifies this
      ensures Valid()
      ensures caller.None? ==> r == Err(Unauthorized)
      ensures caller.Some? && id !in old(properties) ==> r == Err(NotFound)
      ensures caller.Some? && id in old(properties) && !old(MayManage(caller.value, properties[id])) ==>
                r == Err(Forbidden)
      ensures caller.Some? && id in old(properties) && old(MayManage(caller.value, properties[id])) ==> r.Ok?
      ensures r.Err? ==> unchanged(this)
      ensures r.Ok? ==>
        caller.Some? && id in old(properties) && old(MayManage(caller.value, properties[id])) &&
        properties == old(properties) - {id} &&
        users == old(users) && bookings == old(bookings) && ownedProperties == old(ownedProperties) &&
        favorites == old(favorites) && userBookings == old(userBookings) &&
        notifications == old(notifications) && adminInitialized == old(adminInitialized)
    {
      if caller.None? {
        return Err(Unauthorized);
      }
      var uid := caller.value;
      if id !in properties {
        return Err(NotFound);
      }
      if !MayManage(uid, properties[id]) {
        return Err(Forbidden);
      }
      properties := properties - {id};
      r := Ok(true);
    }

    /** `POST /favorites`: push the id unless already there (no write then); answers the list. */
    method AddFavorite(caller: Option<string>, propertyId: string) returns (r: Outcome<seq<string>>)
      requires Valid()
      modifies this
      ensures Valid()
      ensures caller.None? <==> r == Err(Unauthorized)
      ensures r.Ok? <==> caller.Some?
      ensures r.Err? ==> unchanged(this)
      ensures r.Ok? ==>
        r.value == WithFavorite(old(Lookup(favorites, caller.value)), propertyId) &&
        (propertyId in old(Lookup(favorites, caller.value)) ==> favorites == old(favorites)) &&
        (propertyId !in old(Lookup(favorites, caller.value)) ==> favorites == old(favorites)[caller.value := r.value]) &&
        users == old(users) && properties == old(properties) && bookings == old(bookings) &&
        ownedProperties == old(ownedProperties) && userBookings == old(userBookings) &&
        notifications == old(notifications) && adminInitialized == old(adminInitialized)
    {
      if caller.None? {
        return Err(Unauthorized);
      }
      var uid := caller.value;
      var favs := Lookup(favorites, uid);
      if propertyId !in favs {
        favs := favs + [propertyId];
        favorites := favorites[uid := favs];
      }
      r := Ok(favs);
    }

    /** `DELETE /favorites/:propertyId`: filter the id out and write the list back. */
    method RemoveFavorite(caller: Option<string>, propertyId: string) returns (r: Outcome<seq<string>>)
      requires Valid()
      modifies this
      ensures Valid()
      ensures caller.None? <==> r == Err(Unauthorized)
      ensures r.Ok? <==> caller.Some?
      ensures r.Err? ==> unchanged(this)
      ensures r.Ok? ==>
        r.value == WithoutFavorite(old(Lookup(favorites, caller.value)), propertyId) &&
        favorites == old(favorites)[caller.value := r.value] &&
        users == old(users) && properties == old(properties) && bookings == old(bookings) &&
        ownedProperties == old(ownedProperties) && userBookings == old(userBookings) &&
        notifications == old(notifications) && adminInitialized == old(adminInitialized)
    {
      if caller.None? {
        return Err(Unauthorized);
      }
      var uid := caller.value;
      var updated := WithoutFavorite(Lookup(favorites, uid), propertyId);
      favorites := favorites[uid := updated];
      r := Ok(updated);
    }

    /** `GET /favorites`: the caller's favorite ids resolved, dropping those whose record is gone. */
    function ListFavorites(caller: Option<string>): (r: Outcome<seq<Property>>)
      reads this
      ensures caller.None? <==> r == Err(Unauthorized)
      ensures r.Ok? <==> caller.Some?
      ensures r.Ok? ==>
        (forall p :: p in r.value ==>
           exists k :: k in Lookup(favorites, caller.value) && k in properties && properties[k] == p) &&
        (forall k :: k in Lookup(favorites, caller.value) && k in properties ==> properties[k] in r.value)
      ensures r.Ok? ==>
        var found := Resolvable(Lookup(favorites, caller.value), properties);
        |r.value| == |found| &&
        forall i :: 0 <= i < |r.value| ==> found[i] in properties && r.value[i] == properties[found[i]]
    {
      if caller.None? then Err(Unauthorized)
      else Ok(FavoriteProperties(Lookup(favorites, caller.value), properties))
    }

    /**
     * `PUT /admin/properties/:id/approve`: admin only (403), then 404 for an unknown id; the record
     * is approved and stamped whatever its status was, and the owner's inbox gets one
     * `property_approved` entry at the front.
     */
    method ApproveProperty(caller: Option<string>, propertyId: string, now: int, noteId: string)
      returns (r: Outcome<Property>)
      requires Valid()
      modifies this
      ensures Valid()
      ensures caller.None? ==> r == Err(Unauthorized)
      ensures caller.Some? && !old(HasRole(caller.value, Admin)) ==> r == Err(Forbidden)
      ensures caller.Some? && old(HasRole(caller.value, Admin)) && propertyId !in old(properties) ==>
                r == Err(NotFound)
      ensures caller.Some? && old(HasRole(caller.value, Admin)) && propertyId in old(properties) ==> r.Ok?
      ensures r.Err? ==> unchanged(this)
      ensures r.Ok? ==>
        caller.Some? && old(HasRole(caller.value, Admin)) && propertyId in old(properties) &&
        r.value == ApprovedRecord(old(properties[propertyId]), caller.value, now) &&
        properties == old(properties)[propertyId := r.value] &&
        notifications == Prepend(old(notifications), r.value.ownerId,
                                 ApprovedNote(noteId, propertyId, r.value.title, now)) &&
        users == old(users) && bookings == old(bookings) && ownedProperties == old(ownedProperties) &&
        favorites == old(favorites) && userBookings == old(userBookings) &&
        adminInitialized == old(adminInitialized)
    {
      if caller.None? {
        return Err(Unauthorized);
      }
      var uid := caller.value;
      if !HasRole(uid, Admin) {
        return Err(Forbidden);
      }
      if propertyId !in properties {
        return Err(NotFound);
      }
      var property := ApprovedRecord(properties[propertyId], uid, now);
      properties := properties[propertyId := property];
      var inbox := Lookup(notifications, property.ownerId);
      inbox := [ApprovedNote(noteId, propertyId, property.title, now)] + inbox;
      notifications := notifications[property.ownerId := inbox];
      r := Ok(property);
    }

    /**
     * `PUT /admin/properties/:id/reject`: as approve, with the rejection stamps, the reason (or
     * "No reason provided") and one `property_rejected` entry quoting it.
     */
    method RejectProperty(caller: Option<string>, propertyId: string, reason: string, now: int, noteId: string)
      returns (r: Outcome<Property>)
      requires Valid()
      modifies this
      ensures Valid()
      ensures caller.None? ==> r == Err(Unauthorized)
      ensures caller.Some? && !old(HasRole(caller.value, Admin)) ==> r == Err(Forbidden)
      ensures caller.Some? && old(HasRole(caller.value, Admin)) && propertyId !in old(properties) ==>
                r == Err(NotFound)
      ensures caller.Some? && old(HasRole(caller.value, Admin)) && propertyId in old(properties) ==> r.Ok?
      ensures r.Err? ==> unchanged(this)
      ensures r.Ok? ==>
        caller.Some? && old(HasRole(caller.value, Admin)) && propertyId in old(properties) &&
        r.value == RejectedRecord(old(properties[propertyId]), caller.value, reason, now) &&
        properties == old(properties)[propertyId := r.value] &&
        notifications == Prepend(old(notifications), r.value.ownerId,
                                 RejectedNote(noteId, propertyId, r.value.title, r.value.rejectionReason, now)) &&
        users == old(users) && bookings == old(bookings) && ownedProperties == old(ownedProperties) &&
        favorites == old(favorites) && userBookings == old(userBookings) &&
        adminInitialized == old(adminInitialized)
    {
      if caller.None? {
        return Err(Unauthorized);
      }
      var uid := caller.value;
      if !HasRole(uid, Admin) {
        return Err(Forbidden);
      }
      if propertyId !in properties {
        return Err(NotFound);
      }
      var property := RejectedRecord(properties[propertyId], uid, reason, now);
      properties := properties[propertyId := property];
      var inbox := Lookup(notifications, property.ownerId);
      inbox := [RejectedNote(noteId, propertyId, property.title, property.rejectionReason, now)] + inbox;
      notifications := notifications[property.ownerId := inbox];
      r := Ok(property);
    }

    /**
     * `POST /bookings`: customers only (403), an existing property (404) whose status is
     * `approved` (400). The pending booking is stored under the fresh id and the id is pushed to
     * the customer's list, then to the property owner's list.
     */
    method CreateBooking(caller: Option<string>, req: BookingRequest, bookingId: string, now: int)
      returns (r: Outcome<Booking>)
      requires Valid()
      requires bookingId !in bookings
      modifies this
      ensures Valid()
      ensures caller.None? ==> r == Err(Unauthorized)
      ensures caller.Some? && !old(HasRole(caller.value, Customer)) ==> r == Err(Forbidden)
      ensures caller.Some? && old(HasRole(caller.value, Customer)) && req.propertyId !in old(properties) ==>
                r == Err(NotFound)
      ensures caller.Some? && old(HasRole(caller.value, Customer)) && req.propertyId in old(properties) &&
                old(properties[req.propertyId].status) != StatusApproved ==>
                r == Err(BadRequest)
      ensures (caller.Some? && old(HasRole(caller.value, Customer)) && req.propertyId in old(properties) &&
               old(properties[req.propertyId].status) == StatusApproved) ==>
                r.Ok?
      ensures r.Err? ==> unchanged(this)
      ensures r.Ok? ==>
        caller.Some? && old(HasRole(caller.value, Customer)) && req.propertyId in old(properties) &&
        old(properties[req.propertyId].status) == StatusApproved &&
        r.value == NewBooking(bookingId, req, caller.value, old(users[caller.value]),
                              old(properties[req.propertyId].ownerId), now) &&
        bookings == old(bookings)[bookingId := r.value] &&
        userBookings == IndexBooking(old(userBookings), caller.value, r.value.ownerId, bookingId) &&
        users == old(users) && properties == old(properties) && ownedProperties == old(ownedProperties) &&
        favorites == old(favorites) && notifications == old(notifications) &&
        adminInitialized == old(adminInitialized)
    {
      if caller.None? {
        return Err(Unauthorized);
      }
      var uid := caller.value;
      if !HasRole(uid, Customer) {
        return Err(Forbidden);
      }
      if req.propertyId !in properties {
        return Err(NotFound);
      }
      var property := properties[req.propertyId];
      if property.status != StatusApproved {
        return Err(BadRequest);
      }
      var booking := NewBooking(bookingId, req, uid, users[uid], property.ownerId, now);
      CreateKeepsIndexExact(userBookings, bookings, booking);
      bookings := bookings[bookingId := booking];

      var customerBookings := Lookup(userBookings, uid);
      customerBookings := customerBookings + [bookingId];
      userBookings := userBookings[uid := customerBookings];

      var ownerBookings := Lookup(userBookings, property.ownerId);
      ownerBookings := ownerBookings + [bookingId];
      userBookings := userBookings[property.ownerId := ownerBookings];
      r := Ok(booking);
    }

    /**
     * `GET /bookings`: the caller's indexed bookings, each joined with its property (or the
     * "Property Unavailable" stand-in); these are exactly the bookings in which the caller is the
     * customer or the owner.
     */
    function ListBookings(caller: Option<string>): (r: Outcome<seq<BookingView>>)
      requires Valid()
      reads this
      ensures caller.None? <==> r == Err(Unauthorized)
      ensures r.Ok? <==> caller.Some?
      ensures r.Ok? ==>
        (forall v :: v in r.value ==>
           v.booking in bookings.Values &&
           (v.booking.customerId == caller.value || v.booking.ownerId == caller.value) &&
           v.property == PropertyOr(properties, v.booking.propertyId)) &&
        (forall k :: k in bookings && (bookings[k].customerId == caller.value || bookings[k].ownerId == caller.value) ==>
           BookingView(bookings[k], PropertyOr(properties, bookings[k].propertyId)) in r.value)
      ensures r.Ok? ==>
        var found := Resolvable(Lookup(userBookings, caller.value), bookings);
        |r.value| == |found| &&
        forall i :: 0 <= i < |r.value| ==>
          found[i] in bookings &&
          r.value[i] == BookingView(bookings[found[i]], PropertyOr(properties, bookings[found[i]].propertyId))
    {
      if caller.None? then Err(Unauthorized)
      else
        ListedBookingsAreExactlyOwn(userBookings, bookings, properties, caller.value);
        Ok(BookingViews(Lookup(userBookings, caller.value), bookings, properties))
    }

    /**
     * `PUT /bookings/:id`: 404 for an unknown booking, 403 unless the caller is its `ownerId`;
     * the requested status is written whatever the current one is.
     */
    method UpdateBookingStatus(caller: Option<string>, bookingId: string, status: string)
      returns (r: Outcome<Booking>)
      requires Valid()
      modifies this
      ensures Valid()
      ensures caller.None? ==> r == Err(Unauthorized)
      ensures caller.Some? && bookingId !in old(bookings) ==> r == Err(NotFound)
      ensures caller.Some? && bookingId in old(bookings) && old(bookings[bookingId].ownerId) != caller.value ==>
                r == Err(Forbidden)
      ensures caller.Some? && bookingId in old(bookings) && old(bookings[bookingId].ownerId) == caller.value ==>
                r.Ok?
      ensures r.Err? ==> unchanged(this)
      ensures r.Ok? ==>
        caller.Some? && bookingId in old(bookings) && old(bookings[bookingId].ownerId) == caller.value &&
        r.value == WithStatus(old(bookings[bookingId]), status) &&
        bookings == old(bookings)[bookingId := r.value] &&
        users == old(users) && properties == old(properties) && ownedProperties == old(ownedProperties) &&
        favorites == old(favorites) && userBookings == old(userBookings) &&
        notifications == old(notifications) && adminInitialized == old(adminInitialized)
    {
      if caller.None? {
        return Err(Unauthorized);
      }
      var uid := caller.value;
      if bookingId !in bookings {
        return Err(NotFound);
      }
      var booking := bookings[bookingId];
      if booking.ownerId != uid {
        return Err(Forbidden);
      }
      var updated := WithStatus(booking, status);
      var changed := bookings[bookingId := updated];
      StatusChangeKeepsIndexExact(userBookings, bookings, bookingId, status);
      assert IndexExact(userBookings, changed);
      bookings := changed;
      r := Ok(updated);
    }
  }
}
