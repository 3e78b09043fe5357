# Rental marketplace backend and browse filter, modelled in Dafny

This project models the core of a property-rental marketplace. Owners list properties.
Customers browse, favorite and book them. Administrators approve or reject listings, and
every party receives notifications.

The backend is one edge function. Each of its HTTP handlers resolves the caller from a bearer
token and then runs a read-modify-write step against a key-value store. The store keeps:

- `user:<id>` profiles;
- `property:<id>` and `booking:<id>` records;
- four per-user lists: `user:<id>:properties`, `:favorites`, `:bookings` and `:notifications`.

The model makes the store a class, `Server.Backend`, with one map field per key family. Each
mutating handler is a method of that class. Its postcondition names the answer (`Ok` with the
payload, or `Err` with 400/401/403/404) and states the whole new state: what changed and that
nothing else did. The invariant `Valid()` is kept by every handler. It says that the booking index lists agree with the bookings in both
directions. The pure parts of the handlers live in their own modules as functions with
lemmas:

- `Listing`: validation, filters and the newest-first sort of `GET /properties`;
- `Records`: the spread merge of `PUT /properties/:id`;
- `Registry`: the record a creation stores, the approve and reject stamps, the notification
  entries;
- `Inbox`: mark-read;
- `Favorites`: add, remove and resolve favorites;
- `Ledger`: booking records and the booking index;
- `Expiry`: the duration-to-offset switch of `calculateExpiryDate`.

The browse page's client-side filter, `filteredProperties`, and the validity filter applied to
fetched data are modelled in `PropertiesPage`. The lemma `PriceSemanticsDiffer` states the
place where the page and the backend disagree: a property without a price is kept by the
page's price bounds and dropped by the server's.

Conventions:

- The caller is `Option<string>`: `None` stands for a missing or rejected token, and the
  handler answers 401.
- Fresh ids from `crypto.randomUUID` are parameters. A fresh property or booking id must not
  be a key already in use. The ids of the notifications sent to admins come from a function
  of the recipient.
- Timestamps are integers, and `now` is a parameter.
- A JSON string field that may be missing is a `string`, with "" for the missing field. The
  handlers' truthiness and equality tests treat the two alike; the exceptions are listed under
  "Left out".
- A request body is a `Patch`: one `Option` per field. `Merge` is the object spread.
- The JSON field `type` of a property is `propertyType` here, because `type` is a Dafny
  keyword.
- The property status is stored as `'approved'` at creation, as the code does, even though
  other parts of the system expect a pending review step.

## Model

| member | source | states |
|---|---|---|
| `Seqs.Lookup` | src/supabase/functions/server/index.tsx:549 | a per-user list read with `\|\| []`: a missing key reads as the empty list, a present key as its list |
| `Seqs.Append` | src/supabase/functions/server/index.tsx:335-337 | read, `push`, write back: the key's list gains the entry at its end and every other user's list reads as before |
| `Seqs.Prepend` | src/supabase/functions/server/index.tsx:648-658 | read, `unshift`, write back: the key's list gains the entry at its front and every other user's list reads as before |
| `Seqs.Filter` | src/supabase/functions/server/index.tsx:578 | `Array.prototype.filter`: the result is no longer than the input and holds exactly the input's elements that pass the test |
| `Seqs.FilterCount` | src/supabase/functions/server/index.tsx:578 | a filter keeps every passing element exactly as often as it occurs and drops every failing one |
| `Seqs.FilterIsSubsequence` | src/components/PropertiesPage.tsx:151-181 | a filter keeps the surviving elements in their original order |
| `Seqs.FilterKeepsAll` | src/supabase/functions/server/index.tsx:578 | a filter whose test every element passes returns its input unchanged |
| `Seqs.FilterAppend` | src/supabase/functions/server/index.tsx:578 | filtering a concatenation is the concatenation of the filtered parts |
| `Text.LowerChar` | src/supabase/functions/server/index.tsx:414 | `toLowerCase` on one character maps A-Z to a-z (code plus 32) and leaves every other character alone |
| `Text.Lower` | src/supabase/functions/server/index.tsx:414 | `toLowerCase` keeps the length and lower-cases every position |
| `Text.LowerIdempotent` | src/supabase/functions/server/index.tsx:414 | lower-casing twice is lower-casing once |
| `Text.Includes` | src/supabase/functions/server/index.tsx:414 | `includes` is true exactly when the needle occurs at some position of the string |
| `Text.IncludesEmpty` | src/supabase/functions/server/index.tsx:414 | every string includes the empty string |
| `Text.EmptyFieldNeverMatches` | src/supabase/functions/server/index.tsx:414 | a non-empty query never matches a missing or empty field |
| `Text.MatchIgnoresFieldCase` | src/supabase/functions/server/index.tsx:414 | the case-insensitive match gives the same answer whether or not the field was lower-cased first |
| `Expiry.DurationOffset` | src/supabase/functions/server/index.tsx:940-962 | each of the five duration names adds its own offset; any other value takes the default branch, one month |
| `Expiry.DurationName` | src/supabase/functions/server/index.tsx:942-960 | every offset the switch can produce has a known duration name |
| `Expiry.DurationRoundTrip` | src/supabase/functions/server/index.tsx:942-960 | name to offset to name is the identity on the known names, so distinct names give distinct offsets |
| `Expiry.OffsetRoundTrip` | src/supabase/functions/server/index.tsx:942-960 | offset to name to offset is the identity on the offsets the switch produces |
| `Expiry.CalculateExpiryDate` | src/supabase/functions/server/index.tsx:940-962 | the expiry is `now` moved by a known offset, and by one month for an unknown or missing duration |
| `Records.RoleName` | src/supabase/functions/server/index.tsx:99-102 | every role has a non-empty name |
| `Records.ParseSignupRole` | src/supabase/functions/server/index.tsx:99-102 | a signup role is accepted exactly when it is `customer` or `owner`; an accepted role is never admin and carries the requested name |
| `Records.SignupRoleRoundTrip` | src/supabase/functions/server/index.tsx:99-102 | every non-admin role is accepted under its own name |
| `Records.Merge` | src/supabase/functions/server/index.tsx:491 | an update body that sends `id`, `ownerId` or `status` rewrites that field of the stored record |
| `Records.MergeOverrides` | src/supabase/functions/server/index.tsx:491 | for each of the record's 22 fields, the shallow merge takes the value the patch sent and keeps the old value when it sent none |
| `Records.MergeEmpty` | src/supabase/functions/server/index.tsx:491 | an empty patch leaves the record unchanged |
| `Records.MergeIdempotent` | src/supabase/functions/server/index.tsx:491 | applying the same patch twice is applying it once |
| `Records.MergeSequential` | src/supabase/functions/server/index.tsx:491 | two updates in a row equal one update whose later fields win |
| `Registry.Blank` | src/supabase/functions/server/index.tsx:316-317 | the record a body is spread into holds only the fresh id |
| `Registry.NewListing` | src/supabase/functions/server/index.tsx:316-325 | a created record is `approved`, is stamped with the caller as owner and the profile's name and email, is created now, and expires by the body's duration |
| `Registry.NewListingKeepsBody` | src/supabase/functions/server/index.tsx:316-325 | every body field the server does not overwrite is stored as sent (content fields, duration, and the approval and rejection stamps), and an `id` in the body replaces the fresh id |
| `Registry.BodyIdOverridesFreshId` | src/supabase/functions/server/index.tsx:316-318 | for every body that sends an `id` other than the fresh one, the stored record's `id` differs from the key it is stored under |
| `Registry.ReasonOrDefault` | src/supabase/functions/server/index.tsx:700 | a rejection reason is never empty: the reason sent, or "No reason provided" when none was sent |
| `Registry.ApprovedRecord` | src/supabase/functions/server/index.tsx:641-645 | approval sets status `approved`, `approvedAt` and `approvedBy`, and changes no other field |
| `Registry.RejectedRecord` | src/supabase/functions/server/index.tsx:696-701 | rejection sets status `rejected`, the rejection stamps and a non-empty reason (the one sent, if any), and changes no other field |
| `Registry.DecisionsIgnoreCurrentStatus` | src/supabase/functions/server/index.tsx:641-700 | neither decision checks the current status: approval after rejection approves, rejection keeps earlier approval stamps, and re-approving at the same instant changes nothing |
| `Registry.ListedNote` | src/supabase/functions/server/index.tsx:347-356 | the admin's entry is an unread `property_listed` entry for the new property |
| `Registry.ListedNotes` | src/supabase/functions/server/index.tsx:345-358 | the fan-out prepares one `property_listed` entry per recipient, under that recipient's fresh id, and none for anyone else |
| `Registry.ApprovedNote` | src/supabase/functions/server/index.tsx:649-657 | the owner's entry is an unread `property_approved` entry for the property |
| `Registry.RejectedNote` | src/supabase/functions/server/index.tsx:705-713 | the owner's entry is an unread `property_rejected` entry for the property |
| `Inbox.AsRead` | src/supabase/functions/server/index.tsx:281 | `{ ...n, read: true }` sets `read` and keeps every other field |
| `Inbox.MarkRead` | src/supabase/functions/server/index.tsx:280-282 | mark-read keeps the length and order; an entry with the id becomes read and every other entry is unchanged |
| `Inbox.MarkReadClearsId` | src/supabase/functions/server/index.tsx:280-282 | afterwards no entry with that id is unread, and every position keeps its id |
| `Inbox.MarkReadUnknownIsNoop` | src/supabase/functions/server/index.tsx:277-285 | an id that matches no entry leaves the inbox as it was |
| `Inbox.MarkReadIdempotent` | src/supabase/functions/server/index.tsx:280-282 | marking the same id twice is marking it once |
| `Inbox.MarkReadCommutes` | src/supabase/functions/server/index.tsx:280-282 | marking two ids gives the same inbox in either order |
| `Favorites.WithFavorite` | src/supabase/functions/server/index.tsx:551-554 | the id ends up in the list; an id already present leaves the list unchanged, a new one is appended at the end |
| `Favorites.WithoutFavorite` | src/supabase/functions/server/index.tsx:578 | removal leaves exactly the ids different from the removed one |
| `Favorites.AddIdempotent` | src/supabase/functions/server/index.tsx:551-554 | adding the same id twice gives the list a single add gives |
| `Favorites.AddTwiceKeepsOneCopy` | src/supabase/functions/server/index.tsx:551-554 | after two adds of a new id it occurs exactly once, and every other id occurs as often as before |
| `Favorites.RemoveKeepsOthersInOrder` | src/supabase/functions/server/index.tsx:578-579 | removal drops every occurrence of the id and keeps every other id, as often as before and in order |
| `Favorites.RemoveUndoesAdd` | src/supabase/functions/server/index.tsx:551-579 | removing an id just added to a list that lacked it restores the list |
| `Seqs.Resolvable` | src/supabase/functions/server/index.tsx:607 | the ids whose lookup survives the null filter are exactly the listed ids that have a record, as a subsequence of the list (list order), each as often as it is listed; when every id resolves, the whole list |
| `Favorites.Fetched` | src/supabase/functions/server/index.tsx:601-603 | the `map` over resolving ids yields one record per id, position by position |
| `Favorites.FetchedMembers` | src/supabase/functions/server/index.tsx:601-603 | the fetched records are exactly the records of the fetched ids |
| `Favorites.FavoriteProperties` | src/supabase/functions/server/index.tsx:600-608 | the resolved favorites are stored properties named in the list, every listed id that still has a record is resolved, and the result has one entry per resolving id, in list order, repeats included |
| `Ledger.NewBooking` | src/supabase/functions/server/index.tsx:784-798 | a new booking is `pending`, carries the request, the customer's id, name and email, and the property's `ownerId`, and is created now |
| `Ledger.WithStatus` | src/supabase/functions/server/index.tsx:889 | `{ ...booking, status }` sets the requested status and keeps every other field |
| `Ledger.IndexBooking` | src/supabase/functions/server/index.tsx:802-810 | after indexing, both the customer's and the owner's list hold the new id, every old list is a prefix of its new version, and only those two keys are added |
| `Ledger.IndexBookingGrowsBothLists` | src/supabase/functions/server/index.tsx:802-810 | the customer's and the owner's booking lists each grow by the new id at the end, the one list twice when customer and owner coincide, and no other list changes |
| `Ledger.CreateKeepsIndexExact` | src/supabase/functions/server/index.tsx:800-810 | storing a booking under a fresh id and indexing it keeps the booking index exact |
| `Ledger.StatusChangeKeepsIndexExact` | src/supabase/functions/server/index.tsx:889-890 | a status change keeps the booking index exact |
| `Ledger.PropertyOr` | src/supabase/functions/server/index.tsx:845-851 | a booking's property is its stored record, or the "Property Unavailable" / "N/A" stand-in when the record is gone |
| `Ledger.Joined` | src/supabase/functions/server/index.tsx:844-853 | the `map` over resolving ids yields one view per id, position by position |
| `Ledger.JoinedMembers` | src/supabase/functions/server/index.tsx:844-853 | the joined views are exactly the views of the joined ids |
| `Ledger.BookingViews` | src/supabase/functions/server/index.tsx:835-854 | every view is a stored booking named in the list joined with its property, every listed id that has a booking appears, and the result has one view per resolving id, in list order, repeats included |
| `Ledger.RepeatedIdShownTwice` | src/supabase/functions/server/index.tsx:835-854 | an id listed twice is shown twice |
| `Ledger.ListedBookingsAreExactlyOwn` | src/supabase/functions/server/index.tsx:835-856 | with an exact index, a user's booking list shows exactly the bookings in which the user is the customer or the owner |
| `Listing.ByLocation` | src/supabase/functions/server/index.tsx:412-416 | with a location given, exactly the entries whose location contains it ignoring case survive, each as often as before; without one, all survive |
| `Listing.ByStatus` | src/supabase/functions/server/index.tsx:417-421 | with a status given, exactly the entries with that status survive, each as often as before; without one, all survive |
| `Listing.ByMinPrice` | src/supabase/functions/server/index.tsx:422-424 | with a minimum given, exactly the entries whose price is truthy and at least the minimum survive; without one, all survive |
| `Listing.ByMaxPrice` | src/supabase/functions/server/index.tsx:425-427 | with a maximum given, exactly the entries whose price is truthy and at most the maximum survive; without one, all survive |
| `Listing.ByType` | src/supabase/functions/server/index.tsx:428-430 | with a type given, exactly the entries of that type survive, each as often as before; without one, all survive |
| `Listing.Insert` | src/supabase/functions/server/index.tsx:433-437 | inserting into a newest-first list keeps it newest first and adds exactly that element |
| `Listing.InsertedAreNotNewer` | src/supabase/functions/server/index.tsx:433-437 | an element inserted behind an older head leaves no element newer than the head behind it |
| `Listing.HeadFirst` | src/supabase/functions/server/index.tsx:433-437 | a head no older than every later entry extends a newest-first list |
| `Listing.SortNewestFirst` | src/supabase/functions/server/index.tsx:433-437 | the sort orders by creation time (0 when missing), newest first, and is a permutation of its input |
| `Listing.UndatedSortLast` | src/supabase/functions/server/index.tsx:434-435 | a record without `createdAt` sorts as time 0, so when all stored times are positive every undated record comes after every dated one |
| `Listing.ListProperties` | src/supabase/functions/server/index.tsx:385-437 | the listing is ordered newest first |
| `Listing.ListingCount` | src/supabase/functions/server/index.tsx:385-430 | each valid stored value that passes every supplied filter appears as often as the scan returned it, and no other value appears |
| `Listing.ListingMembers` | src/supabase/functions/server/index.tsx:385-430 | a value is listed exactly when it was scanned, has a truthy `id` and `title`, and passes every supplied filter |
| `Listing.PriceBoundExcludesFalsyPrice` | src/supabase/functions/server/index.tsx:422-427 | under any price bound, a property whose price is missing or zero is never listed |
| `Listing.UnfilteredListsEveryValid` | src/supabase/functions/server/index.tsx:385-402 | with no query, every valid stored value is listed and nothing else |
| `PropertiesPage.FetchedProperties` | src/components/PropertiesPage.tsx:67-69 | a missing array gives no properties; otherwise the kept entries are exactly the non-null ones with a truthy `id` and `title` |
| `PropertiesPage.KeepValid` | src/components/PropertiesPage.tsx:67-69 | the filter over a present array keeps exactly the non-null entries with a truthy `id` and `title` |
| `PropertiesPage.FetchKeepsListing` | src/components/PropertiesPage.tsx:67-69 | a listing whose records all have an `id` and a `title` passes the fetch filter unchanged |
| `PropertiesPage.PageAdmits` | src/components/PropertiesPage.tsx:151-181 | the early-return chain admits a property exactly when it has an id, matches a non-empty search in location or title ignoring case, has the selected type unless "all", and has no truthy price outside the given bounds |
| `PropertiesPage.FilteredProperties` | src/components/PropertiesPage.tsx:151-181 | the page shows no more entries than it fetched, and exactly the fetched entries the predicate admits |
| `PropertiesPage.FilteredMembers` | src/components/PropertiesPage.tsx:151-181 | a property is shown exactly when it has an id, matches a non-empty search in its location or title ignoring case, has the selected type unless "all", and has a price that, if truthy, lies within the given bounds |
| `PropertiesPage.FilteredKeepsOrder` | src/components/PropertiesPage.tsx:151-181 | the filter returns a subsequence of its input and keeps each admitted entry as often as it occurs |
| `PropertiesPage.InitialShowsEveryEntryWithId` | src/components/PropertiesPage.tsx:151-181 | with every input empty, the page shows the entries that have an id, in order |
| `PropertiesPage.FalsyPricePassesBounds` | src/components/PropertiesPage.tsx:173-178 | for a property whose price is missing or zero, the price bounds make no difference |
| `PropertiesPage.PriceSemanticsDiffer` | src/components/PropertiesPage.tsx:173-178 | a property without a price passes the page's minimum price but is dropped by the server's listing under the same bound |
| `Server.NotifyAll` | src/supabase/functions/server/index.tsx:345-358 | each recipient's inbox gains its own entry at the front, and every other inbox reads as before |
| `Server.NotifyOneMore` | src/supabase/functions/server/index.tsx:345-358 | notifying one more recipient is one more prepend to that recipient's inbox |
| `Server.NotifyEach` | src/supabase/functions/server/index.tsx:345-358 | the fan-out loop, visiting the recipients in any order, produces the inboxes `NotifyAll` describes |
| `Server.EnumerateKeys` | src/supabase/functions/server/index.tsx:380 | the prefix scan visits every stored key exactly once, in some order |
| `Server.ValuesAt` | src/supabase/functions/server/index.tsx:381-392 | the prefix scan yields one stored value per key, in key order |
| `Server.ScanHoldsEveryValue` | src/supabase/functions/server/index.tsx:381-392 | a scan over an enumeration of the keys holds exactly the stored values |
| `Server.Backend.HasRole` | src/supabase/functions/server/index.tsx:309 | `profile?.role === role`: a user without a stored profile holds no role |
| `Server.Backend.MayManage` | src/supabase/functions/server/index.tsx:487 | an admin may update or delete every record; anyone else exactly the records whose `ownerId` names them, profile or not |
| `Server.Backend.AdminIds` | src/supabase/functions/server/index.tsx:340-343 | the recipients are exactly the `id` fields of the stored profiles whose role is admin |
| `Server.Backend.InitializeAdmin` | src/supabase/functions/server/index.tsx:43-88 | once initialized, or without an admin id, nothing changes; otherwise the admin profile is stored under its id, the flag is set, and nothing else changes |
| `Server.Backend.Signup` | src/supabase/functions/server/index.tsx:95-137 | a role other than customer or owner, or a refusal by the identity provider, is a 400 with no write; otherwise an active non-admin profile is stored under the new id and nothing else changes |
| `Server.Backend.GetNotifications` | src/supabase/functions/server/index.tsx:244-262 | 401 exactly without a caller; otherwise success with the caller's inbox, empty when none is stored |
| `Server.Backend.MarkNotificationRead` | src/supabase/functions/server/index.tsx:265-290 | 401 exactly without a caller; every caller succeeds, unknown id included, with only the caller's inbox replaced by its mark-read |
| `Server.Backend.CreateProperty` | src/supabase/functions/server/index.tsx:293-368 | 401 without a caller and 403 unless the caller's profile is an owner, with nothing written; an owner always succeeds, and then the new listing is stored under the fresh id, the id is appended to the owner's list, every admin's inbox gains one entry at the front, and nothing else changes |
| `Server.Backend.GetProperties` | src/supabase/functions/server/index.tsx:371-445 | the result is the listing of the store's values in some key order: exactly the stored valid records that pass the query, newest first |
| `Server.Backend.GetProperty` | src/supabase/functions/server/index.tsx:448-462 | the stored record under the id, or 404 when there is none |
| `Server.Backend.UpdateProperty` | src/supabase/functions/server/index.tsx:465-499 | 401, then 404 for an unknown id, then 403 unless the caller owns the record or is an admin, with nothing written; a permitted update of an existing record always succeeds, and only that record changes, to the shallow merge |
| `Server.Backend.DeleteProperty` | src/supabase/functions/server/index.tsx:502-533 | same guards as update, and a permitted delete of an existing record always succeeds; then only the property record goes, and every index list is untouched |
| `Server.Backend.AddFavorite` | src/supabase/functions/server/index.tsx:536-561 | 401 exactly without a caller; every caller succeeds, the answer is the list with the id added, the list is written only when the id was new, and nothing else changes |
| `Server.Backend.RemoveFavorite` | src/supabase/functions/server/index.tsx:563-586 | 401 exactly without a caller; every caller succeeds, the caller's list is replaced by its filtered version, which is also the answer |
| `Server.Backend.ListFavorites` | src/supabase/functions/server/index.tsx:588-613 | 401 exactly without a caller; otherwise success, every entry is the stored record of an id in the caller's favorites, and every favorite that still has a record is resolved; one entry per resolving favorite, in list order |
| `Server.Backend.ApproveProperty` | src/supabase/functions/server/index.tsx:617-668 | 401, then 403 for a non-admin, then 404 for an unknown id, with nothing written; an admin's decision on an existing record always succeeds, the record is approved and stamped, the owner's inbox gains exactly one entry at the front, and nothing else changes |
| `Server.Backend.RejectProperty` | src/supabase/functions/server/index.tsx:671-724 | as approve, including success whenever the guards pass, with the rejection stamps, the reason or its default, and one rejection entry quoting it |
| `Server.Backend.CreateBooking` | src/supabase/functions/server/index.tsx:756-820 | 401, then 403 for a non-customer, 404 for an unknown property, 400 unless the property is approved, with nothing written; a customer booking an approved property always succeeds, one pending booking is stored, its id is appended to the customer's and the owner's lists, and the index stays exact |
| `Server.Backend.ListBookings` | src/supabase/functions/server/index.tsx:823-861 | 401 exactly without a caller; otherwise success with exactly the caller's bookings as customer or owner, each joined with its property or the stand-in, one view per resolving id of the caller's list, in list order |
| `Server.Backend.UpdateBookingStatus` | src/supabase/functions/server/index.tsx:864-895 | 401, then 404 for an unknown booking, then 403 unless the caller is its owner, with nothing written; the owner's change always succeeds, and only that booking's status changes, to whatever was requested |

## Left out

- Token resolution, user creation and lookup in the identity provider are foreign calls. The caller is an already-resolved `Option<string>`, and the signup refusal is the input `identity == None`.
- Storage buckets, image upload and signed URLs (`initializeStorageBucket`, `POST /upload-image`) are foreign calls, so they are not modelled.
- `GET /profile` and `PUT /profile` are not modelled. They read or overwrite the caller's own profile record. `PUT /profile` spreads the request body over the stored profile (index.tsx:173-177), so a caller can rewrite their own `id` and `role`, for instance to `admin`, which gets past every role guard modelled here. The model does not promise that a profile's `id` matches its key.
- `Server.Backend.AdminIds` is a set, so two admin profiles whose `id` fields coincide yield one recipient here; the source loops over the profiles and prepends one entry per profile to that inbox. The modelled handlers store each profile under its own id, so this takes a profile rewritten by `PUT /profile`.
- `GET /admin/users` is not modelled. It is a read-only listing of stored values by key pattern.
- The debug endpoint is not modelled. It is a diagnostic dump.
- Routing, CORS, logging and the server loop are I/O.
- Every 500 answer is not modelled. A 500 comes from an exception thrown by the store or the platform.
- The key-value store's implementation is not part of this model. `get`, `set`, `del` and `getByPrefix` are map operations, and the order of a prefix scan is any enumeration of the keys.
- Concurrent requests and lost updates between interleaved read-modify-write sequences are not modelled. Each handler runs atomically.
- `Expiry.CalculateExpiryDate`: months are kept symbolic. The calendar arithmetic of `Date.setMonth` (day-of-month rollover, time zones) and the ISO string format are not modelled.
- The response to a successful signup is the identity provider's user object. Here it is the stored profile.
- Numeric query parameters and inputs are integers or absent. A non-numeric string, which `Number()` turns into `NaN`, and fractional prices and amounts are not modelled.
- JSON values of unexpected types are not modelled: a string price, a non-object array element other than `null`, and fields outside the record schemas.
- A missing JSON string field and an empty one are both "". Two kinds of place would tell them apart. A missing `title` is interpolated as "undefined" in the three notification message texts, `property_listed` (index.tsx:353), `property_approved` (index.tsx:654) and `property_rejected` (index.tsx:710), and so is a missing profile `name` in the `property_listed` text ("listed by undefined", index.tsx:353); the model's messages hold an empty title or name there; and the page's `property.type !== typeFilter` (PropertiesPage.tsx:168) would drop a property without `type` if the filter were "", a value the type select never produces.
- `toLowerCase` is modelled for ASCII letters only. Unicode case mapping is not modelled.
- `Listing.SortNewestFirst`: the sort is proved ordered and a permutation of its input. It is not proved stable (equal timestamps keeping scan order), although the runtime's sort is stable.
- `InitializeAdmin` stores `convertedToOwner` as false. The source record omits the field, and a missing field reads as false.
- The other pages and components are not part of this model: dashboards, details, cards, the upload form, navigation, login and signup forms, translations and the session context. This includes the deposit computation in the payment dialog, which is floating point inside a form, and the mock data the browse page shows when the fetch fails.
