/** The property lifecycle as record transformations: creation, admin decisions and their notifications. */
module Registry {
  import opened Wrappers
  import opened Expiry
  import opened Records

  const StatusApproved := "approved"
  const StatusRejected := "rejected"
  const DefaultReason := "No reason provided"

  /** The record a body is spread into: only the fresh id is set. */
  function Blank(propertyId: string): (p: Property)
    ensures p.id == propertyId && p.title == "" && p.status == "" && p.createdAt.None?
  {
    Property(propertyId, "", "", "", None, "", None, None, None, [], "", "", "", "", "",
             None, None, None, "", None, "", "")
  }

  /**
   * The record `POST /properties` stores: `{ id, ...body, ownerId, ownerName, ownerEmail,
   * status: 'approved', createdAt, expiryDate }`. The body is spread after the fresh id, so an
   * `id` sent in the body replaces it; the fields written after the spread always win.
   */
  function NewListing(propertyId: string, body: Patch, ownerId: string, owner: Profile, now: int): (p: Property)
    ensures p.status == StatusApproved && p.ownerId == ownerId
    ensures p.ownerName == owner.name && p.ownerEmail == owner.email
    ensures p.createdAt == Some(now)
    ensures p.expiryDate == Some(CalculateExpiryDate(body.duration.GetOr(""), now))
  {
    Merge(Blank(propertyId), body).(
      ownerId := ownerId,
      ownerName := owner.name,
      ownerEmail := owner.email,
      status := StatusApproved,
      createdAt := Some(now),
      expiryDate := Some(CalculateExpiryDate(body.duration.GetOr(""), now)))
  }

  /**
   * Create then get: the stored record is the body itself apart from the server-assigned fields;
   * in particular an `id` in the body survives and the fresh id is lost.
   */
  lemma NewListingKeepsBody(propertyId: string, body: Patch, ownerId: string, owner: Profile, now: int)
    ensures var p := NewListing(propertyId, body, ownerId, owner, now);
      p.id == body.id.GetOr(propertyId) &&
      p.title == body.title.GetOr("") && p.description == body.description.GetOr("") &&
      p.location == body.location.GetOr("") && p.price == body.price &&
      p.propertyType == body.propertyType.GetOr("") && p.images == body.images.GetOr([]) &&
      p.bedrooms == body.bedrooms && p.bathrooms == body.bathrooms && p.area == body.area &&
      p.duration == body.duration.GetOr("") &&
      p.approvedAt == body.approvedAt && p.approvedBy == body.approvedBy.GetOr("") &&
      p.rejectedAt == body.rejectedAt && p.rejectedBy == body.rejectedBy.GetOr("") &&
      p.rejectionReason == body.rejectionReason.GetOr("")
  {
  }

  /** An id in the body wins over the fresh one, so the record no longer names its own key. */
  lemma BodyIdOverridesFreshId(propertyId: string, body: Patch, ownerId: string, owner: Profile, now: int)
    requires body.id.Some? && body.id.value != propertyId
    ensures NewListing(propertyId, body, ownerId, owner, now).id != propertyId
  {
  }

  /** `reason || 'No reason provided'`. */
  function ReasonOrDefault(reason: string): (r: string)
    ensures r != ""
    ensures reason != "" ==> r == reason
    ensures reason == "" ==> r == DefaultReason
  {
    if reason != "" then reason else DefaultReason
  }

  /** The approve handler's in-place update: status and approval stamps, nothing else. */
  function ApprovedRecord(p: Property, adminId: string, now: int): (r: Property)
    ensures r.status == StatusApproved && r.approvedAt == Some(now) && r.approvedBy == adminId
    ensures r.(status := p.status, approvedAt := p.approvedAt, approvedBy := p.approvedBy) == p
  {
    p.(status := StatusApproved, approvedAt := Some(now), approvedBy := adminId)
  }

  /** The reject handler's in-place update: status, rejection stamps and a never-empty reason. */
  function RejectedRecord(p: Property, adminId: string, reason: string, now: int): (r: Property)
    ensures r.status == StatusRejected && r.rejectedAt == Some(now) && r.rejectedBy == adminId
    ensures r.rejectionReason != ""
    ensures reason != "" ==> r.rejectionReason == reason
    ensures r.(status := p.status, rejectedAt := p.rejectedAt, rejectedBy := p.rejectedBy,
               rejectionReason := p.rejectionReason) == p
  {
    p.(status := StatusRejected, rejectedAt := Some(now), rejectedBy := adminId,
       rejectionReason := ReasonOrDefault(reason))
  }

  /** Neither decision looks at the current status: either one applies to any record, and a rejection keeps stale approval stamps. */
  lemma DecisionsIgnoreCurrentStatus(p: Property, adminId: string, reason: string, now: int, later: int)
    ensures RejectedRecord(ApprovedRecord(p, adminId, now), adminId, reason, later).approvedAt == Some(now)
    ensures ApprovedRecord(RejectedRecord(p, adminId, reason, now), adminId, later).status == StatusApproved
    ensures ApprovedRecord(ApprovedRecord(p, adminId, now), adminId, now) == ApprovedRecord(p, adminId, now)
  {
  }

  /** The `property_listed` entry each admin receives. */
  function ListedNote(noteId: string, propertyId: string, title: string, ownerName: string, now: int): (n: Notification)
    ensures n.kind == "property_listed" && n.propertyId == propertyId && !n.read
  {
    Notification(noteId, "property_listed", propertyId, title, ownerName,
                 "New property \"" + title + "\" listed by " + ownerName, now, false)
  }

  /** The `property_listed` entry for each recipient, each under the fresh id drawn for that recipient. */
  function ListedNotes(noteId: string -> string, recipients: set<string>, propertyId: string, title: string,
                       ownerName: string, now: int): (notes: map<string, Notification>)
    ensures notes.Keys == recipients
    ensures forall u :: u in notes ==> notes[u] == ListedNote(noteId(u), propertyId, title, ownerName, now)
  {
    map u | u in recipients :: ListedNote(noteId(u), propertyId, title, ownerName, now)
  }

  /** The `property_approved` entry the owner receives. */
  function ApprovedNote(noteId: string, propertyId: string, title: string, now: int): (n: Notification)
    ensures n.kind == "property_approved" && n.propertyId == propertyId && !n.read
  {
    Notification(noteId, "property_approved", propertyId, title, "",
                 "Your property \"" + title + "\" has been approved and is now live!", now, false)
  }

  /** The `property_rejected` entry the owner receives; it quotes the stored reason. */
  function RejectedNote(noteId: string, propertyId: string, title: string, reason: string, now: int): (n: Notification)
    ensures n.kind == "property_rejected" && n.propertyId == propertyId && !n.read
  {
    Notification(noteId, "property_rejected", propertyId, title, "",
                 "Your property \"" + title + "\" was not approved. Reason: " + reason, now, false)
  }
}
