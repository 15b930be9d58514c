/** The records of types/index.ts. A `Date` is the number of milliseconds
    since the epoch; an optional field (`?:`) is an `Option`. */
module Types {
  import opened Wrappers

  /** A photo-collection campaign. */
  datatype Event = Event(
    id: string,
    name: string,
    ownerEmail: string,
    eventDate: int,
    uploadDeadline: int,
    uploadWindowStart: int,
    description: Option<string>,
    maxFileSize: nat,               // in MB
    allowedFileTypes: seq<string>,  // MIME types
    createdAt: int,
    updatedAt: int,
    isActive: bool,
    inviteToken: string,
    downloadLink: Option<string>,
    downloadsCount: nat)

  datatype UploadOrigin = Web | Mobile

  datatype UploadMetadata = UploadMetadata(
    width: Option<int>,
    height: Option<int>,
    uploadedFrom: Option<UploadOrigin>)

  /** One uploaded file. */
  datatype Upload = Upload(
    id: string,
    eventId: string,
    fileName: string,
    fileSize: nat,                  // in bytes
    fileType: string,
    uploadedAt: int,
    guestEmail: Option<string>,
    guestName: Option<string>,
    storagePath: string,
    downloadUrl: Option<string>,
    metadata: Option<UploadMetadata>)

  datatype GuestSession = GuestSession(
    sessionId: string,
    eventId: string,
    guestEmail: Option<string>,
    createdAt: int,
    lastActivityAt: int,
    uploadsCount: nat,
    ipAddress: Option<string>)

  datatype AdminSession = AdminSession(
    sessionId: string,
    eventId: string,
    email: string,
    token: string,
    createdAt: int,
    expiresAt: int,
    ipAddress: Option<string>)

  /** A `Partial<Event>`: each field is either given (`Some`) or absent. An
      optional field of `Event` may be given as `undefined`, hence the nested
      `Option` for `description` and `downloadLink`. */
  datatype EventPatch = EventPatch(
    id: Option<string>,
    name: Option<string>,
    ownerEmail: Option<string>,
    eventDate: Option<int>,
    uploadDeadline: Option<int>,
    uploadWindowStart: Option<int>,
    description: Option<Option<string>>,
    maxFileSize: Option<nat>,
    allowedFileTypes: Option<seq<string>>,
    createdAt: Option<int>,
    updatedAt: Option<int>,
    isActive: Option<bool>,
    inviteToken: Option<string>,
    downloadLink: Option<Option<string>>,
    downloadsCount: Option<nat>)

  /** The patch that gives no field. */
  const NoChanges := EventPatch(None, None, None, None, None, None, None, None,
                                None, None, None, None, None, None, None)

  function Override<T>(given: Option<T>, current: T): T
  {
    if given.Some? then given.value else current
  }

  /** `{ ...e, ...patch }`: every field the patch gives replaces the event's. */
  function Merge(e: Event, patch: EventPatch): (r: Event)
    ensures patch == NoChanges ==> r == e
    ensures r.id == (if patch.id.Some? then patch.id.value else e.id)
    ensures patch.isActive.Some? ==> r.isActive == patch.isActive.value
    ensures patch.isActive.None? ==> r.isActive == e.isActive
  {
    Event(
      Override(patch.id, e.id),
      Override(patch.name, e.name),
      Override(patch.ownerEmail, e.ownerEmail),
      Override(patch.eventDate, e.eventDate),
      Override(patch.uploadDeadline, e.uploadDeadline),
      Override(patch.uploadWindowStart, e.uploadWindowStart),
      Override(patch.description, e.description),
      Override(patch.maxFileSize, e.maxFileSize),
      Override(patch.allowedFileTypes, e.allowedFileTypes),
      Override(patch.createdAt, e.createdAt),
      Override(patch.updatedAt, e.updatedAt),
      Override(patch.isActive, e.isActive),
      Override(patch.inviteToken, e.inviteToken),
      Override(patch.downloadLink, e.downloadLink),
      Override(patch.downloadsCount, e.downloadsCount))
  }

}
