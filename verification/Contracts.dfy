/** The enumerations, caps and constants shared by every service (src/contracts). */
module Contracts {

  datatype Option<+T> = None | Some(value: T)

  datatype Result<+T, +E> = Success(value: T) | Failure(error: E)

  // Ids are compared for equality only; times are opaque stamps.
  type UserId = nat
  type IssueId = nat
  type FileId = nat
  type Time = nat
  newtype byte = b: int | 0 <= b < 256

  datatype Status =
    | OPEN
    | CLAIMED
    | IN_PROGRESS
    | RESOLVED
    | AI_APPROVED
    | VERIFIED
    | REJECTED
    | DUPLICATE

  datatype Purpose = REPORT | PROOF

  datatype PointsReason = RESOLUTION_VERIFIED | VERIFICATION_REVERSED

  const POINTS_PER_VERIFIED_RESOLUTION: int := 10

  datatype AiOutcome = APPROVED | BELOW_THRESHOLD | SKIPPED_NO_BEFORE | FAILED

  const AI_MAX_IMAGES_PER_SIDE: nat := 2

  datatype Assessment = Assessment(
    outcome: AiOutcome,
    confidence: Option<real>,
    reasoning: string,
    assessedAt: Time)

  datatype MediaKind = Image | Video

  const MAX_FILES_PER_ISSUE: nat := 5
  const IMAGE_TYPES: seq<string> := ["image/jpeg", "image/png", "image/webp"]
  const VIDEO_TYPES: seq<string> := ["video/mp4", "video/webm"]

  function MaxBytes(kind: MediaKind): nat {
    match kind
    case Image => 5 * 1024 * 1024
    case Video => 50 * 1024 * 1024
  }

  function MediaKindFor(mimetype: string): Option<MediaKind> {
    if mimetype in IMAGE_TYPES then Some(Image)
    else if mimetype in VIDEO_TYPES then Some(Video)
    else None
  }

  datatype UploadRejection =
    | TypeRejected
    | SizeRejected(kind: MediaKind, maxBytes: nat)

  /** The type is judged first, then the size against that type's cap. */
  function CheckUpload(mimetype: string, size: nat): Option<UploadRejection> {
    match MediaKindFor(mimetype)
    case None => Some(TypeRejected)
    case Some(kind) =>
      if size > MaxBytes(kind) then Some(SizeRejected(kind, MaxBytes(kind))) else None
  }
}
