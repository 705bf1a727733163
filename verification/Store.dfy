/** The database: its documents, its collections, and the queries the services make. */
module Store {
  import opened Contracts
  import opened Sequences
  import opened Ledger

  datatype Report = Report(title: string, description: string, category: string, location: string)

  datatype Issue = Issue(
    reportedBy: UserId,
    report: Report,
    status: Status,
    statusReason: Option<string>,
    duplicateOf: Option<IssueId>,
    volunteer: Option<UserId>,
    claimedAt: Option<Time>,
    resolutionNote: Option<string>,
    resolvedAt: Option<Time>,
    verifiedAt: Option<Time>,
    assessment: Option<Assessment>)

  /** A stored file. Every metadata field may be missing, as in the files collection. */
  datatype MediaFile = MediaFile(
    id: FileId,
    filename: string,
    data: seq<byte>,
    uploadDate: Time,
    issueId: Option<IssueId>,
    uploadedBy: Option<UserId>,
    contentType: Option<string>,
    purpose: Option<Purpose>)

  datatype World = World(
    issues: map<IssueId, Issue>,
    files: seq<MediaFile>,
    rows: seq<Row>,
    cache: map<UserId, int>)

  const EMPTY: World := World(map[], [], [], map[])

  datatype Error =
    | IssueNotFound
    | MediaNotFound
    | MediaUnattached
    | AgencyCannotSet(status: Status)
    | IllegalMove(from: Status, to: Status)
    | OwnWork
    | ReasonRequired
    | RejectReasonRequired
    | DuplicateOfRequired
    | SelfDuplicate
    | NotHolder
    | NoProof
    | AlreadyClaimed
    | OwnReport
    | NotReporter
    | NotOpen(status: Status)
    | AttachmentClosed(status: Status)
    | UnsupportedType
    | TooLarge(kind: MediaKind, maxBytes: nat)
    | TooManyFiles
    | IdTaken
    | StorageFailure

  class Database {
    var issues: map<IssueId, Issue>
    var files: seq<MediaFile>
    var rows: seq<Row>
    var cache: map<UserId, int>

    ghost function View(): World
      reads this
    {
      World(issues, files, rows, cache)
    }

    constructor ()
      ensures View() == EMPTY
    {
      issues, files, rows, cache := map[], [], [], map[];
    }
  }

  // ---------------------------------------------------------------- queries

  function OfIssue(id: IssueId): MediaFile -> bool {
    (f: MediaFile) => f.issueId == Some(id)
  }

  function OfFile(id: FileId): MediaFile -> bool {
    (f: MediaFile) => f.id == id
  }

  function OtherThan(id: FileId): MediaFile -> bool {
    (f: MediaFile) => f.id != id
  }

  function ProofBy(id: IssueId, u: UserId): MediaFile -> bool {
    (f: MediaFile) => f.issueId == Some(id) && f.uploadedBy == Some(u) && f.purpose == Some(PROOF)
  }

  function FilesOf(files: seq<MediaFile>, id: IssueId): seq<MediaFile> {
    Filter(OfIssue(id), files)
  }

  function FindFile(files: seq<MediaFile>, id: FileId): Option<MediaFile> {
    var found := Filter(OfFile(id), files);
    if found == [] then None else Some(found[0])
  }

  function CountProofBy(files: seq<MediaFile>, id: IssueId, u: UserId): nat {
    |Filter(ProofBy(id, u), files)|
  }
}
