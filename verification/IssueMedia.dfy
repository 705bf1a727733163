/** Media attached to issues: who may attach what, the caps, and the listings. */
module IssueMedia {
  import opened Contracts
  import opened Sequences
  import opened Store

  datatype UploadedFile = UploadedFile(originalname: string, mimetype: string, buffer: seq<byte>)

  datatype PublicMedia = PublicMedia(
    id: FileId,
    filename: string,
    contentType: string,
    size: nat,
    uploadedAt: Time,
    purpose: Purpose)

  function ToPublicMedia(f: MediaFile): PublicMedia {
    PublicMedia(
      f.id,
      f.filename,
      if f.contentType.Some? then f.contentType.value else "application/octet-stream",
      |f.data|,
      f.uploadDate,
      if f.purpose.Some? then f.purpose.value else REPORT)
  }

  /** The rule for both attaching and removing: the permitted actor and the purpose follow from the status. */
  function MayAttach(w: World, id: IssueId, actor: UserId): Result<Purpose, Error> {
    if id !in w.issues then Failure(IssueNotFound)
    else
      var issue := w.issues[id];
      match issue.status
      case OPEN => if issue.reportedBy != actor then Failure(NotReporter) else Success(REPORT)
      case CLAIMED => if issue.volunteer != Some(actor) then Failure(NotHolder) else Success(PROOF)
      case IN_PROGRESS => if issue.volunteer != Some(actor) then Failure(NotHolder) else Success(PROOF)
      case RESOLVED => Failure(AttachmentClosed(issue.status))
      case AI_APPROVED => Failure(AttachmentClosed(issue.status))
      case VERIFIED => Failure(AttachmentClosed(issue.status))
      case REJECTED => Failure(AttachmentClosed(issue.status))
      case DUPLICATE => Failure(AttachmentClosed(issue.status))
  }

  function Attached(file: UploadedFile, fid: FileId, id: IssueId, actor: UserId, purpose: Purpose, now: Time)
    : MediaFile
  {
    MediaFile(fid, file.originalname, file.buffer, now, Some(id), Some(actor), Some(file.mimetype), Some(purpose))
  }

  /** The cap check and the insert as one step; `fid` is the id the bucket generates for the file. */
  function Uploaded(w: World, id: IssueId, actor: UserId, file: UploadedFile, fid: FileId, now: Time)
    : Result<World, Error>
  {
    match MayAttach(w, id, actor)
    case Failure(e) => Failure(e)
    case Success(purpose) =>
      match CheckUpload(file.mimetype, |file.buffer|)
      case Some(TypeRejected) => Failure(UnsupportedType)
      case Some(SizeRejected(kind, max)) => Failure(TooLarge(kind, max))
      case None =>
        if |FilesOf(w.files, id)| >= MAX_FILES_PER_ISSUE then Failure(TooManyFiles)
        else if FindFile(w.files, fid).Some? then Failure(IdTaken)
        else Success(w.(files := w.files + [Attached(file, fid, id, actor, purpose, now)]))
  }

  function Removed(w: World, fid: FileId, actor: UserId): Result<World, Error> {
    match FindFile(w.files, fid)
    case None => Failure(MediaNotFound)
    case Some(file) =>
      if file.issueId.None? then Failure(MediaUnattached)
      else
        match MayAttach(w, file.issueId.value, actor)
        case Failure(e) => Failure(e)
        case Success(_) => Success(w.(files := Filter(OtherThan(fid), w.files)))
  }

  // --------------------------------------------------------------- listings

  function ListFor(files: seq<MediaFile>, id: IssueId): seq<PublicMedia> {
    Map(ToPublicMedia, FilesOf(files, id))
  }

  function OfAny(ids: seq<IssueId>): MediaFile -> bool {
    (f: MediaFile) => f.issueId.Some? && f.issueId.value in ids
  }

  lemma MapAppend<A, B>(f: A -> B, xs: seq<A>, x: A)
    ensures Map(f, xs + [x]) == Map(f, xs) + [f(x)]
  {
  }

  function Entry(grouped: map<IssueId, seq<PublicMedia>>, id: IssueId): seq<PublicMedia> {
    if id in grouped then grouped[id] else []
  }

  /** Only requested ids are keys, and every requested id has exactly its own listing. */
  ghost predicate GroupedBy(grouped: map<IssueId, seq<PublicMedia>>, files: seq<MediaFile>, ids: seq<IssueId>) {
    && (forall id :: id in grouped ==> id in ids)
    && (forall id :: id in ids ==> Entry(grouped, id) == ListFor(files, id))
  }

  lemma ListForNext(files: seq<MediaFile>, f: MediaFile, id: IssueId)
    ensures ListFor(files + [f], id)
         == if f.issueId == Some(id) then ListFor(files, id) + [ToPublicMedia(f)] else ListFor(files, id)
  {
    var before := FilesOf(files, id);
    FilterAppend(OfIssue(id), files, f);
    if f.issueId == Some(id) {
      assert FilesOf(files + [f], id) == before + [f];
      MapAppend(ToPublicMedia, before, f);
    } else {
      assert FilesOf(files + [f], id) == before;
    }
  }

  /** The map the grouping loop builds from `files`. */
  function Grouped(files: seq<MediaFile>): map<IssueId, seq<PublicMedia>> {
    if files == [] then map[] else Pushed(Grouped(files[..|files| - 1]), files[|files| - 1])
  }

  /** The map after the loop has pushed one more file. */
  function Pushed(grouped: map<IssueId, seq<PublicMedia>>, f: MediaFile): map<IssueId, seq<PublicMedia>> {
    if f.issueId.None? then grouped
    else grouped[f.issueId.value := Entry(grouped, f.issueId.value) + [ToPublicMedia(f)]]
  }

  lemma EntryNext(grouped: map<IssueId, seq<PublicMedia>>, files: seq<MediaFile>, f: MediaFile, id: IssueId)
    requires Entry(grouped, id) == ListFor(files, id)
    ensures Entry(Pushed(grouped, f), id) == ListFor(files + [f], id)
  {
    ListForNext(files, f, id);
  }

  lemma GroupedNext(grouped: map<IssueId, seq<PublicMedia>>, files: seq<MediaFile>, f: MediaFile,
                    ids: seq<IssueId>)
    requires GroupedBy(grouped, files, ids)
    requires f.issueId.Some? ==> f.issueId.value in ids
    ensures GroupedBy(Pushed(grouped, f), files + [f], ids)
  {
    forall id | id in ids
      ensures Entry(Pushed(grouped, f), id) == ListFor(files + [f], id)
    {
      EntryNext(grouped, files, f, id);
    }
  }

  lemma {:induction false} GroupedIsRight(files: seq<MediaFile>, ids: seq<IssueId>)
    requires forall f :: f in files && f.issueId.Some? ==> f.issueId.value in ids
    ensures GroupedBy(Grouped(files), files, ids)
  {
    if files != [] {
      var n := |files| - 1;
      GroupedIsRight(files[..n], ids);
      assert files[n] in files;
      GroupedNext(Grouped(files[..n]), files[..n], files[n], ids);
      assert files == files[..n] + [files[n]];
    }
  }

  /** Grouping the page query's result serves every requested issue from the whole collection. */
  lemma PageIsGrouped(files: seq<MediaFile>, ids: seq<IssueId>)
    ensures GroupedBy(Grouped(Filter(OfAny(ids), files)), files, ids)
  {
    var found := Filter(OfAny(ids), files);
    forall f | f in found
      ensures f.issueId.Some? && f.issueId.value in ids
    {
      FilterMember(OfAny(ids), files, f);
    }
    GroupedIsRight(found, ids);
    forall id | id in ids
      ensures ListFor(found, id) == ListFor(files, id)
    {
      FilterThrough(OfIssue(id), OfAny(ids), files);
    }
  }

  class IssueMediaService {
    const db: Database

    constructor (db: Database)
      ensures this.db == db
    {
      this.db := db;
    }

    method Upload(id: IssueId, actor: UserId, file: UploadedFile, fid: FileId, now: Time)
      returns (r: Result<PublicMedia, Error>)
      modifies db
      ensures match Uploaded(old(db.View()), id, actor, file, fid, now)
              case Failure(e) => r == Failure(e) && db.View() == old(db.View())
              case Success(w) => db.View() == w && r == Success(ToPublicMedia(w.files[|w.files| - 1]))
    {
      var may := AssertMayAttach(id, actor);
      if may.Failure? {
        return Failure(may.error);
      }
      var rejection := CheckUpload(file.mimetype, |file.buffer|);
      if rejection == Some(TypeRejected) {
        return Failure(UnsupportedType);
      }
      if rejection.Some? {
        return Failure(TooLarge(rejection.value.kind, rejection.value.maxBytes));
      }
      var existing := ListFor(db.files, id);
      if |existing| >= MAX_FILES_PER_ISSUE {
        return Failure(TooManyFiles);
      }
      if FindFile(db.files, fid).Some? {
        return Failure(IdTaken);
      }
      var stored := Attached(file, fid, id, actor, may.value, now);
      db.files := db.files + [stored];
      return Success(ToPublicMedia(stored));
    }

    method AssertMayAttach(id: IssueId, actor: UserId) returns (r: Result<Purpose, Error>)
      ensures r == MayAttach(db.View(), id, actor)
    {
      if id !in db.issues {
        return Failure(IssueNotFound);
      }
      var issue := db.issues[id];
      if issue.status.OPEN? {
        if issue.reportedBy != actor {
          return Failure(NotReporter);
        }
        return Success(REPORT);
      }
      if issue.status.CLAIMED? || issue.status.IN_PROGRESS? {
        if issue.volunteer != Some(actor) {
          return Failure(NotHolder);
        }
        return Success(PROOF);
      }
      return Failure(AttachmentClosed(issue.status));
    }

    method Remove(fid: FileId, actor: UserId) returns (r: Result<(), Error>)
      modifies db
      ensures match Removed(old(db.View()), fid, actor)
              case Failure(e) => r == Failure(e) && db.View() == old(db.View())
              case Success(w) => r == Success(()) && db.View() == w
    {
      var found := FindFile(db.files, fid);
      if found.None? {
        return Failure(MediaNotFound);
      }
      if found.value.issueId.None? {
        return Failure(MediaUnattached);
      }
      var may := AssertMayAttach(found.value.issueId.value, actor);
      if may.Failure? {
        return Failure(may.error);
      }
      db.files := Filter(OtherThan(fid), db.files);
      return Success(());
    }

    /**
     Every requested issue finds under its id exactly what listing it alone returns (no entry
     meaning none), and no other id is there.
     */
    method ListForMany(ids: seq<IssueId>) returns (grouped: map<IssueId, seq<PublicMedia>>)
      ensures GroupedBy(grouped, db.files, ids)
    {
      grouped := map[];
      if |ids| == 0 {
        return;
      }
      var files := Filter(OfAny(ids), db.files);
      for k := 0 to |files|
        invariant grouped == Grouped(files[..k])
      {
        assert files[..k + 1][..k] == files[..k];
        var key := files[k].issueId;
        if key.None? {
          continue;
        }
        var list := if key.value in grouped then grouped[key.value] else [];
        list := list + [ToPublicMedia(files[k])];
        grouped := grouped[key.value := list];
      }
      assert files[..|files|] == files;
      PageIsGrouped(db.files, ids);
    }
  }

  // ------------------------------------------------------------- assessment

  datatype MediaBytes = MediaBytes(data: seq<byte>, contentType: string)

  /** What the frame extractor makes of each video: any frames at all, or none. */
  type Decoder = map<FileId, seq<seq<byte>>>

  function ContentTypeOf(f: MediaFile): string {
    if f.contentType.Some? then f.contentType.value else ""
  }

  function HasType(prefix: string): MediaFile -> bool {
    (f: MediaFile) => prefix <= ContentTypeOf(f)
  }

  function ToBytes(f: MediaFile): MediaBytes {
    MediaBytes(f.data, if f.contentType.Some? then f.contentType.value else "image/png")
  }

  function ToFrame(frame: seq<byte>): MediaBytes {
    MediaBytes(frame, "image/jpeg")
  }

  function Take<T>(xs: seq<T>, n: nat): seq<T> {
    if |xs| <= n then xs else xs[..n]
  }

  function ExtractFrames(decoder: Decoder, video: MediaFile, count: nat): seq<seq<byte>> {
    if video.id in decoder then Take(decoder[video.id], count) else []
  }

  /** Up to `perSide` of the photographs; without any, that many frames of the first video. */
  function SideFor(files: seq<MediaFile>, perSide: nat, decoder: Decoder): seq<MediaBytes> {
    var images := Take(Filter(HasType("image/"), files), perSide);
    var videos := Filter(HasType("video/"), files);
    if |images| > 0 then Map(ToBytes, images)
    else if videos == [] then []
    else Map(ToFrame, ExtractFrames(decoder, videos[0], perSide))
  }

  function ReportOf(id: IssueId): MediaFile -> bool {
    (f: MediaFile) => f.issueId == Some(id) && f.purpose == Some(REPORT)
  }

  datatype Evidence = Evidence(before: seq<MediaBytes>, after: seq<MediaBytes>)

  function ReadForAssessment(files: seq<MediaFile>, id: IssueId, volunteer: Option<UserId>, perSide: nat,
                             decoder: Decoder): Evidence
  {
    var ofIssue := FilesOf(files, id);
    Evidence(
      SideFor(Filter(ReportOf(id), ofIssue), perSide, decoder),
      if volunteer.None? then []
      else SideFor(Filter(ProofBy(id, volunteer.value), ofIssue), perSide, decoder))
  }

  /** A side shows something only if a file backs it, and never more than asked for. */
  lemma SideNeedsAFile(files: seq<MediaFile>, perSide: nat, decoder: Decoder)
    ensures |SideFor(files, perSide, decoder)| <= perSide
    ensures SideFor(files, perSide, decoder) != [] ==> files != []
  {
  }

  /**
   Evidence shown to the model is backed by a report file of the issue on one side and by a
   proof file of its current holder on the other.
   */
  lemma EvidenceIsBacked(files: seq<MediaFile>, id: IssueId, volunteer: Option<UserId>,
                         perSide: nat, decoder: Decoder)
    ensures var shown := ReadForAssessment(files, id, volunteer, perSide, decoder);
            && |shown.before| <= perSide && |shown.after| <= perSide
            && (shown.before != [] ==> exists f :: f in files && ReportOf(id)(f))
            && (shown.after != [] ==> volunteer.Some? && exists f :: f in files && ProofBy(id, volunteer.value)(f))
  {
    var ofIssue := FilesOf(files, id);
    var reports := Filter(ReportOf(id), ofIssue);
    SideNeedsAFile(reports, perSide, decoder);
    if reports != [] {
      FilterMember(ReportOf(id), ofIssue, reports[0]);
      FilterMember(OfIssue(id), files, reports[0]);
    }
    if volunteer.Some? {
      var proofs := Filter(ProofBy(id, volunteer.value), ofIssue);
      SideNeedsAFile(proofs, perSide, decoder);
      if proofs != [] {
        FilterMember(ProofBy(id, volunteer.value), ofIssue, proofs[0]);
        FilterMember(OfIssue(id), files, proofs[0]);
      }
    }
  }

  // -------------------------------------------------- what a side consists of

  function IsPhoto(): MediaFile -> bool {
    (f: MediaFile) => f.contentType.Some? && "image/" <= f.contentType.value
  }

  function IsClip(): MediaFile -> bool {
    (f: MediaFile) => f.contentType.Some? && "video/" <= f.contentType.value
  }

  /** The report files of an issue, in stored order. */
  function Reports(files: seq<MediaFile>, id: IssueId): seq<MediaFile> {
    Filter((f: MediaFile) => f.issueId == Some(id) && f.purpose == Some(REPORT), files)
  }

  /** The proof files one volunteer uploaded to an issue, in stored order. */
  function Proofs(files: seq<MediaFile>, id: IssueId, u: UserId): seq<MediaFile> {
    Filter((f: MediaFile) => f.issueId == Some(id) && f.purpose == Some(PROOF) && f.uploadedBy == Some(u), files)
  }

  function Frames(decoder: Decoder, f: MediaFile): seq<seq<byte>> {
    if f.id in decoder then decoder[f.id] else []
  }

  function Fewer(a: nat, b: nat): nat {
    if a <= b then a else b
  }

  /** A side has a photograph, or its first video decodes to some frame. */
  ghost predicate Visible(files: seq<MediaFile>, decoder: Decoder) {
    || (exists f :: f in files && IsPhoto()(f))
    || (exists k :: 0 <= k < |files| && IsClip()(files[k]) && (forall j :: 0 <= j < k ==> !IsClip()(files[j]))
                    && Frames(decoder, files[k]) != [])
  }

  /**
   With a photograph, a side is the first photographs in stored order, bytes and type; without one
   it is the first frames of the first video, as JPEG; without either it is empty. Never more than
   `perSide`.
   */
  lemma SideShows(files: seq<MediaFile>, perSide: nat, decoder: Decoder)
    ensures var side := SideFor(files, perSide, decoder);
            var photos, clips := Filter(IsPhoto(), files), Filter(IsClip(), files);
            && (photos != [] ==>
                  && |side| == Fewer(perSide, |photos|)
                  && forall k :: 0 <= k < |side| ==>
                       && photos[k].contentType.Some?
                       && side[k] == MediaBytes(photos[k].data, photos[k].contentType.value))
            && (photos == [] && clips != [] ==>
                  && |side| == Fewer(perSide, |Frames(decoder, clips[0])|)
                  && forall k :: 0 <= k < |side| ==> side[k] == MediaBytes(Frames(decoder, clips[0])[k], "image/jpeg"))
            && (photos == [] && clips == [] ==> side == [])
  {
    FilterSame(IsPhoto(), HasType("image/"), files);
    FilterSame(IsClip(), HasType("video/"), files);
    var photos := Filter(IsPhoto(), files);
    forall k | 0 <= k < |photos|
      ensures IsPhoto()(photos[k])
    {
      FilterMember(IsPhoto(), files, photos[k]);
    }
  }

  lemma SideVisible(files: seq<MediaFile>, perSide: nat, decoder: Decoder)
    requires perSide > 0
    ensures SideFor(files, perSide, decoder) != [] <==> Visible(files, decoder)
  {
    SideShows(files, perSide, decoder);
    FilterEmpty(IsPhoto(), files);
    FilterEmpty(IsClip(), files);
    if Filter(IsPhoto(), files) == [] && Filter(IsClip(), files) != [] {
      var k := SomeFirst(IsClip(), files);
      FirstKept(IsClip(), files, k);
    }
  }

  /** The two sides are taken from the issue's reports and from its holder's own proof. */
  lemma AssessmentReads(files: seq<MediaFile>, id: IssueId, volunteer: Option<UserId>, perSide: nat, decoder: Decoder)
    ensures var shown := ReadForAssessment(files, id, volunteer, perSide, decoder);
            && shown.before == SideFor(Reports(files, id), perSide, decoder)
            && shown.after == match volunteer
                              case None => []
                              case Some(u) => SideFor(Proofs(files, id, u), perSide, decoder)
  {
    FilterThrough(ReportOf(id), OfIssue(id), files);
    FilterSame(ReportOf(id), (f: MediaFile) => f.issueId == Some(id) && f.purpose == Some(REPORT), files);
    if volunteer.Some? {
      var u := volunteer.value;
      FilterThrough(ProofBy(id, u), OfIssue(id), files);
      FilterSame(ProofBy(id, u),
                 (f: MediaFile) => f.issueId == Some(id) && f.purpose == Some(PROOF) && f.uploadedBy == Some(u), files);
    }
  }

  // ------------------------------------------------------ what a listing shows

  /** A listing has one entry for each file of the issue, in stored order, describing that file. */
  lemma ListingShows(files: seq<MediaFile>, id: IssueId)
    ensures var own, list := Filter((f: MediaFile) => f.issueId == Some(id), files), ListFor(files, id);
            && |list| == |own|
            && forall k :: 0 <= k < |list| ==>
                 && list[k].id == own[k].id && list[k].filename == own[k].filename && list[k].size == |own[k].data|
                 && list[k].uploadedAt == own[k].uploadDate
                 && list[k].contentType == (match own[k].contentType
                                            case Some(t) => t
                                            case None => "application/octet-stream")
                 && (list[k].purpose == PROOF <==> own[k].purpose == Some(PROOF))
  {
    FilterSame((f: MediaFile) => f.issueId == Some(id), OfIssue(id), files);
  }
}
