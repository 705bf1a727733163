/**
 Runs: any sequence of requests by any actors, each handled as one step, and what every
 reachable state satisfies.
 */
module Runs {
  import opened Contracts
  import opened Sequences
  import opened Ledger
  import opened Store
  import opened CivicPoints
  import opened IssueMedia
  import opened IssueVerification
  import opened IssueLifecycle

  datatype Request =
    | Create(id: IssueId, reporter: UserId, report: Report)
    | Edit(id: IssueId, actor: UserId, changes: Changes)
    | Claim(id: IssueId, actor: UserId, now: Time)
    | Release(id: IssueId, actor: UserId)
    | Start(id: IssueId, actor: UserId)
    | Resolve(id: IssueId, actor: UserId, note: string, outside: Outside, now: Time)
    | ChangeStatus(target: IdText, dto: ChangeStatusDto, actor: UserId, now: Time, fault: Fault)
    | Upload(id: IssueId, actor: UserId, file: UploadedFile, fid: FileId, now: Time)
    | Remove(fid: FileId, actor: UserId)

  function Handle(ai: IssueVerificationService, w: World, r: Request): Result<World, Error> {
    match r
    case Create(id, reporter, report) => Created(w, id, reporter, report)
    case Edit(id, actor, changes) => Edited(w, id, actor, changes)
    case Claim(id, actor, now) => Claimed(w, id, actor, now)
    case Release(id, actor) => Released(w, id, actor)
    case Start(id, actor) => Started(w, id, actor)
    case Resolve(id, actor, note, outside, now) => Resolved(w, ai, id, actor, note, outside, now)
    case ChangeStatus(target, dto, actor, now, fault) => ChangedStatus(w, target, dto, actor, now, fault)
    case Upload(id, actor, file, fid, now) => Uploaded(w, id, actor, file, fid, now)
    case Remove(fid, actor) => Removed(w, fid, actor)
  }

  /** A refused request changes nothing. */
  function Next(ai: IssueVerificationService, w: World, r: Request): World {
    match Handle(ai, w, r)
    case Failure(_) => w
    case Success(w') => w'
  }

  function Execute(ai: IssueVerificationService, rs: seq<Request>): World {
    if rs == [] then EMPTY
    else Next(ai, Execute(ai, rs[..|rs| - 1]), rs[|rs| - 1])
  }

  lemma ExecuteNext(ai: IssueVerificationService, rs: seq<Request>, r: Request)
    ensures Execute(ai, rs + [r]) == Next(ai, Execute(ai, rs), r)
  {
    assert (rs + [r])[..|rs|] == rs;
  }

  // ------------------------------------------------------------- invariants

  predicate Held(s: Status) {
    s in {CLAIMED, IN_PROGRESS, RESOLVED, AI_APPROVED, VERIFIED}
  }

  predicate Submitted(s: Status) {
    s in {RESOLVED, AI_APPROVED, VERIFIED}
  }

  /** What an issue's optional fields say about its status, and its status about them, in every run. */
  ghost predicate RecordOk(w: World, id: IssueId)
    requires id in w.issues
  {
    var x := w.issues[id];
    && (x.volunteer.Some? <==> Held(x.status))
    && (x.claimedAt.Some? <==> Held(x.status))
    && x.volunteer != Some(x.reportedBy)
    && (Submitted(x.status) ==> x.resolvedAt.Some? && x.resolutionNote.Some?)
    && (x.status.VERIFIED? ==> x.verifiedAt.Some?)
    && (x.duplicateOf.Some? <==> x.status.DUPLICATE?)
    && (x.duplicateOf.Some? ==> x.duplicateOf.value in w.issues)
    && (x.status.REJECTED? ==> x.statusReason.Some?)
  }

  /** No leftovers: an issue that is not submitted carries no resolution, one not verified no verification date. */
  predicate Tidy(x: Issue) {
    && (x.resolvedAt.Some? ==> Submitted(x.status))
    && (x.resolutionNote.Some? ==> Submitted(x.status))
    && (x.verifiedAt.Some? ==> x.status.VERIFIED?)
  }

  ghost predicate HasProof(files: seq<MediaFile>, id: IssueId, u: UserId) {
    exists f :: f in files && ProofBy(id, u)(f)
  }

  ghost predicate HasReport(files: seq<MediaFile>, id: IssueId) {
    exists f :: f in files && ReportOf(id)(f)
  }

  /** Submitted work still has its holder's proof; an approval still has both sides and its verdict. */
  ghost predicate EvidenceOk(ai: IssueVerificationService, w: World, id: IssueId)
    requires id in w.issues
  {
    var x := w.issues[id];
    && (Submitted(x.status) ==> x.volunteer.Some? && HasProof(w.files, id, x.volunteer.value))
    && (x.status.AI_APPROVED? ==>
          && HasReport(w.files, id)
          && x.assessment.Some? && x.assessment.value.outcome.APPROVED?
          && x.assessment.value.confidence.Some? && x.assessment.value.confidence.value >= ai.threshold)
    && (x.status.RESOLVED? ==>
          && (x.assessment.Some? <==> ai.enabled)
          && (x.assessment.Some? ==> !x.assessment.value.outcome.APPROVED?))
    && (!ai.enabled ==> x.assessment.None? && !x.status.AI_APPROVED?)
  }

  /** Every file is attached to an issue by the right person, of an accepted type and within its cap. */
  ghost predicate FileOk(issues: map<IssueId, Issue>, f: MediaFile) {
    && f.issueId.Some? && f.issueId.value in issues
    && f.uploadedBy.Some? && f.purpose.Some?
    && (f.purpose.value.REPORT? <==> f.uploadedBy.value == issues[f.issueId.value].reportedBy)
    && f.contentType.Some? && MediaKindFor(f.contentType.value).Some?
    && |f.data| <= MaxBytes(MediaKindFor(f.contentType.value).value)
  }

  ghost predicate FilesOk(w: World) {
    && (forall f :: f in w.files ==> FileOk(w.issues, f))
    && (forall j, k :: 0 <= j < k < |w.files| ==> w.files[j].id != w.files[k].id)
    && (forall id :: |FilesOf(w.files, id)| <= MAX_FILES_PER_ISSUE)
  }

  ghost predicate Inv(ai: IssueVerificationService, w: World) {
    && (forall id :: id in w.issues ==> RecordOk(w, id) && EvidenceOk(ai, w, id))
    && FilesOk(w)
    && WellFormed(w.rows)
  }

  // ------------------------------------------------------ what a request does

  /** Identifies the issue a request is about, when it is about one. */
  function Subject(w: World, r: Request): Option<IssueId> {
    match r
    case Create(id, _, _) => Some(id)
    case Edit(id, _, _) => Some(id)
    case Claim(id, _, _) => Some(id)
    case Release(id, _) => Some(id)
    case Start(id, _) => Some(id)
    case Resolve(id, _, _, _, _) => Some(id)
    case ChangeStatus(target, _, _, _, _) => Some(target.id)
    case Upload(id, _, _, _, _) => Some(id)
    case Remove(fid, _) => if FindFile(w.files, fid).Some? then FindFile(w.files, fid).value.issueId else None
  }

  /** Only the subject's document changes, no document disappears, and the reporter stays. */
  lemma OthersUntouched(ai: IssueVerificationService, w: World, r: Request, id: IssueId)
    ensures id in w.issues ==>
              && id in Next(ai, w, r).issues
              && Next(ai, w, r).issues[id].reportedBy == w.issues[id].reportedBy
              && (Subject(w, r) != Some(id) ==> Next(ai, w, r).issues[id] == w.issues[id])
    ensures id !in w.issues && id in Next(ai, w, r).issues ==> r.Create? && r.id == id
  {
  }

  /** The moves a single request may make: none, one edge of the table, or the two edges of an approval. */
  predicate Move(from: Status, to: Status) {
    from == to || CanMove(from, to) || (CanMove(from, RESOLVED) && CanMove(RESOLVED, to) && to.AI_APPROVED?)
  }

  /** What a move may do to one document besides following the table. */
  predicate SoundMove(r: Request, x: Issue, y: Issue) {
    && Move(x.status, y.status)
    && (x.status in {REJECTED, DUPLICATE} ==> y == x)
    && (x.status.VERIFIED? && y != x ==> y.status.IN_PROGRESS? && y.volunteer == x.volunteer)
    && (y.status in {RESOLVED, AI_APPROVED} && y.status != x.status ==>
          r.Resolve? && x.volunteer == Some(r.actor) && y.volunteer == x.volunteer)
    && (y.status.VERIFIED? && !x.status.VERIFIED? ==>
          r.ChangeStatus? && x.volunteer != Some(r.actor) && y.volunteer == x.volunteer)
  }

  lemma StatusChangeMoves(ai: IssueVerificationService, w: World, r: Request)
    requires r.ChangeStatus? && Handle(ai, w, r).Success?
    ensures SoundMove(r, w.issues[r.target.id], Next(ai, w, r).issues[r.target.id])
  {
    var x := w.issues[r.target.id];
    assert Next(ai, w, r).issues[r.target.id] == Decided(x, r.dto, r.now);
  }

  lemma ResolveMoves(ai: IssueVerificationService, w: World, r: Request)
    requires r.Resolve? && Handle(ai, w, r).Success?
    ensures SoundMove(r, w.issues[r.id], Next(ai, w, r).issues[r.id])
  {
    var x, y := w.issues[r.id], Next(ai, w, r).issues[r.id];
    assert CanMove(x.status, RESOLVED) && x.volunteer == Some(r.actor);
    assert y.status in {RESOLVED, AI_APPROVED} && y.volunteer == x.volunteer;
  }

  lemma OtherMoves(ai: IssueVerificationService, w: World, r: Request)
    requires Handle(ai, w, r).Success? && (r.Edit? || r.Claim? || r.Release? || r.Start?)
    ensures SoundMove(r, w.issues[r.id], Next(ai, w, r).issues[r.id])
  {
  }

  /**
   Every saved status change is one edge of the table, or the two edges to RESOLVED and on to
   AI_APPROVED. REJECTED and DUPLICATE are never left. VERIFIED is left only for IN_PROGRESS,
   with the same holder.
   */
  lemma MovesFollowTable(ai: IssueVerificationService, w: World, r: Request, id: IssueId)
    requires id in w.issues
    ensures id in Next(ai, w, r).issues && SoundMove(r, w.issues[id], Next(ai, w, r).issues[id])
  {
    OthersUntouched(ai, w, r, id);
    if Handle(ai, w, r).Success? && Subject(w, r) == Some(id) {
      if r.ChangeStatus? {
        StatusChangeMoves(ai, w, r);
      } else if r.Resolve? {
        ResolveMoves(ai, w, r);
      } else if r.Edit? || r.Claim? || r.Release? || r.Start? {
        OtherMoves(ai, w, r);
      }
    }
  }

  /** Only a status change ever writes to the ledger or the cache; resolving, in particular, never pays. */
  lemma OnlyStatusChangesPay(ai: IssueVerificationService, w: World, r: Request)
    ensures Next(ai, w, r).rows != w.rows || Next(ai, w, r).cache != w.cache ==>
              r.ChangeStatus? && Handle(ai, w, r).Success? && r.target.id in w.issues
              && SettlementOf(w.issues[r.target.id].status, r.dto.status).Some?
  {
  }

  // ---------------------------------------------------------- preservation

  lemma FoundIsFirst(files: seq<MediaFile>, fid: FileId)
    ensures FindFile(files, fid).Some? ==> FindFile(files, fid).value in files && FindFile(files, fid).value.id == fid
    ensures FindFile(files, fid).None? ==> forall f :: f in files ==> f.id != fid
  {
    var found := Filter(OfFile(fid), files);
    if found != [] {
      FilterMember(OfFile(fid), files, found[0]);
    }
    FilterEmpty(OfFile(fid), files);
  }

  lemma CountedProof(files: seq<MediaFile>, id: IssueId, u: UserId)
    ensures CountProofBy(files, id, u) > 0 <==> HasProof(files, id, u)
  {
    FilterEmpty(ProofBy(id, u), files);
  }

  /** Replacing one document by a sound one keeps the rest of the invariant. */
  lemma SaveKeeps(ai: IssueVerificationService, w: World, id: IssueId, x: Issue)
    requires Inv(ai, w)
    requires id in w.issues ==> x.reportedBy == w.issues[id].reportedBy
    requires var t := w.(issues := w.issues[id := x]); RecordOk(t, id) && EvidenceOk(ai, t, id)
    ensures Inv(ai, w.(issues := w.issues[id := x]))
  {
    var t := w.(issues := w.issues[id := x]);
    forall j | j in t.issues
      ensures RecordOk(t, j) && EvidenceOk(ai, t, j)
    {
      if j != id {
        assert RecordOk(w, j) && EvidenceOk(ai, w, j);
      }
    }
    forall f | f in t.files
      ensures FileOk(t.issues, f)
    {
      assert FileOk(w.issues, f);
    }
  }

  lemma UploadKeeps(ai: IssueVerificationService, w: World, id: IssueId, actor: UserId,
                    file: UploadedFile, fid: FileId, now: Time)
    requires Inv(ai, w) && Uploaded(w, id, actor, file, fid, now).Success?
    ensures Inv(ai, Uploaded(w, id, actor, file, fid, now).value)
  {
    var t := Uploaded(w, id, actor, file, fid, now).value;
    var f := t.files[|w.files|];
    assert t.files == w.files + [f];
    assert RecordOk(w, id);
    assert FileOk(w.issues, f);
    FoundIsFirst(w.files, fid);
    forall j
      ensures |FilesOf(t.files, j)| <= MAX_FILES_PER_ISSUE
    {
      FilterAppend(OfIssue(j), w.files, f);
      assert |FilesOf(w.files, j)| <= MAX_FILES_PER_ISSUE;
    }
    forall j | j in t.issues
      ensures RecordOk(t, j) && EvidenceOk(ai, t, j)
    {
      assert RecordOk(w, j) && EvidenceOk(ai, w, j);
      assert forall g :: g in w.files ==> g in t.files;
    }
  }

  lemma {:induction false} IdsStayDistinct(files: seq<MediaFile>, fid: FileId)
    requires forall j, k :: 0 <= j < k < |files| ==> files[j].id != files[k].id
    ensures var kept := Filter(OtherThan(fid), files);
            forall j, k :: 0 <= j < k < |kept| ==> kept[j].id != kept[k].id
  {
    if files != [] {
      var n := |files| - 1;
      IdsStayDistinct(files[..n], fid);
      var kept := Filter(OtherThan(fid), files[..n]);
      forall j | 0 <= j < |kept|
        ensures kept[j].id != files[n].id
      {
        FilterMember(OtherThan(fid), files[..n], kept[j]);
      }
    }
  }

  /** Deleting a file keeps exactly the others. */
  lemma KeptFiles(files: seq<MediaFile>, fid: FileId)
    ensures forall f :: f in Filter(OtherThan(fid), files) <==> f in files && f.id != fid
  {
    forall f
      ensures f in Filter(OtherThan(fid), files) <==> f in files && f.id != fid
    {
      FilterMember(OtherThan(fid), files, f);
    }
  }

  lemma RemoveKeepsFilesOk(w: World, fid: FileId)
    requires FilesOk(w)
    ensures FilesOk(w.(files := Filter(OtherThan(fid), w.files)))
  {
    var kept := Filter(OtherThan(fid), w.files);
    KeptFiles(w.files, fid);
    IdsStayDistinct(w.files, fid);
    forall j
      ensures |FilesOf(kept, j)| <= MAX_FILES_PER_ISSUE
    {
      FilterShrinks(OfIssue(j), OtherThan(fid), w.files);
      assert |FilesOf(w.files, j)| <= MAX_FILES_PER_ISSUE;
    }
  }

  /** A removal touches no file of any other issue, and its own issue's work is not submitted. */
  lemma RemoveFiles(w: World, fid: FileId, actor: UserId)
    requires FilesOk(w) && Removed(w, fid, actor).Success?
    ensures var t, gone := Removed(w, fid, actor).value, FindFile(w.files, fid).value;
            && gone.issueId.Some? && gone.issueId.value in w.issues
            && !Submitted(w.issues[gone.issueId.value].status)
            && (forall f :: f in w.files && f.issueId != gone.issueId ==> f in t.files)
  {
    var gone := FindFile(w.files, fid).value;
    FoundIsFirst(w.files, fid);
    KeptFiles(w.files, fid);
    forall f | f in w.files && f.issueId != gone.issueId
      ensures f.id != fid
    {
      DistinctIds(w.files, f, gone);
    }
  }

  lemma RemoveKeeps(ai: IssueVerificationService, w: World, fid: FileId, actor: UserId)
    requires Inv(ai, w) && Removed(w, fid, actor).Success?
    ensures Inv(ai, Removed(w, fid, actor).value)
  {
    var t := Removed(w, fid, actor).value;
    var gone := FindFile(w.files, fid).value;
    RemoveFiles(w, fid, actor);
    RemoveKeepsFilesOk(w, fid);
    forall j | j in t.issues
      ensures RecordOk(t, j) && EvidenceOk(ai, t, j)
    {
      assert RecordOk(w, j) && EvidenceOk(ai, w, j);
      if Submitted(w.issues[j].status) {
        EvidenceSurvives(w.files, t.files, gone, j, w.issues[j].volunteer.value);
      }
    }
  }

  /** Deleting another issue's file touches none of this one's evidence. */
  lemma EvidenceSurvives(files: seq<MediaFile>, kept: seq<MediaFile>, gone: MediaFile, id: IssueId, u: UserId)
    requires forall f :: f in files && f.issueId != gone.issueId ==> f in kept
    requires gone.issueId != Some(id)
    ensures HasProof(files, id, u) ==> HasProof(kept, id, u)
    ensures HasReport(files, id) ==> HasReport(kept, id)
  {
  }

  lemma DistinctIds(files: seq<MediaFile>, f: MediaFile, g: MediaFile)
    requires forall j, k :: 0 <= j < k < |files| ==> files[j].id != files[k].id
    requires f in files && g in files && f != g
    ensures f.id != g.id
  {
  }

  lemma AssessmentRecorded(ai: IssueVerificationService, w: World, id: IssueId, actor: UserId,
                           note: string, outside: Outside, now: Time)
    requires id in w.issues && RecordOk(w, id) && EvidenceOk(ai, w, id)
    requires Resolved(w, ai, id, actor, note, outside, now).Success?
    ensures var t := Resolved(w, ai, id, actor, note, outside, now).value;
            RecordOk(t, id) && EvidenceOk(ai, t, id)
  {
    CountedProof(w.files, id, actor);
    var assessed := ai.Assess(w.files, id, w.issues[id].volunteer, outside, now);
    if assessed.value.Some? && assessed.value.value.outcome.APPROVED? {
      ai.ApprovalIsBacked(w.files, id, w.issues[id].volunteer, outside, now);
    }
  }

  lemma ResolveKeeps(ai: IssueVerificationService, w: World, id: IssueId, actor: UserId,
                     note: string, outside: Outside, now: Time)
    requires Inv(ai, w) && Resolved(w, ai, id, actor, note, outside, now).Success?
    ensures Inv(ai, Resolved(w, ai, id, actor, note, outside, now).value)
  {
    var t := Resolved(w, ai, id, actor, note, outside, now).value;
    var x := w.issues[id];
    assert RecordOk(w, id) && EvidenceOk(ai, w, id);
    AssessmentRecorded(ai, w, id, actor, note, outside, now);
    SaveKeeps(ai, w, id, t.issues[id]);
  }

  lemma SettledKeeps(ai: IssueVerificationService, w: World, d: Direction, id: IssueId,
                     volunteer: Option<UserId>, fault: Fault)
    requires Inv(ai, w)
    ensures Inv(ai, Settled(w, d, id, volunteer, fault))
  {
    var t := Settled(w, d, id, volunteer, fault);
    if volunteer.Some? {
      SettlementIsAtomic(w.rows, w.cache, d, volunteer.value, id, fault);
      SettleKeeps(w.rows, d, volunteer.value, id);
    }
    forall j | j in t.issues
      ensures RecordOk(t, j) && EvidenceOk(ai, t, j)
    {
      assert RecordOk(w, j) && EvidenceOk(ai, w, j);
    }
  }

  lemma DecidedRecord(w: World, target: IdText, dto: ChangeStatusDto, actor: UserId, now: Time)
    requires StatusRefusal(w, target, dto, actor).None? && RecordOk(w, target.id)
    ensures RecordOk(w.(issues := w.issues[target.id := Decided(w.issues[target.id], dto, now)]), target.id)
  {
    var x, y := w.issues[target.id], Decided(w.issues[target.id], dto, now);
    assert dto.status in {VERIFIED, IN_PROGRESS, OPEN, REJECTED, DUPLICATE};
    assert y.status == dto.status;
  }

  lemma DecidedIsSound(ai: IssueVerificationService, w: World, target: IdText, dto: ChangeStatusDto,
                       actor: UserId, now: Time)
    requires StatusRefusal(w, target, dto, actor).None? && RecordOk(w, target.id) && EvidenceOk(ai, w, target.id)
    ensures var t := w.(issues := w.issues[target.id := Decided(w.issues[target.id], dto, now)]);
            RecordOk(t, target.id) && EvidenceOk(ai, t, target.id)
  {
    DecidedRecord(w, target, dto, actor, now);
  }

  lemma ChangeStatusKeeps(ai: IssueVerificationService, w: World, target: IdText, dto: ChangeStatusDto,
                          actor: UserId, now: Time, fault: Fault)
    requires Inv(ai, w) && ChangedStatus(w, target, dto, actor, now, fault).Success?
    ensures Inv(ai, ChangedStatus(w, target, dto, actor, now, fault).value)
  {
    var x := w.issues[target.id];
    var y := Decided(x, dto, now);
    var saved := w.(issues := w.issues[target.id := y]);
    assert RecordOk(w, target.id) && EvidenceOk(ai, w, target.id);
    DecidedIsSound(ai, w, target, dto, actor, now);
    SaveKeeps(ai, w, target.id, y);
    match SettlementOf(x.status, dto.status)
    case None =>
    case Some(d) => SettledKeeps(ai, saved, d, target.id, x.volunteer, fault);
  }

  lemma PlainSaveKeeps(ai: IssueVerificationService, w: World, r: Request)
    requires Inv(ai, w) && Handle(ai, w, r).Success?
    requires r.Create? || r.Edit? || r.Claim? || r.Release? || r.Start?
    ensures Inv(ai, Next(ai, w, r))
  {
    var t := Next(ai, w, r);
    if r.id in w.issues {
      assert RecordOk(w, r.id) && EvidenceOk(ai, w, r.id);
    }
    assert RecordOk(t, r.id) && EvidenceOk(ai, t, r.id);
    SaveKeeps(ai, w, r.id, t.issues[r.id]);
  }

  lemma NextKeeps(ai: IssueVerificationService, w: World, r: Request)
    requires Inv(ai, w)
    ensures Inv(ai, Next(ai, w, r))
  {
    if Handle(ai, w, r).Success? {
      match r
      case Create(_, _, _) => PlainSaveKeeps(ai, w, r);
      case Edit(_, _, _) => PlainSaveKeeps(ai, w, r);
      case Claim(_, _, _) => PlainSaveKeeps(ai, w, r);
      case Release(_, _) => PlainSaveKeeps(ai, w, r);
      case Start(_, _) => PlainSaveKeeps(ai, w, r);
      case Resolve(id, actor, note, outside, now) => ResolveKeeps(ai, w, id, actor, note, outside, now);
      case ChangeStatus(target, dto, actor, now, fault) => ChangeStatusKeeps(ai, w, target, dto, actor, now, fault);
      case Upload(id, actor, file, fid, now) => UploadKeeps(ai, w, id, actor, file, fid, now);
      case Remove(fid, actor) => RemoveKeeps(ai, w, fid, actor);
    }
  }

  lemma {:induction false} Reachable(ai: IssueVerificationService, rs: seq<Request>)
    ensures Inv(ai, Execute(ai, rs))
  {
    if rs == [] {
      EmptyIsWellFormed();
    } else {
      Reachable(ai, rs[..|rs| - 1]);
      NextKeeps(ai, Execute(ai, rs[..|rs| - 1]), rs[|rs| - 1]);
    }
  }

  // ---------------------------------------------------- named consequences

  /**
   In every reachable state an issue has a holder and a claim date exactly while it is held, the
   holder is never the reporter, submitted work has its note and date, a verified issue its date,
   a rejected one its reason, and duplicateOf is present exactly on duplicates and names an issue.
   */
  lemma {:induction false} RecordsMatchStatus(ai: IssueVerificationService, rs: seq<Request>, id: IssueId)
    requires id in Execute(ai, rs).issues
    ensures RecordOk(Execute(ai, rs), id)
  {
    Reachable(ai, rs);
  }

  lemma RemovalSparesSubmitted(w: World, fid: FileId, actor: UserId, id: IssueId)
    requires FilesOk(w) && Removed(w, fid, actor).Success?
    requires id in w.issues && Submitted(w.issues[id].status)
    ensures FilesOf(Removed(w, fid, actor).value.files, id) == FilesOf(w.files, id)
  {
    var gone := FindFile(w.files, fid).value;
    RemoveFiles(w, fid, actor);
    FoundIsFirst(w.files, fid);
    forall f | f in w.files && OfIssue(id)(f)
      ensures OtherThan(fid)(f)
    {
      DistinctIds(w.files, f, gone);
    }
    FilterThrough(OfIssue(id), OtherThan(fid), w.files);
  }

  lemma UploadSparesSubmitted(w: World, i: IssueId, actor: UserId, file: UploadedFile, fid: FileId,
                              now: Time, id: IssueId)
    requires Uploaded(w, i, actor, file, fid, now).Success?
    requires id in w.issues && Submitted(w.issues[id].status)
    ensures FilesOf(Uploaded(w, i, actor, file, fid, now).value.files, id) == FilesOf(w.files, id)
  {
    var f := Uploaded(w, i, actor, file, fid, now).value.files[|w.files|];
    assert f.issueId == Some(i) && i != id;
    FilterAppend(OfIssue(id), w.files, f);
    assert FilesOf(w.files, id) + [] == FilesOf(w.files, id);
  }

  /**
   Frozen evidence. Work that is RESOLVED, AI_APPROVED or VERIFIED still has a proof file by its
   current holder, and no request whatever adds or removes a file of it.
   */
  lemma {:induction false} FrozenEvidence(ai: IssueVerificationService, rs: seq<Request>, id: IssueId, r: Request)
    requires id in Execute(ai, rs).issues && Submitted(Execute(ai, rs).issues[id].status)
    ensures var w := Execute(ai, rs);
            && w.issues[id].volunteer.Some? && HasProof(w.files, id, w.issues[id].volunteer.value)
            && FilesOf(Next(ai, w, r).files, id) == FilesOf(w.files, id)
  {
    Reachable(ai, rs);
    var w := Execute(ai, rs);
    assert EvidenceOk(ai, w, id);
    if Handle(ai, w, r).Success? {
      if r.Upload? {
        UploadSparesSubmitted(w, r.id, r.actor, r.file, r.fid, r.now, id);
      } else if r.Remove? {
        RemovalSparesSubmitted(w, r.fid, r.actor, id);
      }
    }
  }

  /**
   An AI_APPROVED issue carries an APPROVED assessment at or above the threshold and still has a
   report file and a proof file by its holder; a RESOLVED one carries no approval.
   */
  lemma {:induction false} ApprovalIsOnRecord(ai: IssueVerificationService, rs: seq<Request>, id: IssueId)
    requires id in Execute(ai, rs).issues
    ensures var w := Execute(ai, rs);
            var x := w.issues[id];
            && (x.status.AI_APPROVED? ==>
                  && ai.enabled
                  && x.assessment.Some? && x.assessment.value.outcome.APPROVED?
                  && x.assessment.value.confidence.Some? && x.assessment.value.confidence.value >= ai.threshold
                  && HasReport(w.files, id)
                  && x.volunteer.Some? && HasProof(w.files, id, x.volunteer.value))
            && (x.status.RESOLVED? && x.assessment.Some? ==> !x.assessment.value.outcome.APPROVED?)
  {
    Reachable(ai, rs);
    assert EvidenceOk(ai, Execute(ai, rs), id);
  }

  /**
   Every stored file belongs to an issue, is a report exactly when the issue's reporter uploaded
   it, and is of an accepted type within that type's cap; no issue has more than five.
   */
  lemma FilesWithinCaps(ai: IssueVerificationService, rs: seq<Request>, id: IssueId)
    ensures var w := Execute(ai, rs);
            && (forall f :: f in w.files ==> FileOk(w.issues, f))
            && |FilesOf(w.files, id)| <= 5
  {
    Reachable(ai, rs);
  }

  /**
   What a citizen reported changes only by that citizen's own edit while the issue is OPEN, and
   what the model said only by a resolve: sending work back keeps the assessment.
   */
  lemma ContentHasOneSource(ai: IssueVerificationService, w: World, r: Request, id: IssueId)
    requires id in w.issues && id in Next(ai, w, r).issues
    ensures var x, y := w.issues[id], Next(ai, w, r).issues[id];
            && (y.report != x.report ==>
                  r.Edit? && r.id == id && r.actor == x.reportedBy && x.status.OPEN? && y == x.(report := y.report))
            && (y.assessment != x.assessment ==>
                  r.Resolve? && r.id == id && x.volunteer == Some(r.actor) && y.status in {RESOLVED, AI_APPROVED})
  {
    OthersUntouched(ai, w, r, id);
    if r.ChangeStatus? && Handle(ai, w, r).Success? && r.target.id == id {
      assert Next(ai, w, r).issues[id] == Decided(w.issues[id], r.dto, r.now);
    }
  }
}
