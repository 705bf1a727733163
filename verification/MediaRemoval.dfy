/**
 Who can make a stored file disappear. The backend's own description names the reporter of an OPEN
 issue; the code asks the rule for attaching, so the holder can delete too, the reporter's
 photographs included.
 */
module MediaRemoval {
  import opened Contracts
  import opened Sequences
  import opened Store
  import opened IssueMedia
  import opened IssueVerification
  import opened IssueLifecycle
  import opened Runs

  /** The request makes the file disappear. */
  predicate Loses(ai: IssueVerificationService, w: World, r: Request, f: MediaFile) {
    f in w.files && f !in Next(ai, w, r).files
  }

  /** Deletes its own report: the actor reported the file's issue, which is OPEN. */
  predicate ByReporter(w: World, r: Request, f: MediaFile) {
    && r.Remove? && f.issueId.Some? && f.issueId.value in w.issues
    && w.issues[f.issueId.value].status.OPEN? && w.issues[f.issueId.value].reportedBy == r.actor
  }

  /** Deletes as the volunteer at work: the actor holds the file's issue, which is CLAIMED or IN_PROGRESS. */
  predicate ByHolder(w: World, r: Request, f: MediaFile) {
    && r.Remove? && f.issueId.Some? && f.issueId.value in w.issues
    && w.issues[f.issueId.value].status in {CLAIMED, IN_PROGRESS}
    && w.issues[f.issueId.value].volunteer == Some(r.actor)
  }

  lemma OnlyRemovesLose(ai: IssueVerificationService, w: World, r: Request, f: MediaFile)
    requires Loses(ai, w, r, f)
    ensures r.Remove? && Removed(w, r.fid, r.actor).Success?
  {
  }

  /** A file that a request makes disappear is the one named, and its reporter or its issue's holder named it. */
  lemma LostOnlyByReporterOrHolder(ai: IssueVerificationService, w: World, r: Request, f: MediaFile)
    requires Loses(ai, w, r, f)
    requires forall j, k :: 0 <= j < k < |w.files| ==> w.files[j].id != w.files[k].id
    ensures r.Remove? && f.id == r.fid && FindFile(w.files, r.fid) == Some(f)
    ensures ByReporter(w, r, f) || ByHolder(w, r, f)
  {
    OnlyRemovesLose(ai, w, r, f);
    KeptFiles(w.files, r.fid);
    FoundIsFirst(w.files, r.fid);
    var gone := FindFile(w.files, r.fid).value;
    if f != gone {
      DistinctIds(w.files, f, gone);
    }
  }

  /** A removal that is accepted makes the file it names disappear. */
  lemma RemovalLoses(ai: IssueVerificationService, w: World, r: Request)
    requires r.Remove? && Removed(w, r.fid, r.actor).Success?
    ensures FindFile(w.files, r.fid).Some? && Loses(ai, w, r, FindFile(w.files, r.fid).value)
  {
    FoundIsFirst(w.files, r.fid);
    KeptFiles(w.files, r.fid);
  }

  /** An accepted removal that found its issue being worked on. */
  predicate HeldRemoval(ai: IssueVerificationService, w: World, r: Request) {
    && r.Remove? && Handle(ai, w, r).Success?
    && FindFile(w.files, r.fid).Some? && FindFile(w.files, r.fid).value.issueId.Some?
    && var id := FindFile(w.files, r.fid).value.issueId.value;
       id in w.issues && w.issues[id].status in {CLAIMED, IN_PROGRESS}
  }

  /** As described: whatever disappears was deleted by its reporter while the issue was OPEN. */
  ghost predicate AsDescribed(ai: IssueVerificationService, w: World, r: Request) {
    forall f :: Loses(ai, w, r, f) ==> ByReporter(w, r, f)
  }

  lemma AsDescribedStep(ai: IssueVerificationService, w: World, r: Request)
    requires Inv(ai, w)
    ensures AsDescribed(ai, w, r) <==> !HeldRemoval(ai, w, r)
  {
    if HeldRemoval(ai, w, r) {
      RemovalLoses(ai, w, r);
      assert !ByReporter(w, r, FindFile(w.files, r.fid).value);
    } else {
      forall f | Loses(ai, w, r, f)
        ensures ByReporter(w, r, f)
      {
        LostOnlyByReporterOrHolder(ai, w, r, f);
        OnlyRemovesLose(ai, w, r, f);
      }
    }
  }

  ghost predicate AsDescribedThroughout(ai: IssueVerificationService, rs: seq<Request>) {
    rs == [] ||
    (AsDescribed(ai, Execute(ai, rs[..|rs| - 1]), rs[|rs| - 1]) && AsDescribedThroughout(ai, rs[..|rs| - 1]))
  }

  predicate NoHeldRemoval(ai: IssueVerificationService, rs: seq<Request>) {
    rs == [] ||
    (!HeldRemoval(ai, Execute(ai, rs[..|rs| - 1]), rs[|rs| - 1]) && NoHeldRemoval(ai, rs[..|rs| - 1]))
  }

  /**
   Throughout a run files disappear only at the hands of their issue's reporter while it is OPEN,
   if and only if no accepted removal found its issue CLAIMED or IN_PROGRESS.
   */
  lemma {:induction false} AsDescribedExactly(ai: IssueVerificationService, rs: seq<Request>)
    ensures AsDescribedThroughout(ai, rs) <==> NoHeldRemoval(ai, rs)
  {
    if rs != [] {
      var n := |rs| - 1;
      AsDescribedExactly(ai, rs[..n]);
      Reachable(ai, rs[..n]);
      AsDescribedStep(ai, Execute(ai, rs[..n]), rs[n]);
    }
  }

  // ------------------------------------------------- the before photographs

  /** A report file of an issue that has left OPEN: what the work will be compared against. */
  predicate Before(w: World, f: MediaFile) {
    && f in w.files && f.purpose == Some(REPORT)
    && f.issueId.Some? && f.issueId.value in w.issues && !w.issues[f.issueId.value].status.OPEN?
  }

  ghost predicate BeforesSurvive(ai: IssueVerificationService, w: World, r: Request) {
    forall f :: Before(w, f) ==> f in Next(ai, w, r).files
  }

  /** An accepted removal, by the holder at work, of a report file. */
  predicate HeldReportRemoval(ai: IssueVerificationService, w: World, r: Request) {
    HeldRemoval(ai, w, r) && FindFile(w.files, r.fid).value.purpose == Some(REPORT)
  }

  lemma BeforesSurviveStep(ai: IssueVerificationService, w: World, r: Request)
    requires Inv(ai, w)
    ensures BeforesSurvive(ai, w, r) <==> !HeldReportRemoval(ai, w, r)
  {
    if HeldReportRemoval(ai, w, r) {
      RemovalLoses(ai, w, r);
      assert Before(w, FindFile(w.files, r.fid).value);
    } else {
      forall f | Before(w, f)
        ensures f in Next(ai, w, r).files
      {
        if Loses(ai, w, r, f) {
          LostOnlyByReporterOrHolder(ai, w, r, f);
          OnlyRemovesLose(ai, w, r, f);
        }
      }
    }
  }

  ghost predicate BeforesSurviveThroughout(ai: IssueVerificationService, rs: seq<Request>) {
    rs == [] ||
    (BeforesSurvive(ai, Execute(ai, rs[..|rs| - 1]), rs[|rs| - 1]) && BeforesSurviveThroughout(ai, rs[..|rs| - 1]))
  }

  predicate NoHeldReportRemoval(ai: IssueVerificationService, rs: seq<Request>) {
    rs == [] ||
    (!HeldReportRemoval(ai, Execute(ai, rs[..|rs| - 1]), rs[|rs| - 1]) && NoHeldReportRemoval(ai, rs[..|rs| - 1]))
  }

  /**
   Throughout a run no report file is lost once its issue has left OPEN, if and only if no accepted
   removal by a holder named a report file.
   */
  lemma {:induction false} BeforesSurviveExactly(ai: IssueVerificationService, rs: seq<Request>)
    ensures BeforesSurviveThroughout(ai, rs) <==> NoHeldReportRemoval(ai, rs)
  {
    if rs != [] {
      var n := |rs| - 1;
      BeforesSurviveExactly(ai, rs[..n]);
      Reachable(ai, rs[..n]);
      BeforesSurviveStep(ai, Execute(ai, rs[..n]), rs[n]);
    }
  }

  /** The issue was not OPEN at any point from the t-th state on. */
  predicate AwayFromOpen(ai: IssueVerificationService, rs: seq<Request>, id: IssueId, t: nat) {
    && id in Execute(ai, rs).issues && !Execute(ai, rs).issues[id].status.OPEN?
    && (t < |rs| ==> AwayFromOpen(ai, rs[..|rs| - 1], id, t))
  }

  /**
   In such a run, a report file present when its issue left OPEN is still there for as long as the
   issue stays away from OPEN, and so at every assessment in between.
   */
  lemma {:induction false} BeforesReachAssessment(ai: IssueVerificationService, rs: seq<Request>, t: nat, f: MediaFile,
                                                  id: IssueId)
    requires NoHeldReportRemoval(ai, rs) && t <= |rs|
    requires f in Execute(ai, rs[..t]).files && ReportOf(id)(f) && AwayFromOpen(ai, rs, id, t)
    ensures f in Execute(ai, rs).files
  {
    if t == |rs| {
      assert rs[..t] == rs;
    } else {
      var n := |rs| - 1;
      assert rs[..n][..t] == rs[..t];
      BeforesReachAssessment(ai, rs[..n], t, f, id);
      Reachable(ai, rs[..n]);
      BeforesSurviveStep(ai, Execute(ai, rs[..n]), rs[n]);
      assert Before(Execute(ai, rs[..n]), f);
    }
  }

  // ------------------------------------------------------------ the witness

  const REPORTER: UserId := 1
  const VOLUNTEER: UserId := 2
  const REPORT_TEXT: Report := Report("t", "d", "c", "l")
  const PHOTO: UploadedFile := UploadedFile("p", "image/png", [])

  const RUN: seq<Request> := [
    Create(0, REPORTER, REPORT_TEXT), Upload(0, REPORTER, PHOTO, 0, 0), Claim(0, VOLUNTEER, 0), Remove(0, VOLUNTEER)]

  const REPORTED: Issue := NewIssue(REPORTER, REPORT_TEXT)
  const HELD: Issue := REPORTED.(volunteer := Some(VOLUNTEER), claimedAt := Some(0), status := CLAIMED)
  const BEFORE: MediaFile := MediaFile(0, "p", [], 0, Some(0), Some(REPORTER), Some("image/png"), Some(REPORT))

  lemma RunStep(ai: IssueVerificationService, n: nat, w: World, r: Request, t: World)
    requires n < |RUN| && RUN[n] == r && Execute(ai, RUN[..n]) == w && Next(ai, w, r) == t
    ensures Execute(ai, RUN[..n + 1]) == t
  {
    assert RUN[..n + 1][..n] == RUN[..n];
  }

  lemma ReporterUploads(ai: IssueVerificationService)
    ensures Execute(ai, RUN[..2]) == World(map[0 := REPORTED], [BEFORE], [], map[])
  {
    var w := World(map[0 := REPORTED], [], [], map[]);
    RunStep(ai, 0, EMPTY, RUN[0], w);
    assert [] + [BEFORE] == [BEFORE];
    RunStep(ai, 1, w, RUN[1], w.(files := [BEFORE]));
  }

  lemma VolunteerClaims(ai: IssueVerificationService)
    ensures Execute(ai, RUN[..3]) == World(map[0 := HELD], [BEFORE], [], map[])
  {
    ReporterUploads(ai);
    var w := World(map[0 := REPORTED], [BEFORE], [], map[]);
    assert w.issues[0 := HELD] == map[0 := HELD];
    RunStep(ai, 2, w, RUN[2], w.(issues := map[0 := HELD]));
  }

  lemma OneFile()
    ensures FindFile([BEFORE], 0) == Some(BEFORE) && Filter(OtherThan(0), [BEFORE]) == []
  {
    assert [] + [BEFORE] == [BEFORE];
    FilterAppend(OfFile(0), [], BEFORE);
    FilterAppend(OtherThan(0), [], BEFORE);
  }

  /** The volunteer claims the issue and erases the photograph its reporter had taken of it. */
  lemma HolderErasesReport(ai: IssueVerificationService)
    ensures var w, t := Execute(ai, RUN[..3]), Execute(ai, RUN);
            && BEFORE in w.files && Before(w, BEFORE) && BEFORE.uploadedBy == Some(w.issues[0].reportedBy)
            && RUN[3].actor != w.issues[0].reportedBy
            && t.files == [] && t.issues == w.issues
    ensures !AsDescribedThroughout(ai, RUN) && !BeforesSurviveThroughout(ai, RUN)
  {
    VolunteerClaims(ai);
    OneFile();
    var w := World(map[0 := HELD], [BEFORE], [], map[]);
    RunStep(ai, 3, w, RUN[3], w.(files := []));
    assert RUN[..4] == RUN && RUN[..|RUN| - 1] == RUN[..3];
    assert Loses(ai, w, RUN[3], BEFORE) && !ByReporter(w, RUN[3], BEFORE);
  }
}
