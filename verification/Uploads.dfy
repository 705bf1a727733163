/** What an upload or a removal comes to: when it is accepted, what it stores, and what comes back. */
module Uploads {
  import opened Contracts
  import opened Sequences
  import opened Store
  import opened IssueMedia
  import opened IssueVerification
  import opened Download
  import opened ByteRange
  import opened Decimal
  import opened Runs

  /** The actor may touch the issue's media: its reporter while OPEN, its holder while at work. */
  predicate Permitted(w: World, id: IssueId, actor: UserId) {
    id in w.issues &&
    var x := w.issues[id];
    || (x.status == OPEN && x.reportedBy == actor)
    || (x.status in {CLAIMED, IN_PROGRESS} && x.volunteer == Some(actor))
  }

  /** One of the five accepted types, within 5 MiB for a photograph and 50 MiB for a video. */
  predicate Acceptable(mimetype: string, size: nat) {
    || (mimetype in {"image/jpeg", "image/png", "image/webp"} && size <= 5_242_880)
    || (mimetype in {"video/mp4", "video/webm"} && size <= 52_428_800)
  }

  /** An upload goes through for the permitted actor, an acceptable file and an issue with fewer than five. */
  lemma UploadAcceptedExactly(w: World, id: IssueId, actor: UserId, file: UploadedFile, fid: FileId, now: Time)
    ensures Uploaded(w, id, actor, file, fid, now).Success? <==>
              && Permitted(w, id, actor) && Acceptable(file.mimetype, |file.buffer|)
              && |Filter((f: MediaFile) => f.issueId == Some(id), w.files)| < 5
              && (forall f :: f in w.files ==> f.id != fid)
  {
    FilterSame((f: MediaFile) => f.issueId == Some(id), OfIssue(id), w.files);
    FoundIsFirst(w.files, fid);
  }

  /** What a permitted actor is told of an unacceptable file: the type is wrong, or which cap it exceeds. */
  lemma UnacceptableAnswers(w: World, id: IssueId, actor: UserId, file: UploadedFile, fid: FileId, now: Time)
    requires Permitted(w, id, actor)
    ensures var r := Uploaded(w, id, actor, file, fid, now);
            && (r == Failure(UnsupportedType) <==>
                  file.mimetype !in {"image/jpeg", "image/png", "image/webp", "video/mp4", "video/webm"})
            && (r == Failure(TooLarge(Image, 5_242_880)) <==>
                  file.mimetype in {"image/jpeg", "image/png", "image/webp"} && |file.buffer| > 5_242_880)
            && (r == Failure(TooLarge(Video, 52_428_800)) <==>
                  file.mimetype in {"video/mp4", "video/webm"} && |file.buffer| > 52_428_800)
  {
  }

  /** An accepted upload adds one file with the bytes, name and type sent, and leaves everything else alone. */
  lemma UploadStores(w: World, id: IssueId, actor: UserId, file: UploadedFile, fid: FileId, now: Time)
    requires Uploaded(w, id, actor, file, fid, now).Success?
    ensures var t := Uploaded(w, id, actor, file, fid, now).value;
            && t.issues == w.issues && t.rows == w.rows && t.cache == w.cache
            && |t.files| == |w.files| + 1 && t.files[..|w.files|] == w.files
            && var f := t.files[|w.files|];
               && f.id == fid && f.data == file.buffer && f.filename == file.originalname
               && f.contentType == Some(file.mimetype) && f.issueId == Some(id) && f.uploadedBy == Some(actor)
               && f.uploadDate == now
               && f.purpose == Some(if w.issues[id].status == OPEN then REPORT else PROOF)
  {
  }

  lemma UploadIsFound(w: World, id: IssueId, actor: UserId, file: UploadedFile, fid: FileId, now: Time)
    requires Uploaded(w, id, actor, file, fid, now).Success?
    ensures var t := Uploaded(w, id, actor, file, fid, now).value;
            FindFile(t.files, fid) == Some(t.files[|w.files|])
  {
    var f := Uploaded(w, id, actor, file, fid, now).value.files[|w.files|];
    FilterAppend(OfFile(fid), w.files, f);
  }

  /** A removal goes through for a stored file of an issue whose media the actor may touch. */
  lemma RemovalAcceptedExactly(w: World, fid: FileId, actor: UserId)
    requires forall j, k :: 0 <= j < k < |w.files| ==> w.files[j].id != w.files[k].id
    ensures Removed(w, fid, actor).Success? <==>
              exists f :: f in w.files && f.id == fid && f.issueId.Some? && Permitted(w, f.issueId.value, actor)
  {
    FoundIsFirst(w.files, fid);
    if f :| f in w.files && f.id == fid && f.issueId.Some? && Permitted(w, f.issueId.value, actor) {
      var found := FindFile(w.files, fid).value;
      if f != found {
        DistinctIds(w.files, f, found);
      }
    }
  }

  /** An accepted removal leaves every other file, in its place, and everything else alone. */
  lemma RemovalKeepsOthers(w: World, fid: FileId, actor: UserId)
    requires Removed(w, fid, actor).Success?
    ensures Removed(w, fid, actor).value == w.(files := Filter((f: MediaFile) => f.id != fid, w.files))
  {
    FilterSame((f: MediaFile) => f.id != fid, OtherThan(fid), w.files);
  }

  // ---------------------------------------------------- upload and download

  /** Only its own removal makes a file id lead elsewhere. */
  lemma FileStays(ai: IssueVerificationService, w: World, r: Request, fid: FileId)
    requires FindFile(w.files, fid).Some? && !(r.Remove? && r.fid == fid)
    ensures FindFile(Next(ai, w, r).files, fid) == FindFile(w.files, fid)
  {
    if r.Upload? && Handle(ai, w, r).Success? {
      var f := Next(ai, w, r).files[|w.files|];
      assert f.id != fid;
      FilterAppend(OfFile(fid), w.files, f);
    } else if r.Remove? && Handle(ai, w, r).Success? {
      FilterThrough(OfFile(fid), OtherThan(r.fid), w.files);
    }
  }

  /** The t-th request is an accepted upload of `file` as `fid`, and no later one names `fid` for removal. */
  predicate UploadedAndKept(ai: IssueVerificationService, rs: seq<Request>, t: nat, file: UploadedFile, fid: FileId) {
    && t < |rs| && rs[t].Upload? && rs[t].file == file && rs[t].fid == fid
    && Handle(ai, Execute(ai, rs[..t]), rs[t]).Success?
    && forall k :: t < k < |rs| ==> !(rs[k].Remove? && rs[k].fid == fid)
  }

  /** The id leads to a file with the bytes and the type sent. */
  predicate Holds(w: World, file: UploadedFile, fid: FileId) {
    var found := FindFile(w.files, fid);
    found.Some? && found.value.data == file.buffer && found.value.contentType == Some(file.mimetype)
  }

  lemma UploadHolds(ai: IssueVerificationService, w: World, r: Request)
    requires r.Upload? && Handle(ai, w, r).Success?
    ensures Holds(Next(ai, w, r), r.file, r.fid)
  {
    UploadStores(w, r.id, r.actor, r.file, r.fid, r.now);
    UploadIsFound(w, r.id, r.actor, r.file, r.fid, r.now);
  }

  lemma {:induction false} UploadStaysFound(ai: IssueVerificationService, rs: seq<Request>, t: nat,
                                            file: UploadedFile, fid: FileId, n: nat)
    requires UploadedAndKept(ai, rs, t, file, fid) && t < n <= |rs|
    ensures Holds(Execute(ai, rs[..n]), file, fid)
  {
    var m := n - 1;
    assert rs[..n] == rs[..m] + [rs[m]];
    ExecuteNext(ai, rs[..m], rs[m]);
    if t == m {
      UploadHolds(ai, Execute(ai, rs[..m]), rs[m]);
    } else {
      UploadStaysFound(ai, rs, t, file, fid, m);
      FileStays(ai, Execute(ai, rs[..m]), rs[m], fid);
    }
  }

  /**
   What was uploaded comes back. Whatever happened since, short of its removal, a download without a
   Range header answers 200 with exactly the bytes and the type that were uploaded.
   */
  lemma {:induction false} DownloadReturnsUpload(ai: IssueVerificationService, rs: seq<Request>, t: nat,
                                                 file: UploadedFile, fid: FileId)
    requires UploadedAndKept(ai, rs, t, file, fid)
    ensures var found := FindFile(Execute(ai, rs).files, fid);
            && found.Some? && Download.Serve(found.value, None).Success?
            && var s := Download.Serve(found.value, None).value;
               && s.status == 200 && s.body == file.buffer
               && "Content-Type" in s.headers && s.headers["Content-Type"] == file.mimetype
               && "Content-Length" in s.headers && s.headers["Content-Length"] == Print(|file.buffer|)
  {
    UploadStaysFound(ai, rs, t, file, fid, |rs|);
    assert rs[..|rs|] == rs;
    var f := FindFile(Execute(ai, rs).files, fid).value;
    RefusedExactly(f, None);
    ResponseAgrees(f, None);
  }
}
