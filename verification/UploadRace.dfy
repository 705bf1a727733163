/**
 The per-issue file cap when uploads overlap: counting an issue's files and saving a new one are
 two steps, so several uploads may count before any of them saves.
 */
module UploadRace {
  import opened Contracts
  import opened Sequences
  import opened Store
  import opened IssueMedia

  /** Before its count; counted below the cap; saved, refused or failed. */
  datatype Stage = Waiting | Admitted | Ended

  datatype Upload = Upload(
    issue: IssueId,
    actor: UserId,
    file: UploadedFile,
    fid: FileId,
    purpose: Purpose,
    now: Time,
    stage: Stage)

  /** The files of all issues, and every upload that has passed the ownership and type checks. */
  datatype State = State(files: seq<MediaFile>, uploads: seq<Upload>)

  datatype Event =
    | Begin(upload: Upload)
    | Count(n: nat)
    | Save(n: nat)
    | Abort(n: nat)
    | Delete(fid: FileId)

  const START := State([], [])

  function Move(s: State, n: nat, stage: Stage): State
    requires n < |s.uploads|
  {
    s.(uploads := s.uploads[n := s.uploads[n].(stage := stage)])
  }

  /** The file an upload saves. */
  function FileOf(u: Upload): MediaFile {
    Attached(u.file, u.fid, u.issue, u.actor, u.purpose, u.now)
  }

  /** Events naming no upload at the right stage change nothing, so every event sequence is a run. */
  function Apply(s: State, e: Event): State {
    match e
    case Begin(u) => s.(uploads := s.uploads + [u.(stage := Waiting)])
    case Count(n) =>
      if n >= |s.uploads| || !s.uploads[n].stage.Waiting? then s
      else if |FilesOf(s.files, s.uploads[n].issue)| >= MAX_FILES_PER_ISSUE then Move(s, n, Ended)
      else Move(s, n, Admitted)
    case Save(n) =>
      if n >= |s.uploads| || !s.uploads[n].stage.Admitted? then s
      else if FindFile(s.files, s.uploads[n].fid).Some? then Move(s, n, Ended)
      else Move(s.(files := s.files + [FileOf(s.uploads[n])]), n, Ended)
    case Abort(n) =>
      if n >= |s.uploads| then s else Move(s, n, Ended)
    case Delete(fid) => s.(files := Filter(OtherThan(fid), s.files))
  }

  function Execute(events: seq<Event>): State {
    if events == [] then START else Apply(Execute(events[..|events| - 1]), events[|events| - 1])
  }

  function LiveFor(id: IssueId): Upload -> bool {
    (u: Upload) => u.issue == id && !u.stage.Ended?
  }

  function AdmittedFor(id: IssueId): Upload -> bool {
    (u: Upload) => u.issue == id && u.stage.Admitted?
  }

  function InFlight(s: State, id: IssueId): nat {
    |Filter(LiveFor(id), s.uploads)|
  }

  function Counted(s: State, id: IssueId): nat {
    |Filter(AdmittedFor(id), s.uploads)|
  }

  /** Never more than k uploads to issue `id` in flight at once: not now, and not at any earlier point. */
  predicate AtMost(events: seq<Event>, id: IssueId, k: nat) {
    InFlight(Execute(events), id) <= k && (events == [] || AtMost(events[..|events| - 1], id, k))
  }

  lemma {:induction false} CountedAreLive(uploads: seq<Upload>, id: IssueId)
    ensures |Filter(AdmittedFor(id), uploads)| <= |Filter(LiveFor(id), uploads)|
  {
    if uploads != [] {
      CountedAreLive(uploads[..|uploads| - 1], id);
    }
  }

  lemma MoveCounts(s: State, n: nat, stage: Stage, id: IssueId)
    requires n < |s.uploads|
    ensures Counted(Move(s, n, stage), id)
         == Counted(s, id) - (if AdmittedFor(id)(s.uploads[n]) then 1 else 0)
            + (if s.uploads[n].issue == id && stage.Admitted? then 1 else 0)
    ensures InFlight(Move(s, n, stage), id)
         == InFlight(s, id) - (if LiveFor(id)(s.uploads[n]) then 1 else 0)
            + (if s.uploads[n].issue == id && !stage.Ended? then 1 else 0)
  {
    CountUpdate(AdmittedFor(id), s.uploads, n, s.uploads[n].(stage := stage));
    CountUpdate(LiveFor(id), s.uploads, n, s.uploads[n].(stage := stage));
  }

  /** The files of an issue and the uploads about to add one stay within the bound together. */
  predicate Bounded(s: State, id: IssueId, k: nat) {
    |FilesOf(s.files, id)| + Counted(s, id) <= MAX_FILES_PER_ISSUE - 1 + k
  }

  lemma MoveStaysBounded(s: State, e: Event, id: IssueId, k: nat)
    requires k > 0 && Bounded(s, id, k) && InFlight(Apply(s, e), id) <= k
    requires (e.Count? || e.Save? || e.Abort?) && e.n < |s.uploads|
    ensures Bounded(Apply(s, e), id, k)
  {
    CountedAreLive(Apply(s, e).uploads, id);
    match e
    case Count(n) =>
      MoveCounts(s, n, Admitted, id);
      MoveCounts(s, n, Ended, id);
    case Save(n) =>
      MoveCounts(s, n, Ended, id);
      FilterAppend(OfIssue(id), s.files, FileOf(s.uploads[n]));
    case Abort(n) => MoveCounts(s, n, Ended, id);
  }

  lemma StaysBounded(s: State, e: Event, id: IssueId, k: nat)
    requires k > 0 && Bounded(s, id, k) && InFlight(Apply(s, e), id) <= k
    ensures Bounded(Apply(s, e), id, k)
  {
    match e
    case Begin(u) => FilterAppend(AdmittedFor(id), s.uploads, u.(stage := Waiting));
    case Count(n) => if n < |s.uploads| { MoveStaysBounded(s, e, id, k); }
    case Save(n) => if n < |s.uploads| { MoveStaysBounded(s, e, id, k); }
    case Abort(n) => if n < |s.uploads| { MoveStaysBounded(s, e, id, k); }
    case Delete(fid) => FilterShrinks(OfIssue(id), OtherThan(fid), s.files);
  }

  lemma {:induction false} AlwaysBounded(events: seq<Event>, id: IssueId, k: nat)
    requires k > 0 && AtMost(events, id, k)
    ensures Bounded(Execute(events), id, k)
  {
    if events != [] {
      var n := |events| - 1;
      AlwaysBounded(events[..n], id, k);
      StaysBounded(Execute(events[..n]), events[n], id, k);
    }
  }

  /**
   With at most k uploads to an issue in flight at once, whatever goes on at other issues, it never
   holds more than 4 + k files; one at a time gives the cap of 5.
   */
  lemma CapUnderOverlap(events: seq<Event>, id: IssueId, k: nat)
    requires k > 0 && AtMost(events, id, k)
    ensures |FilesOf(Execute(events).files, id)| <= MAX_FILES_PER_ISSUE - 1 + k
    ensures k == 1 ==> |FilesOf(Execute(events).files, id)| <= MAX_FILES_PER_ISSUE
  {
    AlwaysBounded(events, id, k);
  }

  // ------------------------------------------------------- one upload alone

  /** An upload whose steps nothing interrupts stores exactly what the single-step upload stores. */
  lemma UndisturbedUploadIsAtomic(s: State, w: World, u: Upload)
    requires s.files == w.files
    requires MayAttach(w, u.issue, u.actor) == Success(u.purpose) && CheckUpload(u.file.mimetype, |u.file.buffer|).None?
    ensures var n := |s.uploads|;
            var t := Apply(Apply(Apply(s, Begin(u)), Count(n)), Save(n));
            && t.uploads == s.uploads + [u.(stage := Ended)]
            && t.files == match Uploaded(w, u.issue, u.actor, u.file, u.fid, u.now)
                          case Success(w') => w'.files
                          case Failure(_) => w.files
  {
  }

  /** A deletion is the media service's removal, and an aborted upload stores nothing and is over. */
  lemma OtherEventsDo(s: State, w: World, fid: FileId, actor: UserId, n: nat)
    requires s.files == w.files && n < |s.uploads|
    ensures Removed(w, fid, actor).Success? ==>
              Apply(s, Delete(fid)) == State(Removed(w, fid, actor).value.files, s.uploads)
    ensures Apply(s, Abort(n)) == State(s.files, s.uploads[n := s.uploads[n].(stage := Ended)])
  {
  }

  // -------------------------------------------------------------- tightness

  /** Uploads carry distinct ids, and a stored file's upload has ended: no save meets a taken id. */
  predicate Numbered(s: State) {
    && (forall j :: 0 <= j < |s.uploads| ==> s.uploads[j].fid == j)
    && (forall f :: f in s.files ==> f.id < |s.uploads| && s.uploads[f.id].stage.Ended?)
  }

  /** Some run with at most k uploads to the issue in flight leads to `files` files and `counted` admitted uploads. */
  ghost predicate Reaches(id: IssueId, files: nat, counted: nat, k: nat) {
    exists events :: Leads(events, id, files, counted, k)
  }

  ghost predicate Leads(events: seq<Event>, id: IssueId, files: nat, counted: nat, k: nat) {
    var s := Execute(events);
    && AtMost(events, id, k) && Numbered(s)
    && |FilesOf(s.files, id)| == files && Counted(s, id) == counted == InFlight(s, id)
  }

  lemma OneMore(events: seq<Event>, e: Event, id: IssueId, k: nat)
    requires AtMost(events, id, k) && InFlight(Apply(Execute(events), e), id) <= k
    ensures AtMost(events + [e], id, k) && Execute(events + [e]) == Apply(Execute(events), e)
  {
    assert (events + [e])[..|events|] == events;
  }

  function Photo(id: IssueId, n: nat): Upload {
    Upload(id, 0, UploadedFile("p", "image/png", []), n, REPORT, 0, Waiting)
  }

  lemma BeginAndCount(s: State, id: IssueId)
    requires Numbered(s) && Counted(s, id) == InFlight(s, id) && |FilesOf(s.files, id)| < MAX_FILES_PER_ISSUE
    ensures var a := Apply(s, Begin(Photo(id, |s.uploads|)));
            var b := Apply(a, Count(|s.uploads|));
            && InFlight(a, id) == InFlight(b, id) == Counted(b, id) == Counted(s, id) + 1
            && Numbered(b) && b.files == s.files
  {
    var n := |s.uploads|;
    var a := Apply(s, Begin(Photo(id, n)));
    FilterAppend(AdmittedFor(id), s.uploads, Photo(id, n));
    FilterAppend(LiveFor(id), s.uploads, Photo(id, n));
    MoveCounts(a, n, Admitted, id);
    assert Apply(a, Count(n)) == Move(a, n, Admitted);
  }

  lemma Admit(id: IssueId, files: nat, counted: nat, k: nat)
    requires Reaches(id, files, counted, k) && files < MAX_FILES_PER_ISSUE && counted < k
    ensures Reaches(id, files, counted + 1, k)
  {
    var events :| Leads(events, id, files, counted, k);
    var s := Execute(events);
    var n := |s.uploads|;
    BeginAndCount(s, id);
    OneMore(events, Begin(Photo(id, n)), id, k);
    OneMore(events + [Begin(Photo(id, n))], Count(n), id, k);
    assert Leads(events + [Begin(Photo(id, n))] + [Count(n)], id, files, counted + 1, k);
  }

  lemma SaveOne(s: State, n: nat, id: IssueId)
    requires Numbered(s) && n < |s.uploads| && AdmittedFor(id)(s.uploads[n])
    ensures var t := Apply(s, Save(n));
            && Numbered(t) && |FilesOf(t.files, id)| == |FilesOf(s.files, id)| + 1
            && Counted(t, id) == Counted(s, id) - 1 && InFlight(t, id) == InFlight(s, id) - 1
  {
    FilterEmpty(OfFile(n), s.files);
    var saved := s.(files := s.files + [FileOf(s.uploads[n])]);
    FilterAppend(OfIssue(id), s.files, FileOf(s.uploads[n]));
    MoveCounts(saved, n, Ended, id);
    assert Apply(s, Save(n)) == Move(saved, n, Ended);
  }

  lemma Land(id: IssueId, files: nat, counted: nat, k: nat)
    requires Reaches(id, files, counted, k) && counted > 0
    ensures Reaches(id, files + 1, counted - 1, k)
  {
    var events :| Leads(events, id, files, counted, k);
    var s := Execute(events);
    var u := Filter(AdmittedFor(id), s.uploads)[0];
    FilterMember(AdmittedFor(id), s.uploads, u);
    var n :| 0 <= n < |s.uploads| && s.uploads[n] == u;
    SaveOne(s, n, id);
    OneMore(events, Save(n), id, k);
    assert Leads(events + [Save(n)], id, files + 1, counted - 1, k);
  }

  /** Uploads one after another fill the issue up to the cap. */
  lemma {:induction false} OneByOne(id: IssueId, n: nat, k: nat)
    requires n < MAX_FILES_PER_ISSUE && k > 0
    ensures Reaches(id, n, 0, k)
  {
    if n == 0 {
      assert Leads([], id, 0, 0, k);
    } else {
      OneByOne(id, n - 1, k);
      Admit(id, n - 1, 0, k);
      Land(id, n - 1, 1, k);
    }
  }

  /** Any number of uploads may all count below the cap before the first of them saves. */
  lemma {:induction false} AdmitAll(id: IssueId, n: nat, k: nat)
    requires n <= k && k > 0
    ensures Reaches(id, MAX_FILES_PER_ISSUE - 1, n, k)
  {
    if n == 0 {
      OneByOne(id, MAX_FILES_PER_ISSUE - 1, k);
    } else {
      AdmitAll(id, n - 1, k);
      Admit(id, MAX_FILES_PER_ISSUE - 1, n - 1, k);
    }
  }

  lemma {:induction false} LandAll(id: IssueId, n: nat, k: nat)
    requires n <= k && k > 0
    ensures Reaches(id, MAX_FILES_PER_ISSUE - 1 + n, k - n, k)
  {
    if n == 0 {
      AdmitAll(id, k, k);
    } else {
      LandAll(id, n - 1, k);
      Land(id, MAX_FILES_PER_ISSUE - 1 + n - 1, k - n + 1, k);
    }
  }

  /** The bound is reached for every k and every issue, so it is the exact one. */
  lemma CapIsTight(id: IssueId, k: nat)
    requires k > 0
    ensures exists events :: AtMost(events, id, k)
                             && |FilesOf(Execute(events).files, id)| == MAX_FILES_PER_ISSUE - 1 + k
  {
    LandAll(id, k, k);
    var events :| Leads(events, id, MAX_FILES_PER_ISSUE - 1 + k, 0, k);
  }
}
