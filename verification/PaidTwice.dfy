/**
 A run without any failure in which two volunteers end up paid for one issue: the first takes
 VERIFIED work back up with the start route, which reverses nothing, and releases it.
 */
module PaidTwice {
  import opened Contracts
  import opened Sequences
  import opened Ledger
  import opened Store
  import opened CivicPoints
  import opened IssueMedia
  import opened IssueVerification
  import opened IssueLifecycle
  import opened Runs
  import opened Records
  import opened Conservation

  const AI: IssueVerificationService := IssueVerificationService(false, 0.7)
  const REPORTER: UserId := 1
  const ALICE: UserId := 2
  const BOB: UserId := 3
  const AGENCY: UserId := 9

  const REPORT: Report := Report("t", "d", "c", "l")
  const PHOTO: UploadedFile := UploadedFile("p", "image/png", [])
  const OUTSIDE: Outside := Outside(false, map[], Unparseable)
  const VERIFY: Request :=
    ChangeStatus(IdText(0, 0), ChangeStatusDto(VERIFIED, None, None), AGENCY, 0, NoFault)

  const RUN: seq<Request> := [
    Create(0, REPORTER, REPORT),
    Claim(0, ALICE, 0), Upload(0, ALICE, PHOTO, 0, 0), Resolve(0, ALICE, "n", OUTSIDE, 0), VERIFY,
    Start(0, ALICE), Release(0, ALICE),
    Claim(0, BOB, 0), Upload(0, BOB, PHOTO, 1, 0), Resolve(0, BOB, "n", OUTSIDE, 0), VERIFY]

  lemma RunStep(n: nat, w: World, r: Request, t: World)
    requires n < |RUN| && RUN[n] == r && Execute(AI, RUN[..n]) == w && Next(AI, w, r) == t
    ensures Execute(AI, RUN[..n + 1]) == t
  {
    assert RUN[..n + 1][..n] == RUN[..n];
  }

  /** The issue as `who` holds it; `verified` is the verification date it carries. */
  function Doc(who: Option<UserId>, status: Status, verified: Option<Time>): Issue {
    var done := status in {RESOLVED, VERIFIED} || (status.IN_PROGRESS? && verified.Some?);
    Issue(REPORTER, REPORT, status, None, None, who,
          if who.Some? then Some(0) else None,
          if done then Some("n") else None, if done then Some(0) else None, verified, None)
  }

  function Photo(fid: FileId, who: UserId): MediaFile {
    MediaFile(fid, "p", [], 0, Some(0), Some(who), Some("image/png"), Some(PROOF))
  }

  function Pay(who: UserId): Row {
    Row(who, 0, 10, RESOLUTION_VERIFIED, 0)
  }

  function Scene(x: Issue, files: seq<MediaFile>, rows: seq<Row>, cache: map<UserId, int>): World {
    World(map[0 := x], files, rows, cache)
  }

  lemma FirstUpload()
    ensures Execute(AI, RUN[..3]) == Scene(Doc(Some(ALICE), CLAIMED, None), [Photo(0, ALICE)], [], map[])
  {
    RunStep(0, EMPTY, RUN[0], Scene(Doc(None, OPEN, None), [], [], map[]));
    RunStep(1, Scene(Doc(None, OPEN, None), [], [], map[]), RUN[1],
            Scene(Doc(Some(ALICE), CLAIMED, None), [], [], map[]));
    var w := Scene(Doc(Some(ALICE), CLAIMED, None), [], [], map[]);
    assert [] + [Photo(0, ALICE)] == [Photo(0, ALICE)];
    assert FindFile(w.files, 0).None? && FilesOf(w.files, 0) == [];
    RunStep(2, w, RUN[2], w.(files := [Photo(0, ALICE)]));
  }

  lemma Resolves(files: seq<MediaFile>, w: World, who: UserId, verified: Option<Time>, r: Request)
    requires w.issues == map[0 := Doc(Some(who), CLAIMED, verified)]
    requires w.files == files + [Photo(0, who)] || w.files == files + [Photo(1, who)]
    requires r == Resolve(0, who, "n", OUTSIDE, 0)
    ensures Next(AI, w, r) == w.(issues := map[0 := Doc(Some(who), RESOLVED, verified)])
  {
    var last := w.files[|files|];
    FilterAppend(ProofBy(0, who), files, last);
    assert w.files == files + [last];
    assert w.issues[0 := Doc(Some(who), RESOLVED, verified)] == map[0 := Doc(Some(who), RESOLVED, verified)];
  }

  lemma NothingYet(rows: seq<Row>, who: UserId)
    requires forall k :: 0 <= k < |rows| ==> rows[k].user != who
    ensures NetFor(rows, who, 0) == Net(0, 0) && BalanceFor(rows, who) == 0 && !HasKey(rows, Pay(who))
  {
    FilterEmpty(OfPair(who, 0), rows);
    FilterEmpty(OfUser(who), rows);
  }

  lemma Pays(rows: seq<Row>, cache: map<UserId, int>, who: UserId)
    requires NetFor(rows, who, 0) == Net(0, 0) && !HasKey(rows, Pay(who)) && BalanceFor(rows + [Pay(who)], who) == 10
    ensures SettleWith(rows, cache, Direction.Award, who, 0, NoFault)
         == Settlement(rows + [Pay(who)], cache[who := 10], false)
  {
  }

  /** The agency's verification saves the document and goes on to pay the volunteer. */
  lemma Approves(w: World, who: UserId, verified: Option<Time>)
    requires w.issues == map[0 := Doc(Some(who), RESOLVED, verified)] && who != AGENCY
    ensures Next(AI, w, VERIFY)
         == Settled(w.(issues := map[0 := Doc(Some(who), VERIFIED, Some(0))]), Direction.Award, 0, Some(who), NoFault)
  {
    var x, y := Doc(Some(who), RESOLVED, verified), Doc(Some(who), VERIFIED, Some(0));
    assert w.issues[0 := y] == map[0 := y];
    assert StatusRefusal(w, VERIFY.target, VERIFY.dto, AGENCY).None?;
    assert Decided(x, VERIFY.dto, 0) == y;
  }

  lemma Verifies(w: World, who: UserId, verified: Option<Time>)
    requires w.issues == map[0 := Doc(Some(who), RESOLVED, verified)] && who != AGENCY
    requires forall k :: 0 <= k < |w.rows| ==> w.rows[k].user != who
    ensures Next(AI, w, VERIFY) == World(map[0 := Doc(Some(who), VERIFIED, Some(0))], w.files, w.rows + [Pay(who)],
                                         w.cache[who := 10])
  {
    Approves(w, who, verified);
    NothingYet(w.rows, who);
    BalanceAppend(w.rows, Pay(who), who);
    Pays(w.rows, w.cache, who);
  }

  lemma AliceResolves()
    ensures Execute(AI, RUN[..4]) == Scene(Doc(Some(ALICE), RESOLVED, None), [Photo(0, ALICE)], [], map[])
  {
    FirstUpload();
    var w3 := Scene(Doc(Some(ALICE), CLAIMED, None), [Photo(0, ALICE)], [], map[]);
    assert [] + [Photo(0, ALICE)] == [Photo(0, ALICE)];
    Resolves([], w3, ALICE, None, RUN[3]);
    RunStep(3, w3, RUN[3], w3.(issues := map[0 := Doc(Some(ALICE), RESOLVED, None)]));
  }

  lemma AliceVerified()
    ensures Next(AI, Scene(Doc(Some(ALICE), RESOLVED, None), [Photo(0, ALICE)], [], map[]), VERIFY)
         == Scene(Doc(Some(ALICE), VERIFIED, Some(0)), [Photo(0, ALICE)], [Pay(ALICE)], map[ALICE := 10])
  {
    Verifies(Scene(Doc(Some(ALICE), RESOLVED, None), [Photo(0, ALICE)], [], map[]), ALICE, None);
    assert [] + [Pay(ALICE)] == [Pay(ALICE)];
    assert (map[])[ALICE := 10] == map[ALICE := 10];
  }

  lemma AliceIsPaid()
    ensures Execute(AI, RUN[..5])
         == Scene(Doc(Some(ALICE), VERIFIED, Some(0)), [Photo(0, ALICE)], [Pay(ALICE)], map[ALICE := 10])
  {
    AliceResolves();
    AliceVerified();
    RunStep(4, Scene(Doc(Some(ALICE), RESOLVED, None), [Photo(0, ALICE)], [], map[]), RUN[4],
            Scene(Doc(Some(ALICE), VERIFIED, Some(0)), [Photo(0, ALICE)], [Pay(ALICE)], map[ALICE := 10]));
  }

  /** The issue is open again, Alice is still paid, and the verification date is still on it. */
  lemma AliceGivesUp()
    ensures Execute(AI, RUN[..7])
         == Scene(Doc(None, OPEN, Some(0)), [Photo(0, ALICE)], [Pay(ALICE)], map[ALICE := 10])
  {
    AliceIsPaid();
    var w5 := Scene(Doc(Some(ALICE), VERIFIED, Some(0)), [Photo(0, ALICE)], [Pay(ALICE)], map[ALICE := 10]);
    var w6 := w5.(issues := map[0 := Doc(Some(ALICE), IN_PROGRESS, Some(0))]);
    assert w5.issues[0 := Doc(Some(ALICE), IN_PROGRESS, Some(0))] == w6.issues;
    RunStep(5, w5, RUN[5], w6);
    assert w6.issues[0 := Doc(None, OPEN, Some(0))] == map[0 := Doc(None, OPEN, Some(0))];
    RunStep(6, w6, RUN[6], w6.(issues := map[0 := Doc(None, OPEN, Some(0))]));
  }

  lemma BobClaims()
    ensures Execute(AI, RUN[..8])
         == Scene(Doc(Some(BOB), CLAIMED, Some(0)), [Photo(0, ALICE)], [Pay(ALICE)], map[ALICE := 10])
  {
    AliceGivesUp();
    var w := Scene(Doc(None, OPEN, Some(0)), [Photo(0, ALICE)], [Pay(ALICE)], map[ALICE := 10]);
    var x := Doc(Some(BOB), CLAIMED, Some(0));
    assert w.issues[0 := x] == map[0 := x];
    RunStep(7, w, RUN[7], w.(issues := map[0 := x]));
  }

  lemma OneFile(f: MediaFile)
    requires f.issueId == Some(0) && f.id == 0
    ensures |FilesOf([f], 0)| == 1 && FindFile([f], 1).None?
  {
    assert [] + [f] == [f];
    FilterAppend(OfIssue(0), [], f);
    FilterAppend(OfFile(1), [], f);
  }

  lemma BobUploads()
    ensures Execute(AI, RUN[..9])
         == Scene(Doc(Some(BOB), CLAIMED, Some(0)), [Photo(0, ALICE), Photo(1, BOB)], [Pay(ALICE)], map[ALICE := 10])
  {
    BobClaims();
    var w := Scene(Doc(Some(BOB), CLAIMED, Some(0)), [Photo(0, ALICE)], [Pay(ALICE)], map[ALICE := 10]);
    OneFile(Photo(0, ALICE));
    assert [Photo(0, ALICE)] + [Photo(1, BOB)] == [Photo(0, ALICE), Photo(1, BOB)];
    RunStep(8, w, RUN[8], w.(files := [Photo(0, ALICE), Photo(1, BOB)]));
  }

  lemma BobResolves()
    ensures Execute(AI, RUN[..10])
         == Scene(Doc(Some(BOB), RESOLVED, Some(0)), [Photo(0, ALICE), Photo(1, BOB)], [Pay(ALICE)], map[ALICE := 10])
  {
    BobUploads();
    var w := Scene(Doc(Some(BOB), CLAIMED, Some(0)), [Photo(0, ALICE), Photo(1, BOB)], [Pay(ALICE)], map[ALICE := 10]);
    assert [Photo(0, ALICE)] + [Photo(1, BOB)] == [Photo(0, ALICE), Photo(1, BOB)];
    Resolves([Photo(0, ALICE)], w, BOB, Some(0), RUN[9]);
    RunStep(9, w, RUN[9], w.(issues := map[0 := Doc(Some(BOB), RESOLVED, Some(0))]));
  }

  lemma BobIsPaid()
    ensures Execute(AI, RUN)
         == Scene(Doc(Some(BOB), VERIFIED, Some(0)), [Photo(0, ALICE), Photo(1, BOB)], [Pay(ALICE), Pay(BOB)],
                  map[ALICE := 10, BOB := 10])
  {
    BobResolves();
    var files := [Photo(0, ALICE), Photo(1, BOB)];
    var w := Scene(Doc(Some(BOB), RESOLVED, Some(0)), files, [Pay(ALICE)], map[ALICE := 10]);
    Verifies(w, BOB, Some(0));
    assert [Pay(ALICE)] + [Pay(BOB)] == [Pay(ALICE), Pay(BOB)];
    assert map[ALICE := 10][BOB := 10] == map[ALICE := 10, BOB := 10];
    RunStep(10, w, RUN[10], Scene(Doc(Some(BOB), VERIFIED, Some(0)), files, [Pay(ALICE), Pay(BOB)],
                                  map[ALICE := 10, BOB := 10]));
    assert RUN[..11] == RUN;
  }

  lemma BothPaid()
    ensures var rows := [Pay(ALICE), Pay(BOB)];
            BalanceFor(rows, ALICE) == 10 && BalanceFor(rows, BOB) == 10 && NetFor(rows, ALICE, 0).total == 10
  {
    var rows := [Pay(ALICE), Pay(BOB)];
    assert rows == ([] + [Pay(ALICE)]) + [Pay(BOB)];
    BalanceAppend([], Pay(ALICE), ALICE);
    BalanceAppend([] + [Pay(ALICE)], Pay(BOB), ALICE);
    BalanceAppend([], Pay(ALICE), BOB);
    BalanceAppend([] + [Pay(ALICE)], Pay(BOB), BOB);
    NetAppend([], Pay(ALICE), ALICE, 0);
    NetAppend([] + [Pay(ALICE)], Pay(BOB), ALICE, 0);
  }

  /**
   Every request of the run is accepted and no operation fails; at its end one issue exists, it is
   verified for Bob, and the ledger owes ten points each to Alice and to Bob. On the way the issue
   was open while it carried a verification date.
   */
  lemma OneIssuePaidTwice()
    ensures var w := Execute(AI, RUN);
            && w.issues.Keys == {0} && Owed(w, BOB, 0) && !Owed(w, ALICE, 0)
            && BalanceFor(w.rows, ALICE) == 10 && BalanceFor(w.rows, BOB) == 10
            && !Conserved(w)
    ensures !AllTidy(Execute(AI, RUN[..7]))
  {
    AliceGivesUp();
    assert !Tidy(Execute(AI, RUN[..7]).issues[0]);
    BobIsPaid();
    BothPaid();
    assert NetFor(Execute(AI, RUN).rows, ALICE, 0).total == 10;
  }
}
