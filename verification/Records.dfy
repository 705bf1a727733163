/**
 Two promises about stored records that the code keeps only under a condition on the requests:
 no leftovers of an earlier resolution, and no issue marked a duplicate of itself.
 */
module Records {
  import opened Contracts
  import opened Store
  import opened CivicPoints
  import opened IssueVerification
  import opened IssueLifecycle
  import opened Runs

  // -------------------------------------------------------------- leftovers

  ghost predicate AllTidy(w: World) {
    forall id :: id in w.issues ==> Tidy(w.issues[id])
  }

  /** A start that is accepted although the work has already been submitted. */
  predicate LateStart(ai: IssueVerificationService, w: World, r: Request) {
    r.Start? && Handle(ai, w, r).Success? && !w.issues[r.id].status.CLAIMED?
  }

  lemma DecidedIsTidy(w: World, id: IssueId, dto: ChangeStatusDto, now: Time)
    requires id in w.issues && RecordOk(w, id) && Tidy(w.issues[id])
    requires CanMove(w.issues[id].status, dto.status) && dto.status in AGENCY_TARGETS
    requires dto.status.DUPLICATE? ==> dto.duplicateOf.Some?
    ensures Tidy(Decided(w.issues[id], dto, now))
  {
  }

  lemma StatusChangeIsTidy(ai: IssueVerificationService, w: World, r: Request)
    requires Inv(ai, w) && AllTidy(w) && r.ChangeStatus? && Handle(ai, w, r).Success?
    ensures Tidy(Next(ai, w, r).issues[r.target.id])
  {
    assert StatusRefusal(w, r.target, r.dto, r.actor).None?;
    DecidedIsTidy(w, r.target.id, r.dto, r.now);
  }

  lemma StaysTidy(ai: IssueVerificationService, w: World, r: Request, id: IssueId)
    requires Inv(ai, w) && AllTidy(w) && !LateStart(ai, w, r) && id in Next(ai, w, r).issues
    ensures Tidy(Next(ai, w, r).issues[id])
  {
    OthersUntouched(ai, w, r, id);
    if id in w.issues {
      assert Tidy(w.issues[id]) && RecordOk(w, id);
      if r.ChangeStatus? && Handle(ai, w, r).Success? && id == r.target.id {
        StatusChangeIsTidy(ai, w, r);
      }
    }
  }

  lemma TidyStep(ai: IssueVerificationService, w: World, r: Request)
    requires Inv(ai, w) && AllTidy(w)
    ensures AllTidy(Next(ai, w, r)) <==> !LateStart(ai, w, r)
  {
    var t := Next(ai, w, r);
    if LateStart(ai, w, r) {
      assert RecordOk(w, r.id);
      assert !Tidy(t.issues[r.id]);
    } else {
      forall id | id in t.issues
        ensures Tidy(t.issues[id])
      {
        StaysTidy(ai, w, r, id);
      }
    }
  }

  /** At the end of the run, and at every earlier point of it, no issue carries leftovers. */
  ghost predicate TidyThroughout(ai: IssueVerificationService, rs: seq<Request>) {
    AllTidy(Execute(ai, rs)) && (rs == [] || TidyThroughout(ai, rs[..|rs| - 1]))
  }

  ghost predicate NoLateStart(ai: IssueVerificationService, rs: seq<Request>) {
    rs == [] ||
    (!LateStart(ai, Execute(ai, rs[..|rs| - 1]), rs[|rs| - 1]) && NoLateStart(ai, rs[..|rs| - 1]))
  }

  /**
   resolvedAt, resolutionNote and verifiedAt are present exactly in the statuses they belong to,
   throughout a run, if and only if every accepted start found its issue CLAIMED. The start route
   checks the transition table alone, which also lets the holder start RESOLVED, AI_APPROVED and
   VERIFIED work, and start clears nothing.
   */
  lemma {:induction false} TidyExactlyWithoutLateStarts(ai: IssueVerificationService, rs: seq<Request>)
    ensures TidyThroughout(ai, rs) <==> NoLateStart(ai, rs)
  {
    if rs != [] {
      var n := |rs| - 1;
      TidyExactlyWithoutLateStarts(ai, rs[..n]);
      if TidyThroughout(ai, rs[..n]) {
        Reachable(ai, rs[..n]);
        TidyStep(ai, Execute(ai, rs[..n]), rs[n]);
      }
    }
  }

  // --------------------------------------------------------- self-duplicates

  ghost predicate NoSelfDuplicate(w: World) {
    forall id :: id in w.issues ==> w.issues[id].duplicateOf != Some(id)
  }

  /** Accepted as a duplicate of the same issue under another spelling of its id. */
  predicate Respelled(ai: IssueVerificationService, w: World, r: Request) {
    && r.ChangeStatus? && Handle(ai, w, r).Success? && r.dto.status.DUPLICATE?
    && r.dto.duplicateOf.Some? && r.dto.duplicateOf.value.id == r.target.id
  }

  lemma SelfDuplicateStep(ai: IssueVerificationService, w: World, r: Request)
    requires NoSelfDuplicate(w)
    ensures NoSelfDuplicate(Next(ai, w, r)) <==> !Respelled(ai, w, r)
    ensures Respelled(ai, w, r) ==> r.dto.duplicateOf.value.spelling != r.target.spelling
  {
    var t := Next(ai, w, r);
    if Respelled(ai, w, r) {
      assert t.issues[r.target.id].duplicateOf == Some(r.target.id);
    } else {
      forall id | id in t.issues
        ensures t.issues[id].duplicateOf != Some(id)
      {
        OthersUntouched(ai, w, r, id);
        if r.ChangeStatus? && Handle(ai, w, r).Success? && id == r.target.id {
          assert t.issues[id] == Decided(w.issues[id], r.dto, r.now);
        }
      }
    }
  }

  ghost predicate NoRespelling(ai: IssueVerificationService, rs: seq<Request>) {
    rs == [] ||
    (!Respelled(ai, Execute(ai, rs[..|rs| - 1]), rs[|rs| - 1]) && NoRespelling(ai, rs[..|rs| - 1]))
  }

  ghost predicate NoSelfDuplicateThroughout(ai: IssueVerificationService, rs: seq<Request>) {
    NoSelfDuplicate(Execute(ai, rs)) && (rs == [] || NoSelfDuplicateThroughout(ai, rs[..|rs| - 1]))
  }

  /**
   An issue is never a duplicate of itself, throughout a run, if and only if no accepted request
   named the issue's own id in a different spelling: the check compares the two texts.
   */
  lemma {:induction false} NoSelfDuplicateExactly(ai: IssueVerificationService, rs: seq<Request>)
    ensures NoSelfDuplicateThroughout(ai, rs) <==> NoRespelling(ai, rs)
  {
    if rs != [] {
      var n := |rs| - 1;
      NoSelfDuplicateExactly(ai, rs[..n]);
      if NoSelfDuplicateThroughout(ai, rs[..n]) {
        SelfDuplicateStep(ai, Execute(ai, rs[..n]), rs[n]);
      }
    }
  }

  /** Asks for issue 0 to be marked a duplicate of issue 0, spelled differently. */
  function Respelling(agency: UserId): Request {
    ChangeStatus(IdText(0, 0), ChangeStatusDto(DUPLICATE, None, Some(IdText(0, 1))), agency, 0, NoFault)
  }

  /** A run in which an issue ends up a duplicate of itself. */
  lemma SelfDuplicateHappens(ai: IssueVerificationService, reporter: UserId, agency: UserId, report: Report)
    ensures var w := Execute(ai, [Create(0, reporter, report), Respelling(agency)]);
            0 in w.issues && w.issues[0].duplicateOf == Some(0)
  {
    var create := Create(0, reporter, report);
    ExecuteNext(ai, [], create);
    ExecuteNext(ai, [create], Respelling(agency));
    assert [] + [create] == [create] && [create] + [Respelling(agency)] == [create, Respelling(agency)];
  }
}
