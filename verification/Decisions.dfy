/**
 What each request on an issue is answered with and what it saves, said of the statuses, the actors
 and the texts themselves.
 */
module Decisions {
  import opened Contracts
  import opened Sequences
  import opened Store
  import opened CivicPoints
  import opened IssueMedia
  import opened IssueVerification
  import opened IssueLifecycle
  import opened Runs

  predicate Given(reason: Option<string>) {
    reason.Some? && |reason.value| > 0
  }

  // ------------------------------------------------- an agency's decisions

  /**
   When an agency's decision goes through: it may verify waiting work that is not its own, send work
   back or force a release with a reason, reject an OPEN report with a reason, and mark an OPEN
   report a duplicate of an existing one written differently. It can set nothing else.
   */
  lemma StatusChangeAcceptedExactly(w: World, target: IdText, dto: ChangeStatusDto, actor: UserId, now: Time,
                                    fault: Fault)
    ensures ChangedStatus(w, target, dto, actor, now, fault).Success? <==>
              && target.id in w.issues
              && var x := w.issues[target.id];
                 match dto.status
                 case VERIFIED => x.status in {RESOLVED, AI_APPROVED} && x.volunteer != Some(actor)
                 case IN_PROGRESS => x.status in {CLAIMED, RESOLVED, AI_APPROVED, VERIFIED} && Given(dto.reason)
                 case OPEN => x.status in {CLAIMED, IN_PROGRESS} && (x.volunteer.Some? ==> Given(dto.reason))
                 case REJECTED => x.status == OPEN && Given(dto.reason)
                 case DUPLICATE =>
                   && x.status == OPEN && dto.duplicateOf.Some?
                   && dto.duplicateOf.value != target && dto.duplicateOf.value.id in w.issues
                 case CLAIMED => false
                 case RESOLVED => false
                 case AI_APPROVED => false
  {
  }

  /** The moves an agency may ask for at all, whoever asks and with whatever reason. */
  predicate AgencyMove(from: Status, to: Status) {
    match to
    case VERIFIED => from in {RESOLVED, AI_APPROVED}
    case IN_PROGRESS => from in {CLAIMED, RESOLVED, AI_APPROVED, VERIFIED}
    case OPEN => from in {CLAIMED, IN_PROGRESS}
    case REJECTED => from == OPEN
    case DUPLICATE => from == OPEN
    case CLAIMED => false
    case RESOLVED => false
    case AI_APPROVED => false
  }

  lemma AgencyTargets(status: Status)
    ensures status in AGENCY_TARGETS <==> status !in {CLAIMED, RESOLVED, AI_APPROVED}
  {
    assert AGENCY_TARGETS[0] == VERIFIED && AGENCY_TARGETS[1] == IN_PROGRESS && AGENCY_TARGETS[2] == OPEN;
    assert AGENCY_TARGETS[3] == REJECTED && AGENCY_TARGETS[4] == DUPLICATE;
  }

  lemma AgencyMoves(from: Status, to: Status)
    requires to in AGENCY_TARGETS
    ensures CanMove(from, to) <==> AgencyMove(from, to)
  {
  }

  /**
   Which refusal an agency gets: a status it cannot set is forbidden whatever the issue's own, a move
   the lifecycle does not have is a conflict, and only then do actor, reason and reference matter.
   */
  lemma StatusChangeRefusals(w: World, target: IdText, dto: ChangeStatusDto, actor: UserId, now: Time, fault: Fault)
    ensures var r := ChangedStatus(w, target, dto, actor, now, fault);
            if target.id !in w.issues then r == Failure(IssueNotFound)
            else
              var x := w.issues[target.id];
              && (r == Failure(AgencyCannotSet(dto.status)) <==> dto.status in {CLAIMED, RESOLVED, AI_APPROVED})
              && (r == Failure(IllegalMove(x.status, dto.status)) <==>
                    dto.status !in {CLAIMED, RESOLVED, AI_APPROVED} && !AgencyMove(x.status, dto.status))
              && (AgencyMove(x.status, dto.status) ==>
                    && (r == Failure(OwnWork) <==> dto.status == VERIFIED && x.volunteer == Some(actor))
                    && (r == Failure(ReasonRequired) <==>
                          && !Given(dto.reason)
                          && (dto.status == IN_PROGRESS || (dto.status == OPEN && x.volunteer.Some?)))
                    && (r == Failure(RejectReasonRequired) <==> dto.status == REJECTED && !Given(dto.reason))
                    && (r == Failure(DuplicateOfRequired) <==> dto.status == DUPLICATE && dto.duplicateOf.None?)
                    && (r == Failure(SelfDuplicate) <==> dto.status == DUPLICATE && dto.duplicateOf == Some(target)))
  {
    AgencyTargets(dto.status);
    if target.id in w.issues && dto.status in AGENCY_TARGETS {
      AgencyMoves(w.issues[target.id].status, dto.status);
    }
  }

  /** Field by field, what an accepted decision saves; every other issue and all files stay as they are. */
  lemma StatusChangeSaves(w: World, target: IdText, dto: ChangeStatusDto, actor: UserId, now: Time, fault: Fault)
    requires ChangedStatus(w, target, dto, actor, now, fault).Success?
    ensures var t := ChangedStatus(w, target, dto, actor, now, fault).value;
            && t.files == w.files && t.issues.Keys == w.issues.Keys
            && (forall id :: id in w.issues && id != target.id ==> t.issues[id] == w.issues[id])
            && var x, y := w.issues[target.id], t.issues[target.id];
               && y.status == dto.status && y.statusReason == dto.reason
               && y.reportedBy == x.reportedBy && y.report == x.report && y.assessment == x.assessment
               && y.volunteer == (if dto.status == OPEN then None else x.volunteer)
               && y.claimedAt == (if dto.status == OPEN then None else x.claimedAt)
               && y.resolvedAt == (if dto.status in {OPEN, IN_PROGRESS} then None else x.resolvedAt)
               && y.resolutionNote == (if dto.status in {OPEN, IN_PROGRESS} then None else x.resolutionNote)
               && y.verifiedAt == (if dto.status == VERIFIED then Some(now)
                                   else if dto.status == IN_PROGRESS then None
                                   else x.verifiedAt)
               && y.duplicateOf == (if dto.status == DUPLICATE then Some(dto.duplicateOf.value.id) else x.duplicateOf)
  {
    assert StatusRefusal(w, target, dto, actor).None?;
    assert w.issues[target.id := Decided(w.issues[target.id], dto, now)].Keys == w.issues.Keys + {target.id};
  }

  // ------------------------------------------------- a volunteer's requests

  /** Claiming takes an OPEN issue someone else reported, and is refused for the first of these reasons. */
  lemma ClaimAnswers(w: World, id: IssueId, actor: UserId, now: Time)
    ensures var r := Claimed(w, id, actor, now);
            if id !in w.issues then r == Failure(IssueNotFound)
            else
              var x := w.issues[id];
              && (r.Success? <==> x.status == OPEN && x.reportedBy != actor)
              && (r == Failure(AlreadyClaimed) <==> x.status == CLAIMED && x.volunteer.Some?)
              && (r == Failure(OwnReport) <==> x.status == OPEN && x.reportedBy == actor)
              && (r.Success? ==>
                    r.value == w.(issues := w.issues[id := x.(volunteer := Some(actor), claimedAt := Some(now),
                                                              status := CLAIMED)]))
  {
  }

  /** Releasing needs the holder of CLAIMED or IN_PROGRESS work; it gives up the claim and whatever was resolved. */
  lemma ReleaseAnswers(w: World, id: IssueId, actor: UserId)
    ensures var r := Released(w, id, actor);
            if id !in w.issues then r == Failure(IssueNotFound)
            else
              var x := w.issues[id];
              && (r == Failure(IllegalMove(x.status, OPEN)) <==> x.status !in {CLAIMED, IN_PROGRESS})
              && (r == Failure(NotHolder) <==> x.status in {CLAIMED, IN_PROGRESS} && x.volunteer != Some(actor))
              && (r.Success? <==> x.status in {CLAIMED, IN_PROGRESS} && x.volunteer == Some(actor))
              && (r.Success? ==>
                    r.value == w.(issues := w.issues[id := x.(volunteer := None, claimedAt := None, resolvedAt := None,
                                                              resolutionNote := None, status := OPEN)]))
  {
  }

  /** Starting needs the holder, and goes through from submitted work as well as from a claim. */
  lemma StartAnswers(w: World, id: IssueId, actor: UserId)
    ensures var r := Started(w, id, actor);
            if id !in w.issues then r == Failure(IssueNotFound)
            else
              var x := w.issues[id];
              var startable := x.status in {CLAIMED, RESOLVED, AI_APPROVED, VERIFIED};
              && (r == Failure(IllegalMove(x.status, IN_PROGRESS)) <==> !startable)
              && (r == Failure(NotHolder) <==> startable && x.volunteer != Some(actor))
              && (r.Success? <==> startable && x.volunteer == Some(actor))
              && (r.Success? ==> r.value == w.(issues := w.issues[id := x.(status := IN_PROGRESS)]))
  {
  }

  /** Resolving needs the holder of CLAIMED or IN_PROGRESS work, with proof of their own, and readable files. */
  lemma ResolveAnswers(w: World, ai: IssueVerificationService, id: IssueId, actor: UserId, note: string,
                       outside: Outside, now: Time)
    ensures var r := Resolved(w, ai, id, actor, note, outside, now);
            if id !in w.issues then r == Failure(IssueNotFound)
            else
              var x := w.issues[id];
              var legal := x.status in {CLAIMED, IN_PROGRESS};
              && (r == Failure(IllegalMove(x.status, RESOLVED)) <==> !legal)
              && (r == Failure(NotHolder) <==> legal && x.volunteer != Some(actor))
              && (r == Failure(NoProof) <==>
                    legal && x.volunteer == Some(actor) && Proofs(w.files, id, actor) == [])
              && (r.Success? <==>
                    legal && x.volunteer == Some(actor) && Proofs(w.files, id, actor) != []
                    && !(ai.enabled && outside.readFails))
  {
    FilterSame(ProofBy(id, actor),
               (f: MediaFile) => f.issueId == Some(id) && f.purpose == Some(PROOF) && f.uploadedBy == Some(actor),
               w.files);
    if id in w.issues && w.issues[id].volunteer == Some(actor) {
      ai.AssessExactly(w.files, id, actor, outside, now);
    }
  }

  /** The model approves: both sides show something and the verdict is "fixed", surely enough. */
  ghost predicate Approves(w: World, ai: IssueVerificationService, id: IssueId, u: UserId, outside: Outside) {
    && ai.enabled
    && Visible(Reports(w.files, id), outside.decoder) && Visible(Proofs(w.files, id, u), outside.decoder)
    && outside.reply.Verdict? && outside.reply.fixed && outside.reply.confidence >= ai.threshold
  }

  /**
   An accepted resolve records the note, the date and the assessment if there is one, and ends
   AI_APPROVED if and only if the model approves, otherwise RESOLVED. Nothing else changes.
   */
  lemma ResolveSaves(w: World, ai: IssueVerificationService, id: IssueId, actor: UserId, note: string,
                     outside: Outside, now: Time)
    requires Resolved(w, ai, id, actor, note, outside, now).Success?
    ensures var t := Resolved(w, ai, id, actor, note, outside, now).value;
            && id in t.issues && t == w.(issues := w.issues[id := t.issues[id]])
            && var x, y := w.issues[id], t.issues[id];
               && y == x.(status := y.status, resolutionNote := Some(note), resolvedAt := Some(now),
                          assessment := y.assessment)
               && y.status == (if Approves(w, ai, id, actor, outside) then AI_APPROVED else RESOLVED)
               && (!ai.enabled ==> y.assessment == x.assessment)
               && (ai.enabled ==> Success(y.assessment) == ai.Assess(w.files, id, Some(actor), outside, now))
  {
    ResolveAnswers(w, ai, id, actor, note, outside, now);
    ai.AssessExactly(w.files, id, actor, outside, now);
  }

  /** Video alone is proof enough: decodable video, a report photograph and a sure verdict end AI_APPROVED. */
  lemma VideoProofIsEnough(w: World, ai: IssueVerificationService, id: IssueId, actor: UserId, note: string,
                           outside: Outside, now: Time, before: MediaFile)
    requires Resolved(w, ai, id, actor, note, outside, now).Success? && ai.enabled
    requires before in w.files && before.issueId == Some(id) && before.purpose == Some(REPORT) && IsPhoto()(before)
    requires forall f :: f in Proofs(w.files, id, actor) ==> IsClip()(f) && Frames(outside.decoder, f) != []
    requires outside.reply.Verdict? && outside.reply.fixed && outside.reply.confidence >= ai.threshold
    ensures Resolved(w, ai, id, actor, note, outside, now).value.issues[id].status == AI_APPROVED
  {
    ResolveAnswers(w, ai, id, actor, note, outside, now);
    FilterMember((f: MediaFile) => f.issueId == Some(id) && f.purpose == Some(REPORT), w.files, before);
    assert Proofs(w.files, id, actor)[0] in Proofs(w.files, id, actor);
    ResolveSaves(w, ai, id, actor, note, outside, now);
  }

  // ------------------------------------------------- a reporter's requests

  /** A new report is stored as given, OPEN and with nothing else on it, beside all the others. */
  lemma CreateSaves(w: World, id: IssueId, reporter: UserId, report: Report)
    ensures Created(w, id, reporter, report).Success? <==> id !in w.issues
    ensures id !in w.issues ==>
              var t := Created(w, id, reporter, report).value;
              && t == w.(issues := t.issues) && t.issues.Keys == w.issues.Keys + {id}
              && (forall j :: j in w.issues ==> t.issues[j] == w.issues[j])
              && t.issues[id].report == report && t.issues[id].reportedBy == reporter && t.issues[id].status == OPEN
              && t.issues[id].statusReason == None && t.issues[id].duplicateOf == None
              && t.issues[id].volunteer == None && t.issues[id].claimedAt == None
              && t.issues[id].resolutionNote == None && t.issues[id].resolvedAt == None
              && t.issues[id].verifiedAt == None && t.issues[id].assessment == None
  {
  }

  /** An edited field holds what was sent for it, or what it held if nothing was sent. */
  predicate Edit(before: string, sent: Option<string>, after: string) {
    (sent.None? ==> after == before) && (sent.Some? ==> after == sent.value)
  }

  /** Editing needs the reporter and an OPEN issue, and changes each field of the report that was sent. */
  lemma EditAnswers(w: World, id: IssueId, actor: UserId, changes: Changes)
    ensures var r := Edited(w, id, actor, changes);
            if id !in w.issues then r == Failure(IssueNotFound)
            else
              var x := w.issues[id];
              && (r == Failure(NotReporter) <==> x.reportedBy != actor)
              && (r == Failure(NotOpen(x.status)) <==> x.reportedBy == actor && x.status != OPEN)
              && (r.Success? <==> x.reportedBy == actor && x.status == OPEN)
              && (r.Success? ==>
                    && id in r.value.issues
                    && r.value == w.(issues := w.issues[id := x.(report := r.value.issues[id].report)])
                    && var a, b := x.report, r.value.issues[id].report;
                       && Edit(a.title, changes.title, b.title)
                       && Edit(a.description, changes.description, b.description)
                       && Edit(a.category, changes.category, b.category)
                       && Edit(a.location, changes.location, b.location))
  {
  }
}
