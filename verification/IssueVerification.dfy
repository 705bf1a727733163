/** The assessment of a volunteer's evidence: the one place APPROVED can come from. */
module IssueVerification {
  import opened Contracts
  import opened Store
  import opened IssueMedia

  /** What the model call yields: an error, no parseable judgement, or a verdict. */
  datatype ModelReply =
    | CallFailed(message: string)
    | Unparseable
    | Verdict(fixed: bool, confidence: real, reasoning: string)

  /** Everything outside the system that an assessment depends on. */
  datatype Outside = Outside(readFails: bool, decoder: Decoder, reply: ModelReply)

  const NO_BEFORE: string := "The report carries no photograph to compare against, so the work was not assessed."
  const NO_AFTER: string := "The proof could not be read as an image, so the work was not assessed."
  const NO_VERDICT: string := "The model returned no parseable judgement."

  function Failed(reasoning: string, now: Time): Assessment {
    Assessment(FAILED, None, reasoning, now)
  }

  datatype IssueVerificationService = IssueVerificationService(enabled: bool, threshold: real) {

    /** Nothing to record when disabled; the only error is that the files cannot be read. */
    function Assess(files: seq<MediaFile>, id: IssueId, volunteer: Option<UserId>, outside: Outside, now: Time)
      : Result<Option<Assessment>, Error>
    {
      if !enabled then Success(None)
      else if outside.readFails then Failure(StorageFailure)
      else
        var shown := ReadForAssessment(files, id, volunteer, AI_MAX_IMAGES_PER_SIDE, outside.decoder);
        Success(Some(Judge(|shown.before|, |shown.after|, outside.reply, now)))
    }

    /** The assessment, given how many images each side shows. */
    function Judge(before: nat, after: nat, reply: ModelReply, now: Time): Assessment {
      if before == 0 then Assessment(SKIPPED_NO_BEFORE, None, NO_BEFORE, now)
      else if after == 0 then Failed(NO_AFTER, now)
      else
        match reply
        case CallFailed(message) => Failed(message, now)
        case Unparseable => Failed(NO_VERDICT, now)
        case Verdict(fixed, confidence, reasoning) =>
          Assessment(if fixed && confidence >= threshold then APPROVED else BELOW_THRESHOLD,
                     Some(confidence), reasoning, now)
    }

    /** APPROVED comes out exactly when the feature is on, both sides show something, and the model is sure enough. */
    lemma ApprovedExactlyWhen(files: seq<MediaFile>, id: IssueId, volunteer: Option<UserId>,
                              outside: Outside, now: Time)
      ensures var r := Assess(files, id, volunteer, outside, now);
              var shown := ReadForAssessment(files, id, volunteer, AI_MAX_IMAGES_PER_SIDE, outside.decoder);
              (r.Success? && r.value.Some? && r.value.value.outcome.APPROVED?) <==>
                && enabled && !outside.readFails && shown.before != [] && shown.after != []
                && outside.reply.Verdict? && outside.reply.fixed && outside.reply.confidence >= threshold
    {
    }

    /** An approval records the model's own confidence, and real files back both sides it compared. */
    lemma ApprovalIsBacked(files: seq<MediaFile>, id: IssueId, volunteer: Option<UserId>,
                           outside: Outside, now: Time)
      requires var r := Assess(files, id, volunteer, outside, now);
               r.Success? && r.value.Some? && r.value.value.outcome.APPROVED?
      ensures var a := Assess(files, id, volunteer, outside, now).value.value;
              a.confidence.Some? && a.confidence.value >= threshold
      ensures exists f :: f in files && ReportOf(id)(f)
      ensures volunteer.Some? && exists f :: f in files && ProofBy(id, volunteer.value)(f)
    {
      ApprovedExactlyWhen(files, id, volunteer, outside, now);
      EvidenceIsBacked(files, id, volunteer, AI_MAX_IMAGES_PER_SIDE, outside.decoder);
    }

    /**
     The whole assessment. Nothing when the feature is off. Without anything to show of the report
     it is skipped; without anything to show of the holder's proof, without a parseable judgement or
     after a failed call it is a failure and says why; otherwise it records the verdict, approved if
     and only if that is "fixed" with a confidence at or above the threshold.
     */
    lemma AssessExactly(files: seq<MediaFile>, id: IssueId, u: UserId, outside: Outside, now: Time)
      ensures var r := Assess(files, id, Some(u), outside, now);
              if !enabled then r == Success(None)
              else if outside.readFails then r == Failure(StorageFailure)
              else if !Visible(Reports(files, id), outside.decoder) then
                r == Success(Some(Assessment(SKIPPED_NO_BEFORE, None, NO_BEFORE, now)))
              else if !Visible(Proofs(files, id, u), outside.decoder) then
                r == Success(Some(Assessment(FAILED, None, NO_AFTER, now)))
              else
                match outside.reply
                case CallFailed(message) => r == Success(Some(Assessment(FAILED, None, message, now)))
                case Unparseable => r == Success(Some(Assessment(FAILED, None, NO_VERDICT, now)))
                case Verdict(fixed, confidence, reasoning) =>
                  && (fixed && confidence >= threshold ==>
                        r == Success(Some(Assessment(APPROVED, Some(confidence), reasoning, now))))
                  && (!fixed || confidence < threshold ==>
                        r == Success(Some(Assessment(BELOW_THRESHOLD, Some(confidence), reasoning, now))))
    {
      AssessmentReads(files, id, Some(u), AI_MAX_IMAGES_PER_SIDE, outside.decoder);
      SideVisible(Reports(files, id), AI_MAX_IMAGES_PER_SIDE, outside.decoder);
      SideVisible(Proofs(files, id, u), AI_MAX_IMAGES_PER_SIDE, outside.decoder);
    }

    /** Without a report file there is nothing to compare with: no reply of the model is taken into account. */
    lemma NoReportNoVerdict(files: seq<MediaFile>, id: IssueId, volunteer: Option<UserId>, outside: Outside, now: Time)
      requires enabled && !outside.readFails
      requires forall f :: f in files ==> !ReportOf(id)(f)
      ensures Assess(files, id, volunteer, outside, now)
           == Success(Some(Assessment(SKIPPED_NO_BEFORE, None, NO_BEFORE, now)))
    {
      EvidenceIsBacked(files, id, volunteer, AI_MAX_IMAGES_PER_SIDE, outside.decoder);
    }
  }
}
