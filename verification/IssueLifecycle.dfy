/** The lifecycle rules (who may move an issue where, and what that clears or pays) over the store of issues. */
module IssueLifecycle {
  import opened Contracts
  import opened Ledger
  import opened Store
  import opened CivicPoints
  import opened IssueVerification

  function AllowedTransitions(from: Status): seq<Status> {
    match from
    case OPEN => [CLAIMED, REJECTED, DUPLICATE]
    case CLAIMED => [IN_PROGRESS, RESOLVED, OPEN]
    case IN_PROGRESS => [RESOLVED, OPEN]
    case RESOLVED => [VERIFIED, IN_PROGRESS, AI_APPROVED]
    case AI_APPROVED => [VERIFIED, IN_PROGRESS]
    case VERIFIED => [IN_PROGRESS]
    case REJECTED => []
    case DUPLICATE => []
  }

  predicate CanMove(from: Status, to: Status) {
    to in AllowedTransitions(from)
  }

  const AGENCY_TARGETS: seq<Status> := [VERIFIED, IN_PROGRESS, OPEN, REJECTED, DUPLICATE]

  /**
   An issue id as written in a request. The database reads hexadecimal in either letter case,
   so one id has many spellings; spelling 0 is the one the database prints.
   */
  datatype IdText = IdText(id: IssueId, spelling: nat)

  datatype ChangeStatusDto = ChangeStatusDto(status: Status, reason: Option<string>, duplicateOf: Option<IdText>)

  /** Missing or empty. */
  predicate Absent(reason: Option<string>) {
    reason.None? || reason.value == ""
  }

  // ------------------------------------------------- what each request does

  /** Why a status change is refused, checked in this order; None when it goes ahead. */
  function StatusRefusal(w: World, target: IdText, dto: ChangeStatusDto, actor: UserId): (r: Option<Error>)
    ensures r.None? ==> target.id in w.issues && CanMove(w.issues[target.id].status, dto.status)
    ensures r.None? && dto.status.DUPLICATE? ==> dto.duplicateOf.Some? && dto.duplicateOf.value.id in w.issues
  {
    if target.id !in w.issues then Some(IssueNotFound)
    else
      var issue := w.issues[target.id];
      if dto.status !in AGENCY_TARGETS then Some(AgencyCannotSet(dto.status))
      else if !CanMove(issue.status, dto.status) then Some(IllegalMove(issue.status, dto.status))
      else if dto.status.VERIFIED? && issue.volunteer == Some(actor) then Some(OwnWork)
      else if (dto.status.IN_PROGRESS? || (dto.status.OPEN? && issue.volunteer.Some?)) && Absent(dto.reason)
      then Some(ReasonRequired)
      else if dto.status.REJECTED? && Absent(dto.reason) then Some(RejectReasonRequired)
      else if dto.status.DUPLICATE? then
        if dto.duplicateOf.None? then Some(DuplicateOfRequired)
        else if dto.duplicateOf.value == target then Some(SelfDuplicate)
        else if dto.duplicateOf.value.id !in w.issues then Some(IssueNotFound)
        else None
      else None
  }

  function ReturnedToOpen(issue: Issue): Issue {
    issue.(volunteer := None, claimedAt := None, resolvedAt := None, resolutionNote := None, status := OPEN)
  }

  /** The document an accepted status change saves. */
  function Decided(issue: Issue, dto: ChangeStatusDto, now: Time): Issue
    requires dto.status.DUPLICATE? ==> dto.duplicateOf.Some?
  {
    var moved := issue.(status := dto.status, statusReason := dto.reason);
    match dto.status
    case VERIFIED => moved.(verifiedAt := Some(now))
    case IN_PROGRESS => moved.(resolvedAt := None, resolutionNote := None, verifiedAt := None)
    case OPEN => ReturnedToOpen(moved)
    case DUPLICATE => moved.(duplicateOf := Some(dto.duplicateOf.value.id))
    case REJECTED => moved
    case CLAIMED => moved
    case RESOLVED => moved
    case AI_APPROVED => moved
  }

  /** Settling an issue's points pays or claws back its volunteer, if it has one. */
  function Settled(w: World, d: Direction, id: IssueId, volunteer: Option<UserId>, fault: Fault): World {
    match volunteer
    case None => w
    case Some(u) =>
      var s := SettleWith(w.rows, w.cache, d, u, id, fault);
      w.(rows := s.rows, cache := s.cache)
  }

  /** Which settlement an accepted move triggers. */
  function SettlementOf(from: Status, to: Status): Option<Direction> {
    if to.VERIFIED? then Some(Award)
    else if to.IN_PROGRESS? && from.VERIFIED? then Some(Reverse)
    else None
  }

  function ChangedStatus(w: World, target: IdText, dto: ChangeStatusDto, actor: UserId, now: Time, fault: Fault)
    : Result<World, Error>
  {
    match StatusRefusal(w, target, dto, actor)
    case Some(e) => Failure(e)
    case None =>
      var issue := w.issues[target.id];
      var saved := w.(issues := w.issues[target.id := Decided(issue, dto, now)]);
      match SettlementOf(issue.status, dto.status)
      case None => Success(saved)
      case Some(d) => Success(Settled(saved, d, target.id, issue.volunteer, fault))
  }

  function Claimed(w: World, id: IssueId, actor: UserId, now: Time): Result<World, Error> {
    if id !in w.issues then Failure(IssueNotFound)
    else
      var issue := w.issues[id];
      if issue.status.CLAIMED? && issue.volunteer.Some? then Failure(AlreadyClaimed)
      else if !CanMove(issue.status, CLAIMED) then Failure(IllegalMove(issue.status, CLAIMED))
      else if issue.reportedBy == actor then Failure(OwnReport)
      else
        var claimed := issue.(volunteer := Some(actor), claimedAt := Some(now), status := CLAIMED);
        Success(w.(issues := w.issues[id := claimed]))
  }

  function Released(w: World, id: IssueId, actor: UserId): Result<World, Error> {
    if id !in w.issues then Failure(IssueNotFound)
    else
      var issue := w.issues[id];
      if !CanMove(issue.status, OPEN) then Failure(IllegalMove(issue.status, OPEN))
      else if issue.volunteer != Some(actor) then Failure(NotHolder)
      else Success(w.(issues := w.issues[id := ReturnedToOpen(issue)]))
  }

  function Started(w: World, id: IssueId, actor: UserId): Result<World, Error> {
    if id !in w.issues then Failure(IssueNotFound)
    else
      var issue := w.issues[id];
      if !CanMove(issue.status, IN_PROGRESS) then Failure(IllegalMove(issue.status, IN_PROGRESS))
      else if issue.volunteer != Some(actor) then Failure(NotHolder)
      else Success(w.(issues := w.issues[id := issue.(status := IN_PROGRESS)]))
  }

  function Resolved(w: World, ai: IssueVerificationService, id: IssueId, actor: UserId, note: string,
                    outside: Outside, now: Time): Result<World, Error>
  {
    if id !in w.issues then Failure(IssueNotFound)
    else
      var issue := w.issues[id];
      if !CanMove(issue.status, RESOLVED) then Failure(IllegalMove(issue.status, RESOLVED))
      else if issue.volunteer != Some(actor) then Failure(NotHolder)
      else if CountProofBy(w.files, id, actor) == 0 then Failure(NoProof)
      else
        match ai.Assess(w.files, id, issue.volunteer, outside, now)
        case Failure(e) => Failure(e)
        case Success(assessed) =>
          var done := issue.(resolutionNote := Some(note), resolvedAt := Some(now), status := RESOLVED);
          var saved :=
            match assessed
            case None => done
            case Some(a) =>
              done.(assessment := Some(a), status := if a.outcome.APPROVED? then AI_APPROVED else RESOLVED);
          Success(w.(issues := w.issues[id := saved]))
  }

  function NewIssue(reporter: UserId, report: Report): Issue {
    Issue(reporter, report, OPEN, None, None, None, None, None, None, None, None)
  }

  /** `id` is the id the database generates for the new issue. */
  function Created(w: World, id: IssueId, reporter: UserId, report: Report): Result<World, Error> {
    if id in w.issues then Failure(IdTaken)
    else Success(w.(issues := w.issues[id := NewIssue(reporter, report)]))
  }

  /** A partial edit: absent fields keep their value. */
  datatype Changes = Changes(
    title: Option<string>,
    description: Option<string>,
    category: Option<string>,
    location: Option<string>)

  function Patched(report: Report, c: Changes): Report {
    Report(
      if c.title.Some? then c.title.value else report.title,
      if c.description.Some? then c.description.value else report.description,
      if c.category.Some? then c.category.value else report.category,
      if c.location.Some? then c.location.value else report.location)
  }

  function Edited(w: World, id: IssueId, actor: UserId, changes: Changes): Result<World, Error> {
    if id !in w.issues then Failure(IssueNotFound)
    else if w.issues[id].reportedBy != actor then Failure(NotReporter)
    else if !w.issues[id].status.OPEN? then Failure(NotOpen(w.issues[id].status))
    else Success(w.(issues := w.issues[id := w.issues[id].(report := Patched(w.issues[id].report, changes))]))
  }

  // ------------------------------------------------------------ the services

  /** The reply and the new state are those of `spec`; a refusal leaves the state as it was. */
  ghost predicate Answers(spec: Result<World, Error>, before: World, after: World, id: IssueId,
                          r: Result<Issue, Error>)
  {
    match spec
    case Failure(e) => after == before && r == Failure(e)
    case Success(w) => after == w && id in w.issues && r == Success(w.issues[id])
  }

  class IssuesService {
    const db: Database

    constructor (db: Database)
      ensures this.db == db
    {
      this.db := db;
    }

    method Create(id: IssueId, reporter: UserId, report: Report) returns (r: Result<Issue, Error>)
      modifies db
      ensures Answers(Created(old(db.View()), id, reporter, report), old(db.View()), db.View(), id, r)
    {
      if id in db.issues {
        return Failure(IdTaken);
      }
      var issue := NewIssue(reporter, report);
      db.issues := db.issues[id := issue];
      return Success(issue);
    }

    method FindOne(id: IssueId) returns (r: Result<Issue, Error>)
      ensures r == if id in db.issues then Success(db.issues[id]) else Failure(IssueNotFound)
    {
      if id !in db.issues {
        return Failure(IssueNotFound);
      }
      return Success(db.issues[id]);
    }

    method Save(id: IssueId, issue: Issue)
      modifies db
      ensures db.View() == old(db.View()).(issues := old(db.issues)[id := issue])
    {
      db.issues := db.issues[id := issue];
    }

    method UpdateOwn(id: IssueId, actor: UserId, changes: Changes) returns (r: Result<Issue, Error>)
      modifies db
      ensures Answers(Edited(old(db.View()), id, actor, changes), old(db.View()), db.View(), id, r)
    {
      var found := FindOne(id);
      if found.Failure? {
        return found;
      }
      var issue := found.value;
      if issue.reportedBy != actor {
        return Failure(NotReporter);
      }
      if issue.status != OPEN {
        return Failure(NotOpen(issue.status));
      }
      issue := issue.(report := Patched(issue.report, changes));
      Save(id, issue);
      return Success(issue);
    }
  }

  class IssueLifecycleService {
    const db: Database
    const issues: IssuesService
    const ai: IssueVerificationService
    const points: CivicPointsService

    constructor (db: Database, issues: IssuesService, ai: IssueVerificationService, points: CivicPointsService)
      requires issues.db == db && points.db == db
      ensures this.db == db && this.issues == issues && this.ai == ai && this.points == points && Wired()
    {
      this.db, this.issues, this.ai, this.points := db, issues, ai, points;
    }

    /** All services share one database. */
    ghost predicate Wired() {
      issues.db == db && points.db == db
    }

    method ChangeStatus(target: IdText, dto: ChangeStatusDto, actor: UserId, now: Time, fault: Fault)
      returns (r: Result<Issue, Error>)
      requires Wired()
      modifies db
      ensures Answers(ChangedStatus(old(db.View()), target, dto, actor, now, fault),
                      old(db.View()), db.View(), target.id, r)
    {
      var found := issues.FindOne(target.id);
      if found.Failure? {
        return found;
      }
      var issue := found.value;
      var wasVerified := issue.status == VERIFIED;
      if dto.status !in AGENCY_TARGETS {
        return Failure(AgencyCannotSet(dto.status));
      }
      if !CanMove(issue.status, dto.status) {
        return Failure(IllegalMove(issue.status, dto.status));
      }
      if dto.status == VERIFIED && issue.volunteer == Some(actor) {
        return Failure(OwnWork);
      }
      if dto.status == IN_PROGRESS || (dto.status == OPEN && issue.volunteer.Some?) {
        if Absent(dto.reason) {
          return Failure(ReasonRequired);
        }
      }
      if dto.status == REJECTED && Absent(dto.reason) {
        return Failure(RejectReasonRequired);
      }
      if dto.status == DUPLICATE {
        if dto.duplicateOf.None? {
          return Failure(DuplicateOfRequired);
        }
        if dto.duplicateOf.value == target {
          return Failure(SelfDuplicate);
        }
        var other := issues.FindOne(dto.duplicateOf.value.id);
        if other.Failure? {
          return other;
        }
        issue := issue.(duplicateOf := Some(dto.duplicateOf.value.id));
      }
      if dto.status == VERIFIED {
        issue := issue.(verifiedAt := Some(now));
      }
      if dto.status == IN_PROGRESS {
        issue := issue.(resolvedAt := None);
        issue := issue.(resolutionNote := None);
        issue := issue.(verifiedAt := None);
      }
      if dto.status == OPEN {
        issue := issue.(statusReason := dto.reason);
        issue := ReturnToOpen(target.id, issue);
        return Success(issue);
      }
      issue := issue.(status := dto.status);
      issue := issue.(statusReason := dto.reason);
      issues.Save(target.id, issue);
      // The reply is the same whether or not the settlement went through.
      if dto.status == VERIFIED {
        var _ := points.AwardForVerification(target.id, issue, fault);
      }
      if dto.status == IN_PROGRESS && wasVerified {
        var _ := points.ReverseForVerification(target.id, issue, fault);
      }
      return Success(issue);
    }

    /** Takes the issue away from its holder; what both a release and a forced release come to. */
    method ReturnToOpen(id: IssueId, issue: Issue) returns (saved: Issue)
      requires Wired()
      modifies db
      ensures saved == ReturnedToOpen(issue)
      ensures db.View() == old(db.View()).(issues := old(db.issues)[id := saved])
    {
      saved := issue.(volunteer := None);
      saved := saved.(claimedAt := None);
      saved := saved.(resolvedAt := None);
      saved := saved.(resolutionNote := None);
      saved := saved.(status := OPEN);
      issues.Save(id, saved);
    }

    method Resolve(id: IssueId, actor: UserId, note: string, outside: Outside, now: Time)
      returns (r: Result<Issue, Error>)
      requires Wired()
      modifies db
      ensures Answers(Resolved(old(db.View()), ai, id, actor, note, outside, now), old(db.View()), db.View(), id, r)
    {
      var found := issues.FindOne(id);
      if found.Failure? {
        return found;
      }
      var issue := found.value;
      if !CanMove(issue.status, RESOLVED) {
        return Failure(IllegalMove(issue.status, RESOLVED));
      }
      if issue.volunteer != Some(actor) {
        return Failure(NotHolder);
      }
      var proof := CountProofBy(db.files, id, actor);
      if proof == 0 {
        return Failure(NoProof);
      }
      issue := issue.(resolutionNote := Some(note));
      issue := issue.(resolvedAt := Some(now));
      issue := issue.(status := RESOLVED);
      var assessed := ai.Assess(db.files, id, issue.volunteer, outside, now);
      if assessed.Failure? {
        return Failure(assessed.error);
      }
      if assessed.value.Some? {
        issue := issue.(assessment := assessed.value);
        if assessed.value.value.outcome == APPROVED {
          issue := issue.(status := AI_APPROVED);
        }
      }
      issues.Save(id, issue);
      return Success(issue);
    }

    method Claim(id: IssueId, actor: UserId, now: Time) returns (r: Result<Issue, Error>)
      requires Wired()
      modifies db
      ensures Answers(Claimed(old(db.View()), id, actor, now), old(db.View()), db.View(), id, r)
    {
      var found := issues.FindOne(id);
      if found.Failure? {
        return found;
      }
      var issue := found.value;
      if issue.status == CLAIMED && issue.volunteer.Some? {
        return Failure(AlreadyClaimed);
      }
      if !CanMove(issue.status, CLAIMED) {
        return Failure(IllegalMove(issue.status, CLAIMED));
      }
      if issue.reportedBy == actor {
        return Failure(OwnReport);
      }
      issue := issue.(volunteer := Some(actor));
      issue := issue.(claimedAt := Some(now));
      issue := issue.(status := CLAIMED);
      issues.Save(id, issue);
      return Success(issue);
    }

    method Release(id: IssueId, actor: UserId) returns (r: Result<Issue, Error>)
      requires Wired()
      modifies db
      ensures Answers(Released(old(db.View()), id, actor), old(db.View()), db.View(), id, r)
    {
      var found := issues.FindOne(id);
      if found.Failure? {
        return found;
      }
      var issue := found.value;
      if !CanMove(issue.status, OPEN) {
        return Failure(IllegalMove(issue.status, OPEN));
      }
      if issue.volunteer != Some(actor) {
        return Failure(NotHolder);
      }
      issue := ReturnToOpen(id, issue);
      return Success(issue);
    }

    method Start(id: IssueId, actor: UserId) returns (r: Result<Issue, Error>)
      requires Wired()
      modifies db
      ensures Answers(Started(old(db.View()), id, actor), old(db.View()), db.View(), id, r)
    {
      var found := issues.FindOne(id);
      if found.Failure? {
        return found;
      }
      var issue := found.value;
      if !CanMove(issue.status, IN_PROGRESS) {
        return Failure(IllegalMove(issue.status, IN_PROGRESS));
      }
      if issue.volunteer != Some(actor) {
        return Failure(NotHolder);
      }
      issue := issue.(status := IN_PROGRESS);
      issues.Save(id, issue);
      return Success(issue);
    }
  }
}
