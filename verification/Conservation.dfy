/** Points against statuses: what the ledger holds for each issue over whole runs. */
module Conservation {
  import opened Contracts
  import opened Sequences
  import opened Ledger
  import opened Store
  import opened CivicPoints
  import opened IssueVerification
  import opened IssueLifecycle
  import opened Runs

  /** Volunteer u is owed points for issue i: it is verified and u holds it. */
  predicate Owed(w: World, u: UserId, i: IssueId) {
    i in w.issues && w.issues[i].status.VERIFIED? && w.issues[i].volunteer == Some(u)
  }

  /** The ledger nets ten points for exactly the pairs owed, and nothing for any other. */
  ghost predicate Conserved(w: World) {
    forall u, i :: NetFor(w.rows, u, i).total == if Owed(w, u, i) then 10 else 0
  }

  /** The request is accepted and settles the points of u for issue i in direction d. */
  predicate Settles(ai: IssueVerificationService, w: World, r: Request, d: Direction, u: UserId, i: IssueId) {
    && r.ChangeStatus? && Handle(ai, w, r).Success? && r.target.id == i
    && i in w.issues && w.issues[i].volunteer == Some(u)
    && SettlementOf(w.issues[i].status, r.dto.status) == Some(d)
  }

  /** A settlement that is lost: it was due, failed, and the failure was swallowed. */
  predicate LostSettlement(ai: IssueVerificationService, w: World, r: Request) {
    && r.ChangeStatus? && Handle(ai, w, r).Success? && r.target.id in w.issues
    && var x := w.issues[r.target.id];
       x.volunteer.Some? && SettlementOf(x.status, r.dto.status).Some?
       && !TakesEffect(w.rows, SettlementOf(x.status, r.dto.status).value, x.volunteer.value, r.target.id, r.fault)
  }

  /** The holder takes VERIFIED work back up through the start route, which settles nothing. */
  predicate StartsVerified(ai: IssueVerificationService, w: World, r: Request) {
    r.Start? && Handle(ai, w, r).Success? && w.issues[r.id].status.VERIFIED?
  }

  /** Only an effective settlement moves a pair's net, and it moves it to what its direction says. */
  lemma NetAfter(ai: IssueVerificationService, w: World, r: Request, u: UserId, i: IssueId)
    requires WellFormed(w.rows)
    ensures NetFor(Next(ai, w, r).rows, u, i).total ==
            if Settles(ai, w, r, Award, u, i) && TakesEffect(w.rows, Award, u, i, r.fault) then 10
            else if Settles(ai, w, r, Reverse, u, i) && TakesEffect(w.rows, Reverse, u, i, r.fault) then 0
            else NetFor(w.rows, u, i).total
  {
    if r.ChangeStatus? && Handle(ai, w, r).Success? {
      var x := w.issues[r.target.id];
      var d := SettlementOf(x.status, r.dto.status);
      if d.Some? && x.volunteer.Some? {
        SettlementIsAtomic(w.rows, w.cache, d.value, x.volunteer.value, r.target.id, r.fault);
        SettleNets(w.rows, d.value, x.volunteer.value, r.target.id, u, i);
      }
    }
  }

  lemma OwedAfterStatusChange(ai: IssueVerificationService, w: World, r: Request, u: UserId)
    requires r.ChangeStatus? && Handle(ai, w, r).Success? && RecordOk(w, r.target.id)
    ensures var i := r.target.id;
            Owed(Next(ai, w, r), u, i) <==>
              Settles(ai, w, r, Award, u, i) || (Owed(w, u, i) && !Settles(ai, w, r, Reverse, u, i))
  {
    var x := w.issues[r.target.id];
    assert Next(ai, w, r).issues[r.target.id] == Decided(x, r.dto, r.now);
  }

  lemma OwedAfterOther(ai: IssueVerificationService, w: World, r: Request, u: UserId, i: IssueId)
    requires !r.ChangeStatus? && (i in w.issues ==> RecordOk(w, i))
    ensures Owed(Next(ai, w, r), u, i) <==> Owed(w, u, i) && !(StartsVerified(ai, w, r) && r.id == i)
  {
    OthersUntouched(ai, w, r, i);
    if i in w.issues {
      MovesFollowTable(ai, w, r, i);
    }
  }

  /** Who is owed after a request: a verification adds the holder, leaving VERIFIED removes it. */
  lemma OwedAfter(ai: IssueVerificationService, w: World, r: Request, u: UserId, i: IssueId)
    requires Inv(ai, w)
    ensures Owed(Next(ai, w, r), u, i) <==>
            || Settles(ai, w, r, Award, u, i)
            || (Owed(w, u, i) && !Settles(ai, w, r, Reverse, u, i) && !(StartsVerified(ai, w, r) && r.id == i))
  {
    if !r.ChangeStatus? {
      OwedAfterOther(ai, w, r, u, i);
    } else if Handle(ai, w, r).Success? && r.target.id == i {
      OwedAfterStatusChange(ai, w, r, u);
    } else {
      OthersUntouched(ai, w, r, i);
    }
  }

  lemma SettlesUnowed(ai: IssueVerificationService, w: World, r: Request, u: UserId, i: IssueId)
    ensures Settles(ai, w, r, Award, u, i) ==> !Owed(w, u, i)
    ensures Settles(ai, w, r, Reverse, u, i) ==> Owed(w, u, i)
  {
  }

  lemma PairConserved(ai: IssueVerificationService, w: World, r: Request, u: UserId, i: IssueId)
    requires Inv(ai, w) && Conserved(w) && !LostSettlement(ai, w, r) && !StartsVerified(ai, w, r)
    ensures NetFor(Next(ai, w, r).rows, u, i).total == if Owed(Next(ai, w, r), u, i) then 10 else 0
  {
    NetAfter(ai, w, r, u, i);
    OwedAfter(ai, w, r, u, i);
    assert NetFor(w.rows, u, i).total == if Owed(w, u, i) then 10 else 0;
  }

  lemma LossBreaks(ai: IssueVerificationService, w: World, r: Request)
    requires Inv(ai, w) && Conserved(w) && (LostSettlement(ai, w, r) || StartsVerified(ai, w, r))
    ensures !Conserved(Next(ai, w, r))
  {
    var i := if r.Start? then r.id else r.target.id;
    assert RecordOk(w, i);
    var u := w.issues[i].volunteer.value;
    NetAfter(ai, w, r, u, i);
    OwedAfter(ai, w, r, u, i);
    SettlesUnowed(ai, w, r, u, i);
    assert NetFor(w.rows, u, i).total == if Owed(w, u, i) then 10 else 0;
  }

  lemma ConservedStep(ai: IssueVerificationService, w: World, r: Request)
    requires Inv(ai, w) && Conserved(w)
    ensures Conserved(Next(ai, w, r)) <==> !LostSettlement(ai, w, r) && !StartsVerified(ai, w, r)
  {
    if LostSettlement(ai, w, r) || StartsVerified(ai, w, r) {
      LossBreaks(ai, w, r);
    } else {
      forall u, i
        ensures NetFor(Next(ai, w, r).rows, u, i).total == if Owed(Next(ai, w, r), u, i) then 10 else 0
      {
        PairConserved(ai, w, r, u, i);
      }
    }
  }

  /** Conserved at the end of the run and at every earlier point of it. */
  ghost predicate ConservedThroughout(ai: IssueVerificationService, rs: seq<Request>) {
    Conserved(Execute(ai, rs)) && (rs == [] || ConservedThroughout(ai, rs[..|rs| - 1]))
  }

  ghost predicate NothingLost(ai: IssueVerificationService, rs: seq<Request>) {
    rs == [] ||
    (&& !LostSettlement(ai, Execute(ai, rs[..|rs| - 1]), rs[|rs| - 1])
     && !StartsVerified(ai, Execute(ai, rs[..|rs| - 1]), rs[|rs| - 1])
     && NothingLost(ai, rs[..|rs| - 1]))
  }

  /**
   Conservation. At every point of a run each pair nets 10 exactly when its issue is VERIFIED and
   held by that volunteer, and 0 otherwise, if and only if in that run no settlement was lost and
   no holder took VERIFIED work back up with the start route.
   */
  lemma {:induction false} ConservedExactlyWhenNothingLost(ai: IssueVerificationService, rs: seq<Request>)
    ensures ConservedThroughout(ai, rs) <==> NothingLost(ai, rs)
  {
    if rs == [] {
      assert forall u, i :: PairRows([], u, i) == [];
    } else {
      var n := |rs| - 1;
      ConservedExactlyWhenNothingLost(ai, rs[..n]);
      if ConservedThroughout(ai, rs[..n]) {
        Runs.Reachable(ai, rs[..n]);
        ConservedStep(ai, Execute(ai, rs[..n]), rs[n]);
      }
    }
  }

  /** A settlement none of whose operations fails is never lost. */
  lemma NoFaultNoLoss(ai: IssueVerificationService, w: World, r: Request)
    requires r.ChangeStatus? ==> r.fault.NoFault?
    ensures !LostSettlement(ai, w, r)
  {
  }

  /** No database operation of any settlement in the run fails. */
  predicate FaultFree(rs: seq<Request>) {
    forall k :: 0 <= k < |rs| && rs[k].ChangeStatus? ==> rs[k].fault.NoFault?
  }

  ghost predicate NoVerifiedStart(ai: IssueVerificationService, rs: seq<Request>) {
    rs == [] ||
    (!StartsVerified(ai, Execute(ai, rs[..|rs| - 1]), rs[|rs| - 1]) && NoVerifiedStart(ai, rs[..|rs| - 1]))
  }

  lemma {:induction false} FaultFreeLosesOnlyByStarts(ai: IssueVerificationService, rs: seq<Request>)
    requires FaultFree(rs)
    ensures NothingLost(ai, rs) <==> NoVerifiedStart(ai, rs)
  {
    if rs != [] {
      var n := |rs| - 1;
      FaultFreeLosesOnlyByStarts(ai, rs[..n]);
      NoFaultNoLoss(ai, Execute(ai, rs[..n]), rs[n]);
    }
  }

  /**
   Conservation without failures. When no settlement's operations fail, points follow statuses at
   every point of a run if and only if no accepted start found its issue VERIFIED.
   */
  lemma FaultFreeConservedExactly(ai: IssueVerificationService, rs: seq<Request>)
    requires FaultFree(rs)
    ensures ConservedThroughout(ai, rs) <==> NoVerifiedStart(ai, rs)
  {
    ConservedExactlyWhenNothingLost(ai, rs);
    FaultFreeLosesOnlyByStarts(ai, rs);
  }

  // ------------------------------------------------------------ consequences

  ghost function OwedIssues(w: World, u: UserId): set<IssueId> {
    set i | i in w.issues && Owed(w, u, i)
  }

  /** A conserved ledger gives each user ten points for each verified issue they hold. */
  lemma BalanceCountsVerified(ai: IssueVerificationService, w: World, u: UserId)
    requires Inv(ai, w) && Conserved(w)
    ensures BalanceFor(w.rows, u) == 10 * |OwedIssues(w, u)|
  {
    BalanceCountsPaidIssues(w.rows, u);
    assert PaidIssues(w.rows, u) == OwedIssues(w, u) by {
      forall i | i in OwedIssues(w, u)
        ensures i in PaidIssues(w.rows, u)
      {
        assert NetFor(w.rows, u, i).total == 10;
        var pair := PairRows(w.rows, u, i);
        assert pair != [];
        FilterMember(OfPair(u, i), w.rows, pair[0]);
        var k :| 0 <= k < |w.rows| && w.rows[k] == pair[0];
        assert w.rows[k].issue == i;
      }
      forall i | i in PaidIssues(w.rows, u)
        ensures i in OwedIssues(w, u)
      {
        assert NetFor(w.rows, u, i).total == if Owed(w, u, i) then 10 else 0;
      }
    }
  }

  ghost function VerifiedIssues(w: World): set<IssueId> {
    set i | i in w.issues && w.issues[i].status.VERIFIED?
  }

  /** The request is accepted and moves its issue into VERIFIED or, by an agency, out of it. */
  predicate Turning(ai: IssueVerificationService, w: World, r: Request) {
    && r.ChangeStatus? && Handle(ai, w, r).Success? && r.target.id in w.issues
    && SettlementOf(w.issues[r.target.id].status, r.dto.status).Some?
  }

  /** A settlement that is not lost appends one row for its issue, worth what its direction says. */
  lemma TurningWrites(ai: IssueVerificationService, w: World, r: Request)
    requires Inv(ai, w) && Conserved(w) && !LostSettlement(ai, w, r) && Turning(ai, w, r)
    ensures exists row: Row :: && Next(ai, w, r).rows == w.rows + [row] && row.issue == r.target.id
                               && row.amount == if r.dto.status.VERIFIED? then 10 else -10
  {
    var i := r.target.id;
    assert RecordOk(w, i);
    var u := w.issues[i].volunteer.value;
    var d := SettlementOf(w.issues[i].status, r.dto.status).value;
    assert NetFor(w.rows, u, i).total == if Owed(w, u, i) then 10 else 0;
    NetIsTenOrZero(w.rows, u, i);
    SettlementIsAtomic(w.rows, w.cache, d, u, i, r.fault);
    WantedIsNext(w.rows, d, u, i);
    var row := NthRow(u, i, NetFor(w.rows, u, i).count);
    assert Next(ai, w, r).rows == Settle(w.rows, d, u, i) == w.rows + [row];
  }

  /** What a turning request does to its issue's status; no other issue is verified or unverified. */
  lemma TurningTurns(ai: IssueVerificationService, w: World, r: Request)
    requires Turning(ai, w, r)
    ensures var was, now := VerifiedIssues(w), VerifiedIssues(Next(ai, w, r));
            if r.dto.status.VERIFIED? then r.target.id !in was && now == was + {r.target.id}
            else r.target.id in was && now == was - {r.target.id}
  {
    var t := Next(ai, w, r);
    assert t.issues[r.target.id] == Decided(w.issues[r.target.id], r.dto, r.now);
    forall i | i != r.target.id
      ensures i in VerifiedIssues(t) <==> i in VerifiedIssues(w)
    {
      OthersUntouched(ai, w, r, i);
    }
  }

  lemma TurningCounts(ai: IssueVerificationService, w: World, r: Request)
    requires Turning(ai, w, r)
    ensures |VerifiedIssues(Next(ai, w, r))| == |VerifiedIssues(w)| + (if r.dto.status.VERIFIED? then 1 else -1)
  {
    TurningTurns(ai, w, r);
  }

  lemma TurningPays(ai: IssueVerificationService, w: World, r: Request)
    requires Inv(ai, w) && Conserved(w) && !LostSettlement(ai, w, r) && Turning(ai, w, r)
    ensures Sum(Next(ai, w, r).rows) == Sum(w.rows) + (if r.dto.status.VERIFIED? then 10 else -10)
  {
    TurningWrites(ai, w, r);
    var row: Row :| && Next(ai, w, r).rows == w.rows + [row] && row.issue == r.target.id
                    && row.amount == if r.dto.status.VERIFIED? then 10 else -10;
    SumAppend(w.rows, row);
  }

  lemma QuietVerified(ai: IssueVerificationService, w: World, r: Request)
    requires !StartsVerified(ai, w, r) && !Turning(ai, w, r)
    ensures VerifiedIssues(Next(ai, w, r)) == VerifiedIssues(w) && Next(ai, w, r).rows == w.rows
  {
    var t := Next(ai, w, r);
    OnlyStatusChangesPay(ai, w, r);
    forall i
      ensures i in VerifiedIssues(t) <==> i in VerifiedIssues(w)
    {
      OthersUntouched(ai, w, r, i);
      if i in w.issues {
        MovesFollowTable(ai, w, r, i);
        if r.ChangeStatus? && Handle(ai, w, r).Success? && i == r.target.id {
          assert t.issues[i] == Decided(w.issues[i], r.dto, r.now);
        }
      }
    }
  }

  /** One request moves the sum of all points and the number of verified issues together. */
  lemma TotalStep(ai: IssueVerificationService, w: World, r: Request)
    requires Inv(ai, w) && Conserved(w) && Conserved(Next(ai, w, r))
    requires Sum(w.rows) == 10 * |VerifiedIssues(w)|
    ensures Sum(Next(ai, w, r).rows) == 10 * |VerifiedIssues(Next(ai, w, r))|
  {
    ConservedStep(ai, w, r);
    if Turning(ai, w, r) {
      TurningCounts(ai, w, r);
      TurningPays(ai, w, r);
    } else {
      QuietVerified(ai, w, r);
    }
  }

  /** In a conserved run all the points in the ledger are ten per verified issue. */
  lemma {:induction false} TotalCountsVerified(ai: IssueVerificationService, rs: seq<Request>)
    requires ConservedThroughout(ai, rs)
    ensures Sum(Execute(ai, rs).rows) == 10 * |VerifiedIssues(Execute(ai, rs))|
  {
    if rs == [] {
      assert VerifiedIssues(EMPTY) == {};
    } else {
      var n := |rs| - 1;
      TotalCountsVerified(ai, rs[..n]);
      Runs.Reachable(ai, rs[..n]);
      TotalStep(ai, Execute(ai, rs[..n]), rs[n]);
    }
  }

  function RowsOf(i: IssueId): Row -> bool {
    (r: Row) => r.issue == i
  }

  predicate IsVerified(w: World, i: IssueId) {
    i in w.issues && w.issues[i].status.VERIFIED?
  }

  /** How often an issue entered or left VERIFIED during a run. */
  function Turns(ai: IssueVerificationService, rs: seq<Request>, i: IssueId): nat {
    if rs == [] then 0
    else
      var n := |rs| - 1;
      Turns(ai, rs[..n], i)
      + (if IsVerified(Execute(ai, rs[..n]), i) != IsVerified(Execute(ai, rs), i) then 1 else 0)
  }

  lemma TurnStep(ai: IssueVerificationService, w: World, r: Request, i: IssueId)
    requires Inv(ai, w) && Conserved(w) && Conserved(Next(ai, w, r))
    ensures |Filter(RowsOf(i), Next(ai, w, r).rows)|
         == |Filter(RowsOf(i), w.rows)| + (if IsVerified(w, i) != IsVerified(Next(ai, w, r), i) then 1 else 0)
  {
    ConservedStep(ai, w, r);
    assert IsVerified(w, i) <==> i in VerifiedIssues(w);
    assert IsVerified(Next(ai, w, r), i) <==> i in VerifiedIssues(Next(ai, w, r));
    if Turning(ai, w, r) {
      TurningTurns(ai, w, r);
      TurningWrites(ai, w, r);
      var row: Row :| && Next(ai, w, r).rows == w.rows + [row] && row.issue == r.target.id
                      && row.amount == if r.dto.status.VERIFIED? then 10 else -10;
      FilterAppend(RowsOf(i), w.rows, row);
    } else {
      QuietVerified(ai, w, r);
    }
  }

  /** In a conserved run an issue has exactly one ledger row per verification and per reversal. */
  lemma {:induction false} RowsCountTurns(ai: IssueVerificationService, rs: seq<Request>, i: IssueId)
    requires ConservedThroughout(ai, rs)
    ensures |Filter(RowsOf(i), Execute(ai, rs).rows)| == Turns(ai, rs, i)
  {
    if rs != [] {
      var n := |rs| - 1;
      RowsCountTurns(ai, rs[..n], i);
      Runs.Reachable(ai, rs[..n]);
      TurnStep(ai, Execute(ai, rs[..n]), rs[n], i);
    }
  }

  // --------------------------------------------------- swallowed failures

  /** The direction of the pair's last settlement that took effect, if it had one. */
  function LastEffective(ai: IssueVerificationService, rs: seq<Request>, u: UserId, i: IssueId): Option<Direction> {
    if rs == [] then None
    else
      var n := |rs| - 1;
      var w := Execute(ai, rs[..n]);
      if Settles(ai, w, rs[n], Award, u, i) && TakesEffect(w.rows, Award, u, i, rs[n].fault) then Some(Award)
      else if Settles(ai, w, rs[n], Reverse, u, i) && TakesEffect(w.rows, Reverse, u, i, rs[n].fault) then Some(Reverse)
      else LastEffective(ai, rs[..n], u, i)
  }

  /**
   Self-stabilisation. Whatever failures were swallowed, in every run a pair nets 10 exactly when
   its last settlement that took effect was an award, and 0 otherwise: one later success repairs it.
   */
  lemma {:induction false} LastEffectiveSettlementDecides(ai: IssueVerificationService, rs: seq<Request>,
                                                         u: UserId, i: IssueId)
    ensures NetFor(Execute(ai, rs).rows, u, i).total == if LastEffective(ai, rs, u, i) == Some(Award) then 10 else 0
  {
    if rs != [] {
      var n := |rs| - 1;
      LastEffectiveSettlementDecides(ai, rs[..n], u, i);
      Runs.Reachable(ai, rs[..n]);
      NetAfter(ai, Execute(ai, rs[..n]), rs[n], u, i);
    }
  }
}
