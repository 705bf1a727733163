/** Where each payment comes from: the requests earlier in the run that led to it. */
module Provenance {
  import opened Contracts
  import opened Sequences
  import opened Ledger
  import opened Store
  import opened IssueMedia
  import opened IssueVerification
  import opened IssueLifecycle
  import opened Runs

  /** The state the n-th request found. */
  function At(ai: IssueVerificationService, rs: seq<Request>, n: nat): World
    requires n <= |rs|
  {
    Execute(ai, rs[..n])
  }

  predicate Accepted(ai: IssueVerificationService, rs: seq<Request>, n: nat) {
    n < |rs| && Handle(ai, At(ai, rs, n), rs[n]).Success?
  }

  predicate ClaimedBy(ai: IssueVerificationService, rs: seq<Request>, n: nat, id: IssueId, u: UserId) {
    Accepted(ai, rs, n) && rs[n].Claim? && rs[n].id == id && rs[n].actor == u
  }

  /** An upload the system counted as proof: the issue was being worked on and u held it. */
  predicate ProvedBy(ai: IssueVerificationService, rs: seq<Request>, n: nat, id: IssueId, u: UserId) {
    && Accepted(ai, rs, n) && rs[n].Upload? && rs[n].id == id && rs[n].actor == u
    && MayAttach(At(ai, rs, n), id, u) == Success(PROOF)
  }

  predicate ResolvedBy(ai: IssueVerificationService, rs: seq<Request>, n: nat, id: IssueId, u: UserId) {
    Accepted(ai, rs, n) && rs[n].Resolve? && rs[n].id == id && rs[n].actor == u
  }

  /** From the n-th state to the m-th, the issue's status never changed. */
  ghost predicate StatusKept(ai: IssueVerificationService, rs: seq<Request>, id: IssueId, n: nat, m: nat) {
    forall k :: n <= k <= m <= |rs| ==>
      && id in At(ai, rs, k).issues && id in At(ai, rs, m).issues
      && At(ai, rs, k).issues[id].status == At(ai, rs, m).issues[id].status
  }

  /** From the n-th state to the m-th, u held the issue without a break. */
  ghost predicate HeldBy(ai: IssueVerificationService, rs: seq<Request>, id: IssueId, u: UserId, n: nat, m: nat) {
    forall k :: n <= k <= m <= |rs| ==> id in At(ai, rs, k).issues && At(ai, rs, k).issues[id].volunteer == Some(u)
  }

  lemma HeldOneMore(ai: IssueVerificationService, rs: seq<Request>, id: IssueId, u: UserId, n: nat)
    requires rs != [] && HeldBy(ai, rs[..|rs| - 1], id, u, n, |rs| - 1)
    requires id in Execute(ai, rs).issues && Execute(ai, rs).issues[id].volunteer == Some(u)
    ensures HeldBy(ai, rs, id, u, n, |rs|)
  {
    forall k | n <= k <= |rs|
      ensures id in At(ai, rs, k).issues && At(ai, rs, k).issues[id].volunteer == Some(u)
    {
      if k < |rs| {
        PrefixAt(ai, rs, |rs| - 1, k);
        assert id in At(ai, rs[..|rs| - 1], k).issues;
      } else {
        assert rs[..k] == rs;
      }
    }
  }

  lemma HeldInPrefix(ai: IssueVerificationService, rs: seq<Request>, id: IssueId, u: UserId, n: nat, m: nat)
    requires m <= |rs| && HeldBy(ai, rs[..m], id, u, n, m)
    ensures HeldBy(ai, rs, id, u, n, m)
  {
    forall k | n <= k <= m
      ensures id in At(ai, rs, k).issues && At(ai, rs, k).issues[id].volunteer == Some(u)
    {
      PrefixAt(ai, rs, m, k);
      assert id in At(ai, rs[..m], k).issues;
    }
  }

  lemma PrefixAt(ai: IssueVerificationService, rs: seq<Request>, m: nat, n: nat)
    requires n <= m <= |rs|
    ensures At(ai, rs[..m], n) == At(ai, rs, n)
  {
    assert rs[..m][..n] == rs[..n];
  }

  /** Whoever holds an issue claimed it, and has held it without a break since that claim. */
  lemma {:induction false} HolderClaimed(ai: IssueVerificationService, rs: seq<Request>, id: IssueId) returns (n: nat)
    requires id in Execute(ai, rs).issues && Execute(ai, rs).issues[id].volunteer.Some?
    ensures ClaimedBy(ai, rs, n, id, Execute(ai, rs).issues[id].volunteer.value)
    ensures HeldBy(ai, rs, id, Execute(ai, rs).issues[id].volunteer.value, n + 1, |rs|)
  {
    var m := |rs| - 1;
    var w := Execute(ai, rs[..m]);
    var u := Execute(ai, rs).issues[id].volunteer.value;
    OthersUntouched(ai, w, rs[m], id);
    if id in w.issues && w.issues[id].volunteer == Some(u) {
      n := HolderClaimed(ai, rs[..m], id);
      PrefixAt(ai, rs, m, n);
      HeldOneMore(ai, rs, id, u, n + 1);
    } else {
      n := m;
      assert rs[..|rs|] == rs;
      if rs[m].ChangeStatus? && Handle(ai, w, rs[m]).Success? && rs[m].target.id == id {
        assert Execute(ai, rs).issues[id] == Decided(w.issues[id], rs[m].dto, rs[m].now);
      }
    }
  }

  /** Every proof file was uploaded as proof by its author. */
  lemma {:induction false} ProofWasUploaded(ai: IssueVerificationService, rs: seq<Request>, id: IssueId, u: UserId,
                                           f: MediaFile)
    returns (n: nat)
    requires f in Execute(ai, rs).files && ProofBy(id, u)(f)
    ensures ProvedBy(ai, rs, n, id, u)
  {
    var m := |rs| - 1;
    var w := Execute(ai, rs[..m]);
    if f in w.files {
      n := ProofWasUploaded(ai, rs[..m], id, u, f);
      PrefixAt(ai, rs, m, n);
    } else {
      n := m;
      if rs[m].Remove? && Handle(ai, w, rs[m]).Success? {
        FilterMember(OtherThan(rs[m].fid), w.files, f);
      }
      assert rs[m].Upload?;
    }
  }

  lemma KeptOneMore(ai: IssueVerificationService, rs: seq<Request>, id: IssueId, n: nat)
    requires rs != [] && n < |rs|
    requires StatusKept(ai, rs[..|rs| - 1], id, n, |rs| - 1)
    requires id in At(ai, rs, |rs| - 1).issues && id in At(ai, rs, |rs|).issues
    requires At(ai, rs, |rs|).issues[id].status == At(ai, rs, |rs| - 1).issues[id].status
    ensures StatusKept(ai, rs, id, n, |rs|)
  {
    var m := |rs| - 1;
    forall k | n <= k <= m
      ensures id in At(ai, rs, k).issues && At(ai, rs, k).issues[id].status == At(ai, rs, m).issues[id].status
    {
      PrefixAt(ai, rs, m, k);
      PrefixAt(ai, rs, m, m);
      assert id in At(ai, rs[..m], k).issues;
    }
  }

  /** A resolution waiting for an agency: the last thing that moved the issue was its holder's resolve. */
  lemma {:induction false} WaitingWasResolved(ai: IssueVerificationService, rs: seq<Request>, id: IssueId)
    returns (n: nat)
    requires id in Execute(ai, rs).issues && Execute(ai, rs).issues[id].status in {RESOLVED, AI_APPROVED}
    ensures Execute(ai, rs).issues[id].volunteer.Some?
    ensures ResolvedBy(ai, rs, n, id, Execute(ai, rs).issues[id].volunteer.value)
    ensures StatusKept(ai, rs, id, n + 1, |rs|)
  {
    var m := |rs| - 1;
    var w, t := Execute(ai, rs[..m]), Execute(ai, rs);
    assert rs[..|rs|] == rs;
    OthersUntouched(ai, w, rs[m], id);
    if w.issues[id].status == t.issues[id].status {
      n := WaitingWasResolved(ai, rs[..m], id);
      HolderStays(ai, w, rs[m], id);
      PrefixAt(ai, rs, m, n);
      KeptOneMore(ai, rs, id, n + 1);
    } else {
      n := m;
      MovesFollowTable(ai, w, rs[m], id);
    }
  }

  lemma HolderStays(ai: IssueVerificationService, w: World, r: Request, id: IssueId)
    requires id in w.issues && w.issues[id].status in {RESOLVED, AI_APPROVED}
    requires id in Next(ai, w, r).issues && Next(ai, w, r).issues[id].status == w.issues[id].status
    ensures Next(ai, w, r).issues[id].volunteer == w.issues[id].volunteer
  {
    OthersUntouched(ai, w, r, id);
    if r.ChangeStatus? && Handle(ai, w, r).Success? && r.target.id == id {
      assert Next(ai, w, r).issues[id] == Decided(w.issues[id], r.dto, r.now);
    }
  }

  /** The v-th request is a verification of `row.issue` that wrote `row` as the ledger's k-th row. */
  ghost predicate PaidBy(ai: IssueVerificationService, rs: seq<Request>, v: nat, k: nat, row: Row) {
    && Accepted(ai, rs, v) && rs[v].ChangeStatus? && rs[v].target.id == row.issue && rs[v].dto.status.VERIFIED?
    && rs[v].actor != row.user
    && |At(ai, rs, v).rows| == k && At(ai, rs, v + 1).rows == At(ai, rs, v).rows + [row]
    && row.issue in At(ai, rs, v).issues
    && At(ai, rs, v).issues[row.issue].volunteer == Some(row.user)
    && At(ai, rs, v).issues[row.issue].status in {RESOLVED, AI_APPROVED}
    && At(ai, rs, v).issues[row.issue].reportedBy != row.user
  }

  /** A request appends at most one row, and only a settlement does. */
  lemma OneRowAtMost(ai: IssueVerificationService, w: World, r: Request)
    requires WellFormed(w.rows)
    ensures var t := Next(ai, w, r);
            t.rows == w.rows ||
            (&& r.ChangeStatus? && Handle(ai, w, r).Success? && w.issues[r.target.id].volunteer.Some?
             && var u := w.issues[r.target.id].volunteer.value;
                var d := SettlementOf(w.issues[r.target.id].status, r.dto.status);
                && d.Some?
                && d.value.Award? == (NetFor(w.rows, u, r.target.id).count % 2 == 0)
                && t.rows == w.rows + [NthRow(u, r.target.id, NetFor(w.rows, u, r.target.id).count)])
  {
    if r.ChangeStatus? && Handle(ai, w, r).Success? {
      var x := w.issues[r.target.id];
      var d := SettlementOf(x.status, r.dto.status);
      if d.Some? && x.volunteer.Some? {
        WantedIsNext(w.rows, d.value, x.volunteer.value, r.target.id);
      }
    }
  }

  lemma {:induction false} AwardWasPaid(ai: IssueVerificationService, rs: seq<Request>, k: nat) returns (v: nat)
    requires k < |Execute(ai, rs).rows| && Execute(ai, rs).rows[k].amount > 0
    ensures PaidBy(ai, rs, v, k, Execute(ai, rs).rows[k])
  {
    var m := |rs| - 1;
    var w := Execute(ai, rs[..m]);
    Reachable(ai, rs[..m]);
    OneRowAtMost(ai, w, rs[m]);
    assert rs[..m + 1] == rs;
    if k < |w.rows| {
      v := AwardWasPaid(ai, rs[..m], k);
      PrefixAt(ai, rs, m, v);
      PrefixAt(ai, rs, m, v + 1);
    } else {
      v := m;
      assert RecordOk(w, rs[m].target.id);
    }
  }

  /** Nobody claims an issue while its resolution waits, so the holder's claim came before the resolve. */
  lemma ClaimBeforeResolve(ai: IssueVerificationService, rs: seq<Request>, id: IssueId, u: UserId,
                           claim: nat, resolve: nat)
    requires ClaimedBy(ai, rs, claim, id, u) && ResolvedBy(ai, rs, resolve, id, u)
    requires StatusKept(ai, rs, id, resolve + 1, |rs|)
    requires id in Execute(ai, rs).issues && Execute(ai, rs).issues[id].status in {RESOLVED, AI_APPROVED}
    ensures claim < resolve
  {
    assert rs[..|rs|] == rs;
    var next := At(ai, rs, claim + 1);
    assert rs[..claim + 1][..claim] == rs[..claim];
    assert next.issues[id].status.CLAIMED?;
  }

  /**
   Provenance. Every award in the ledger, in any run with any settlement failures, was written by
   a verification whose actor is neither the one paid nor acting on an issue the one paid had
   reported; the last request that moved the issue before it was a resolve by the one paid, who
   before that had claimed the issue and uploaded proof to it, and who held it without a break
   from that claim to the verification.
   */
  lemma EveryAwardIsEarned(ai: IssueVerificationService, rs: seq<Request>, k: nat)
    returns (claim: nat, proof: nat, resolve: nat, verify: nat)
    requires k < |Execute(ai, rs).rows| && Execute(ai, rs).rows[k].amount > 0
    ensures var row := Execute(ai, rs).rows[k];
            && claim < resolve && proof < resolve < verify
            && PaidBy(ai, rs, verify, k, row)
            && ResolvedBy(ai, rs, resolve, row.issue, row.user)
            && StatusKept(ai, rs, row.issue, resolve + 1, verify)
            && ClaimedBy(ai, rs, claim, row.issue, row.user)
            && HeldBy(ai, rs, row.issue, row.user, claim + 1, verify)
            && ProvedBy(ai, rs, proof, row.issue, row.user)
  {
    var row := Execute(ai, rs).rows[k];
    verify := AwardWasPaid(ai, rs, k);
    claim, resolve := WorkBeforeVerification(ai, rs, row.issue, row.user, verify);
    proof := ProofBeforeResolve(ai, rs, row.issue, row.user, resolve);
  }

  /** Work found waiting at a verification was claimed, then resolved, by one who held it all along. */
  lemma WorkBeforeVerification(ai: IssueVerificationService, rs: seq<Request>, id: IssueId, u: UserId, verify: nat)
    returns (claim: nat, resolve: nat)
    requires verify <= |rs| && id in At(ai, rs, verify).issues && At(ai, rs, verify).issues[id].volunteer == Some(u)
    requires At(ai, rs, verify).issues[id].status in {RESOLVED, AI_APPROVED}
    ensures claim < resolve < verify
    ensures ResolvedBy(ai, rs, resolve, id, u) && StatusKept(ai, rs, id, resolve + 1, verify)
    ensures ClaimedBy(ai, rs, claim, id, u) && HeldBy(ai, rs, id, u, claim + 1, verify)
  {
    var before := rs[..verify];
    resolve := WaitingWasResolved(ai, before, id);
    claim := HolderClaimed(ai, before, id);
    ClaimBeforeResolve(ai, before, id, u, claim, resolve);
    PrefixAt(ai, rs, verify, resolve);
    PrefixAt(ai, rs, verify, claim);
    HeldInPrefix(ai, rs, id, u, claim + 1, verify);
    KeptInPrefix(ai, rs, id, resolve + 1, verify);
  }

  lemma KeptInPrefix(ai: IssueVerificationService, rs: seq<Request>, id: IssueId, n: nat, m: nat)
    requires m <= |rs| && StatusKept(ai, rs[..m], id, n, m)
    ensures StatusKept(ai, rs, id, n, m)
  {
    forall k | n <= k <= m
      ensures id in At(ai, rs, k).issues && id in At(ai, rs, m).issues
      ensures At(ai, rs, k).issues[id].status == At(ai, rs, m).issues[id].status
    {
      PrefixAt(ai, rs, m, k);
      PrefixAt(ai, rs, m, m);
      assert id in At(ai, rs[..m], k).issues;
    }
  }

  /** An accepted resolve found a proof file, which its author had uploaded. */
  lemma ProofBeforeResolve(ai: IssueVerificationService, rs: seq<Request>, id: IssueId, u: UserId, resolve: nat)
    returns (proof: nat)
    requires ResolvedBy(ai, rs, resolve, id, u)
    ensures proof < resolve && ProvedBy(ai, rs, proof, id, u)
  {
    var w := At(ai, rs, resolve);
    CountedProof(w.files, id, u);
    var f :| f in w.files && ProofBy(id, u)(f);
    proof := ProofWasUploaded(ai, rs[..resolve], id, u, f);
    PrefixAt(ai, rs, resolve, proof);
  }
}
