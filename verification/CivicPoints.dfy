/** The points service: awards and reversals against the ledger, and the cached balance. */
module CivicPoints {
  import opened Contracts
  import opened Ledger
  import opened Store

  /** Which database operation of a settlement fails, if any. */
  datatype Fault = NoFault | ReadFails | InsertFails | CacheFails

  datatype Settlement = Settlement(rows: seq<Row>, cache: map<UserId, int>, failed: bool)

  /** What one award or reversal does to the ledger and the cache, given what fails. */
  function SettleWith(rows: seq<Row>, cache: map<UserId, int>, d: Direction, u: UserId, i: IssueId, fault: Fault)
    : Settlement
  {
    if fault.ReadFails? then Settlement(rows, cache, true)
    else
      match Wanted(d, u, i, NetFor(rows, u, i))
      case None => Settlement(rows, cache, false)
      case Some(row) =>
        if fault.InsertFails? then Settlement(rows, cache, true)
        else if HasKey(rows, row) then Settlement(rows, cache, false)
        else if fault.CacheFails? then Settlement(rows + [row], cache, true)
        else Settlement(rows + [row], cache[u := BalanceFor(rows + [row], u)], false)
  }

  /** A settlement takes effect when its read, and its insert if it needs one, go through. */
  predicate TakesEffect(rows: seq<Row>, d: Direction, u: UserId, i: IssueId, fault: Fault) {
    !fault.ReadFails? && (fault.InsertFails? ==> Wanted(d, u, i, NetFor(rows, u, i)).None?)
  }

  /** The ledger after a settlement: the atomic award or reversal when it takes effect, otherwise unchanged. */
  lemma SettlementIsAtomic(rows: seq<Row>, cache: map<UserId, int>, d: Direction, u: UserId,
                           i: IssueId, fault: Fault)
    requires WellFormed(rows)
    ensures SettleWith(rows, cache, d, u, i, fault).rows
         == if TakesEffect(rows, d, u, i, fault) then Settle(rows, d, u, i) else rows
    ensures var s := SettleWith(rows, cache, d, u, i, fault);
            s.cache == if s.rows != rows && fault.NoFault? then cache[u := BalanceFor(s.rows, u)] else cache
    ensures SettleWith(rows, cache, d, u, i, fault).failed <==>
              fault.ReadFails? || (!fault.NoFault? && Settle(rows, d, u, i) != rows)
    ensures fault.NoFault? ==> TakesEffect(rows, d, u, i, fault)
                               && !SettleWith(rows, cache, d, u, i, fault).failed
  {
    var net := NetFor(rows, u, i);
    WantedIsNext(rows, d, u, i);
    if Wanted(d, u, i, net).Some? {
      KeyTaken(rows, NthRow(u, i, net.count));
    }
  }

  /** A cached balance is right when it equals the ledger's; a user without one has the default 0. */
  ghost predicate CacheExact(rows: seq<Row>, cache: map<UserId, int>, u: UserId) {
    (if u in cache then cache[u] else 0) == BalanceFor(rows, u)
  }

  /** Without overlap or failure, recomputing keeps every user's cached balance exact. */
  lemma SettlementKeepsCacheExact(rows: seq<Row>, cache: map<UserId, int>, d: Direction,
                                  u: UserId, i: IssueId, v: UserId)
    requires CacheExact(rows, cache, v)
    ensures var s := SettleWith(rows, cache, d, u, i, NoFault);
            CacheExact(s.rows, s.cache, v)
  {
    var wanted := Wanted(d, u, i, NetFor(rows, u, i));
    if wanted.Some? {
      BalanceAppend(rows, wanted.value, v);
      assert wanted.value.user == u;
    }
  }

  class CivicPointsService {
    const db: Database

    constructor (db: Database)
      ensures this.db == db
    {
      this.db := db;
    }

    method AwardForVerification(id: IssueId, issue: Issue, fault: Fault) returns (failed: bool)
      modifies db
      ensures db.issues == old(db.issues) && db.files == old(db.files)
      ensures match issue.volunteer
              case None => !failed && db.rows == old(db.rows) && db.cache == old(db.cache)
              case Some(u) =>
                Settlement(db.rows, db.cache, failed) == SettleWith(old(db.rows), old(db.cache), Award, u, id, fault)
    {
      if issue.volunteer.None? {
        return false;
      }
      var userId := issue.volunteer.value;
      if fault.ReadFails? {
        return true;
      }
      var net := NetFor(db.rows, userId, id);
      if net.total != 0 {
        return false;
      }
      failed := Record(Row(userId, id, POINTS_PER_VERIFIED_RESOLUTION, RESOLUTION_VERIFIED, net.count), fault);
    }

    method ReverseForVerification(id: IssueId, issue: Issue, fault: Fault) returns (failed: bool)
      modifies db
      ensures db.issues == old(db.issues) && db.files == old(db.files)
      ensures match issue.volunteer
              case None => !failed && db.rows == old(db.rows) && db.cache == old(db.cache)
              case Some(u) =>
                Settlement(db.rows, db.cache, failed) == SettleWith(old(db.rows), old(db.cache), Reverse, u, id, fault)
    {
      if issue.volunteer.None? {
        return false;
      }
      var userId := issue.volunteer.value;
      if fault.ReadFails? {
        return true;
      }
      var net := NetFor(db.rows, userId, id);
      if net.total <= 0 {
        return false;
      }
      failed := Record(Row(userId, id, -net.total, VERIFICATION_REVERSED, net.count), fault);
    }

    /** The cache is overwritten only after a row of this very call went in. */
    method Record(row: Row, fault: Fault) returns (failed: bool)
      modifies db
      ensures db.issues == old(db.issues) && db.files == old(db.files)
      ensures failed <==> fault.InsertFails? || (fault.CacheFails? && !HasKey(old(db.rows), row))
      ensures db.rows == if fault.InsertFails? || HasKey(old(db.rows), row) then old(db.rows) else old(db.rows) + [row]
      ensures db.cache == if failed || HasKey(old(db.rows), row) then old(db.cache)
                          else old(db.cache)[row.user := BalanceFor(db.rows, row.user)]
    {
      if fault.InsertFails? {
        return true;
      }
      if HasKey(db.rows, row) {
        return false;
      }
      db.rows := db.rows + [row];
      if fault.CacheFails? {
        return true;
      }
      var total := BalanceFor(db.rows, row.user);
      db.cache := db.cache[row.user := total];
      return false;
    }
  }
}
