/**
 The append-only points ledger: its rows, the sums taken over it, and what one award or
 reversal does to it when nothing interferes.
 */
module Ledger {
  import opened Contracts
  import opened Sequences

  datatype Row = Row(user: UserId, issue: IssueId, amount: int, reason: PointsReason, sequence: nat)

  datatype Direction = Award | Reverse

  datatype Net = Net(total: int, count: nat)

  function OfPair(u: UserId, i: IssueId): Row -> bool {
    (r: Row) => r.user == u && r.issue == i
  }

  function OfUser(u: UserId): Row -> bool {
    (r: Row) => r.user == u
  }

  function PairRows(rows: seq<Row>, u: UserId, i: IssueId): seq<Row> {
    Filter(OfPair(u, i), rows)
  }

  function Sum(rows: seq<Row>): int {
    if rows == [] then 0
    else Sum(rows[..|rows| - 1]) + rows[|rows| - 1].amount
  }

  /** What the ledger nets for a pair, and how many rows the pair has: one aggregate. */
  function NetFor(rows: seq<Row>, u: UserId, i: IssueId): Net {
    Net(Sum(PairRows(rows, u, i)), |PairRows(rows, u, i)|)
  }

  function BalanceFor(rows: seq<Row>, u: UserId): int {
    Sum(Filter(OfUser(u), rows))
  }

  /** The row a caller that has read `net` goes on to insert, if any. */
  function Wanted(d: Direction, u: UserId, i: IssueId, net: Net): Option<Row> {
    match d
    case Award =>
      if net.total != 0 then None
      else Some(Row(u, i, POINTS_PER_VERIFIED_RESOLUTION, RESOLUTION_VERIFIED, net.count))
    case Reverse =>
      if net.total <= 0 then None
      else Some(Row(u, i, -net.total, VERIFICATION_REVERSED, net.count))
  }

  /** The unique index on (user, issue, sequence). */
  predicate HasKey(rows: seq<Row>, row: Row) {
    exists k :: 0 <= k < |rows| && rows[k].user == row.user && rows[k].issue == row.issue
                && rows[k].sequence == row.sequence
  }

  /** Award or reverse as one atomic operation. */
  function Settle(rows: seq<Row>, d: Direction, u: UserId, i: IssueId): seq<Row> {
    match Wanted(d, u, i, NetFor(rows, u, i))
    case None => rows
    case Some(row) => rows + [row]
  }

  // ------------------------------------------------------------------ shape

  /** The k-th row of any pair: awards at even positions, reversals at odd ones. */
  function NthRow(u: UserId, i: IssueId, k: nat): Row {
    if k % 2 == 0 then Row(u, i, 10, RESOLUTION_VERIFIED, k)
    else Row(u, i, -10, VERIFICATION_REVERSED, k)
  }

  function Alternation(u: UserId, i: IssueId, n: nat): seq<Row> {
    seq(n, k requires 0 <= k < n => NthRow(u, i, k))
  }

  /** Every pair's rows are award, reversal, award, ... numbered from zero without a gap. */
  ghost predicate WellFormed(rows: seq<Row>) {
    forall u, i :: PairRows(rows, u, i) == Alternation(u, i, |PairRows(rows, u, i)|)
  }

  lemma {:induction false} SumConcat(xs: seq<Row>, ys: seq<Row>)
    ensures Sum(xs + ys) == Sum(xs) + Sum(ys)
  {
    if ys == [] {
      assert xs + ys == xs;
    } else {
      var n := |ys| - 1;
      SumConcat(xs, ys[..n]);
      assert (xs + ys)[..|xs + ys| - 1] == xs + ys[..n];
    }
  }

  lemma {:induction false} SumAlternation(u: UserId, i: IssueId, n: nat)
    ensures Sum(Alternation(u, i, n)) == if n % 2 == 0 then 0 else 10
  {
    if n > 0 {
      SumAlternation(u, i, n - 1);
      assert Alternation(u, i, n)[..n - 1] == Alternation(u, i, n - 1);
    }
  }

  /** In a well-formed ledger a pair nets 10 or 0, and the parity of its row count says which. */
  lemma NetIsTenOrZero(rows: seq<Row>, u: UserId, i: IssueId)
    requires WellFormed(rows)
    ensures NetFor(rows, u, i).total == if NetFor(rows, u, i).count % 2 == 0 then 0 else 10
  {
    SumAlternation(u, i, |PairRows(rows, u, i)|);
  }

  /** A caller always wants exactly the pair's next row, or nothing. */
  lemma WantedIsNext(rows: seq<Row>, d: Direction, u: UserId, i: IssueId)
    requires WellFormed(rows)
    ensures var net := NetFor(rows, u, i);
            Wanted(d, u, i, net) == if d.Award? == (net.count % 2 == 0) then Some(NthRow(u, i, net.count)) else None
  {
    NetIsTenOrZero(rows, u, i);
  }

  lemma PairRowsAppend(rows: seq<Row>, r: Row, u: UserId, i: IssueId)
    ensures PairRows(rows + [r], u, i)
         == PairRows(rows, u, i) + (if r.user == u && r.issue == i then [r] else [])
  {
    FilterAppend(OfPair(u, i), rows, r);
  }

  lemma SumAppend(xs: seq<Row>, r: Row)
    ensures Sum(xs + [r]) == Sum(xs) + r.amount
  {
    assert (xs + [r])[..|xs|] == xs;
  }

  lemma NetAppend(rows: seq<Row>, r: Row, u: UserId, i: IssueId)
    ensures NetFor(rows + [r], u, i).count
         == NetFor(rows, u, i).count + (if r.user == u && r.issue == i then 1 else 0)
    ensures NetFor(rows + [r], u, i).total
         == NetFor(rows, u, i).total + (if r.user == u && r.issue == i then r.amount else 0)
  {
    var before := PairRows(rows, u, i);
    PairRowsAppend(rows, r, u, i);
    SumAppend(before, r);
    if !(r.user == u && r.issue == i) {
      assert PairRows(rows + [r], u, i) == before;
    }
  }

  lemma EmptyIsWellFormed()
    ensures WellFormed([])
  {
  }

  /** Appending a pair's next row keeps the whole ledger well formed. */
  lemma AppendNextKeeps(rows: seq<Row>, u: UserId, i: IssueId)
    requires WellFormed(rows)
    ensures WellFormed(rows + [NthRow(u, i, NetFor(rows, u, i).count)])
  {
    var row := NthRow(u, i, NetFor(rows, u, i).count);
    forall v, j
      ensures PairRows(rows + [row], v, j) == Alternation(v, j, |PairRows(rows + [row], v, j)|)
    {
      PairRowsAppend(rows, row, v, j);
      assert PairRows(rows, v, j) == Alternation(v, j, |PairRows(rows, v, j)|);
    }
  }

  lemma RowIsNth(rows: seq<Row>, k: nat)
    requires WellFormed(rows) && k < |rows|
    ensures rows[k] == NthRow(rows[k].user, rows[k].issue, rows[k].sequence)
    ensures rows[k].sequence < NetFor(rows, rows[k].user, rows[k].issue).count
  {
    var u, i := rows[k].user, rows[k].issue;
    FilterMember(OfPair(u, i), rows, rows[k]);
    assert PairRows(rows, u, i) == Alternation(u, i, |PairRows(rows, u, i)|);
  }

  /** The unique index refuses exactly the sequences the pair has already used. */
  lemma KeyTaken(rows: seq<Row>, row: Row)
    requires WellFormed(rows)
    ensures HasKey(rows, row) <==> row.sequence < NetFor(rows, row.user, row.issue).count
  {
    var u, i := row.user, row.issue;
    forall k | 0 <= k < |rows| && rows[k].user == u && rows[k].issue == i
      ensures rows[k].sequence < NetFor(rows, u, i).count
    {
      RowIsNth(rows, k);
    }
    if row.sequence < NetFor(rows, u, i).count {
      assert PairRows(rows, u, i) == Alternation(u, i, |PairRows(rows, u, i)|);
      var r := PairRows(rows, u, i)[row.sequence];
      assert r in PairRows(rows, u, i);
      FilterMember(OfPair(u, i), rows, r);
    }
  }

  /** An atomic award or reversal keeps the ledger well formed. */
  lemma SettleKeeps(rows: seq<Row>, d: Direction, u: UserId, i: IssueId)
    requires WellFormed(rows)
    ensures WellFormed(Settle(rows, d, u, i))
  {
    WantedIsNext(rows, d, u, i);
    AppendNextKeeps(rows, u, i);
  }

  /** After an award the pair nets 10, after a reversal 0; no other pair moves. */
  lemma SettleNets(rows: seq<Row>, d: Direction, u: UserId, i: IssueId, v: UserId, j: IssueId)
    requires WellFormed(rows)
    ensures NetFor(Settle(rows, d, u, i), v, j).total
         == if v == u && j == i then (if d.Award? then 10 else 0) else NetFor(rows, v, j).total
  {
    WantedIsNext(rows, d, u, i);
    NetIsTenOrZero(rows, u, i);
    var row := NthRow(u, i, NetFor(rows, u, i).count);
    NetAppend(rows, row, v, j);
  }

  // ------------------------------------------------------------- regrouping

  ghost function Pick(issues: set<IssueId>): IssueId
    requires issues != {}
  {
    var i :| i in issues; i
  }

  /** The sum of a user's nets over a set of issues. */
  ghost function SumOfNets(rows: seq<Row>, u: UserId, issues: set<IssueId>): int {
    if issues == {} then 0
    else
      var i := Pick(issues);
      NetFor(rows, u, i).total + SumOfNets(rows, u, issues - {i})
  }

  lemma {:induction false} SumOfNetsAppend(rows: seq<Row>, r: Row, u: UserId, issues: set<IssueId>)
    ensures SumOfNets(rows + [r], u, issues)
         == SumOfNets(rows, u, issues) + (if r.user == u && r.issue in issues then r.amount else 0)
  {
    if issues != {} {
      var i := Pick(issues);
      SumOfNetsAppend(rows, r, u, issues - {i});
      NetAppend(rows, r, u, i);
    }
  }

  lemma {:induction false} NoRowsNoNets(u: UserId, issues: set<IssueId>)
    ensures SumOfNets([], u, issues) == 0
  {
    if issues != {} {
      NoRowsNoNets(u, issues - {Pick(issues)});
    }
  }

  /** Summing a user's rows directly or issue by issue gives the same balance. */
  lemma {:induction false} BalanceRegroups(rows: seq<Row>, u: UserId, issues: set<IssueId>)
    requires forall k :: 0 <= k < |rows| && rows[k].user == u ==> rows[k].issue in issues
    ensures BalanceFor(rows, u) == SumOfNets(rows, u, issues)
  {
    if rows == [] {
      NoRowsNoNets(u, issues);
    } else {
      var n := |rows| - 1;
      BalanceRegroups(rows[..n], u, issues);
      SumOfNetsAppend(rows[..n], rows[n], u, issues);
      assert rows == rows[..n] + [rows[n]];
      BalanceAppend(rows[..n], rows[n], u);
    }
  }

  lemma BalanceAppend(rows: seq<Row>, r: Row, u: UserId)
    ensures BalanceFor(rows + [r], u) == BalanceFor(rows, u) + (if r.user == u then r.amount else 0)
  {
    FilterAppend(OfUser(u), rows, r);
    SumAppend(Filter(OfUser(u), rows), r);
    assert Filter(OfUser(u), rows) + [] == Filter(OfUser(u), rows);
  }

  /** The issues a user is currently paid for. */
  ghost function PaidIssues(rows: seq<Row>, u: UserId): set<IssueId> {
    set k | 0 <= k < |rows| && NetFor(rows, u, rows[k].issue).total == 10 :: rows[k].issue
  }

  lemma {:induction false} SumOfPaid(rows: seq<Row>, u: UserId, issues: set<IssueId>)
    requires forall i :: i in issues ==> NetFor(rows, u, i).total in {0, 10}
    ensures SumOfNets(rows, u, issues) == 10 * |set i | i in issues && NetFor(rows, u, i).total == 10|
  {
    if issues != {} {
      var i := Pick(issues);
      var paid := set j | j in issues && NetFor(rows, u, j).total == 10;
      var rest := set j | j in issues - {i} && NetFor(rows, u, j).total == 10;
      SumOfPaid(rows, u, issues - {i});
      assert i !in rest;
      assert paid == if NetFor(rows, u, i).total == 10 then rest + {i} else rest;
      assert |paid| == |rest| + (if NetFor(rows, u, i).total == 10 then 1 else 0);
      assert SumOfNets(rows, u, issues) == NetFor(rows, u, i).total + SumOfNets(rows, u, issues - {i});
    }
  }

  /** A balance is ten times the number of issues the user is currently paid for. */
  lemma BalanceCountsPaidIssues(rows: seq<Row>, u: UserId)
    requires WellFormed(rows)
    ensures BalanceFor(rows, u) == 10 * |PaidIssues(rows, u)|
  {
    var issues := set k | 0 <= k < |rows| :: rows[k].issue;
    BalanceRegroups(rows, u, issues);
    forall i | i in issues
      ensures NetFor(rows, u, i).total in {0, 10}
    {
      NetIsTenOrZero(rows, u, i);
    }
    SumOfPaid(rows, u, issues);
    assert PaidIssues(rows, u) == set i | i in issues && NetFor(rows, u, i).total == 10;
  }

  lemma BalanceConcat(xs: seq<Row>, ys: seq<Row>, u: UserId)
    ensures BalanceFor(xs + ys, u) == BalanceFor(xs, u) + BalanceFor(ys, u)
  {
    FilterConcat(OfUser(u), xs, ys);
    SumConcat(Filter(OfUser(u), xs), Filter(OfUser(u), ys));
  }

  /** Every prefix of a well-formed ledger is well formed. */
  lemma PrefixIsWellFormed(rows: seq<Row>, k: nat)
    requires WellFormed(rows) && k <= |rows|
    ensures WellFormed(rows[..k])
  {
    forall u, i
      ensures PairRows(rows[..k], u, i) == Alternation(u, i, |PairRows(rows[..k], u, i)|)
    {
      FilterConcat(OfPair(u, i), rows[..k], rows[k..]);
      assert rows == rows[..k] + rows[k..];
      assert PairRows(rows, u, i) == Alternation(u, i, |PairRows(rows, u, i)|);
      var n := |PairRows(rows[..k], u, i)|;
      assert PairRows(rows[..k], u, i) == PairRows(rows, u, i)[..n];
    }
  }
}
