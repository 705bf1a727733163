/**
 Any number of award and reversal calls interleaving freely over one ledger.

 A call reads its pair's net, may then insert one row under the unique index, re-reads the
 user's balance and overwrites the cached balance. Each of those is one atomic database
 operation; between any two of them other calls may run, and a call may fail at any point.
 */
module LedgerProtocol {
  import opened Contracts
  import opened Ledger

  /** Where a call stands. A call refused as a duplicate returns like any other. */
  datatype Pc =
    | Called
    | Pending(row: Row)
    | Inserted
    | Recounted(total: int, asOf: nat)
    | Returned
    | Failed

  datatype Writer = Writer(dir: Direction, user: UserId, issue: IssueId, pc: Pc)

  /**
   `asOf` is a history variable beside the cache (and in `Recounted`): how many rows the
   ledger held when the cached balance was read.
   */
  datatype State = State(
    rows: seq<Row>,
    cache: map<UserId, int>,
    asOf: map<UserId, nat>,
    writers: seq<Writer>)

  datatype Event =
    | Call(dir: Direction, user: UserId, issue: IssueId)
    | Step(writer: nat)
    | Fail(writer: nat)

  const START := State([], map[], map[], [])

  function Ended(pc: Pc): bool {
    pc.Returned? || pc.Failed?
  }

  function Goto(s: State, w: nat, pc: Pc): State
    requires w < |s.writers|
  {
    s.(writers := s.writers[w := s.writers[w].(pc := pc)])
  }

  /** The next atomic operation of writer w. */
  function Advance(s: State, w: nat): State
    requires w < |s.writers|
  {
    var wr := s.writers[w];
    match wr.pc
    case Called =>
      (match Wanted(wr.dir, wr.user, wr.issue, NetFor(s.rows, wr.user, wr.issue))
       case None => Goto(s, w, Returned)
       case Some(row) => Goto(s, w, Pending(row)))
    case Pending(row) =>
      if HasKey(s.rows, row) then Goto(s, w, Returned)
      else Goto(s.(rows := s.rows + [row]), w, Inserted)
    case Inserted => Goto(s, w, Recounted(BalanceFor(s.rows, wr.user), |s.rows|))
    case Recounted(total, asOf) =>
      Goto(s.(cache := s.cache[wr.user := total], asOf := s.asOf[wr.user := asOf]), w, Returned)
    case Returned => s
    case Failed => s
  }

  /** Events naming no live writer change nothing, so every event sequence is a run. */
  function Apply(s: State, e: Event): State {
    match e
    case Call(dir, user, issue) => s.(writers := s.writers + [Writer(dir, user, issue, Called)])
    case Step(w) => if w < |s.writers| then Advance(s, w) else s
    case Fail(w) => if w < |s.writers| && !Ended(s.writers[w].pc) then Goto(s, w, Failed) else s
  }

  function Execute(events: seq<Event>): State {
    if events == [] then START
    else Apply(Execute(events[..|events| - 1]), events[|events| - 1])
  }

  // -------------------------------------------------------------- invariant

  /** A pending call holds a row of its own pair whose number the pair has reached or passed. */
  ghost predicate PendingOk(rows: seq<Row>, wr: Writer) {
    wr.pc.Pending? ==>
      var row := wr.pc.row;
      && row == NthRow(wr.user, wr.issue, row.sequence)
      && row.sequence <= NetFor(rows, wr.user, wr.issue).count
      && (wr.dir.Award? <==> row.sequence % 2 == 0)
  }

  ghost predicate RecountOk(rows: seq<Row>, wr: Writer) {
    wr.pc.Recounted? ==> wr.pc.asOf <= |rows| && wr.pc.total == BalanceFor(rows[..wr.pc.asOf], wr.user)
  }

  ghost predicate CacheOk(s: State) {
    && s.cache.Keys == s.asOf.Keys
    && forall u :: u in s.cache ==> s.asOf[u] <= |s.rows| && s.cache[u] == BalanceFor(s.rows[..s.asOf[u]], u)
  }

  ghost predicate Inv(s: State) {
    && WellFormed(s.rows)
    && (forall w :: 0 <= w < |s.writers| ==> PendingOk(s.rows, s.writers[w]) && RecountOk(s.rows, s.writers[w]))
    && CacheOk(s)
  }

  lemma AppendKeepsWriter(rows: seq<Row>, row: Row, wr: Writer)
    requires PendingOk(rows, wr) && RecountOk(rows, wr)
    ensures PendingOk(rows + [row], wr) && RecountOk(rows + [row], wr)
  {
    NetAppend(rows, row, wr.user, wr.issue);
    if wr.pc.Recounted? {
      assert (rows + [row])[..wr.pc.asOf] == rows[..wr.pc.asOf];
    }
  }

  lemma InsertKeeps(s: State, w: nat)
    requires Inv(s) && w < |s.writers| && s.writers[w].pc.Pending?
    ensures Inv(Advance(s, w))
  {
    var wr := s.writers[w];
    var row := wr.pc.row;
    KeyTaken(s.rows, row);
    if !HasKey(s.rows, row) {
      AppendNextKeeps(s.rows, wr.user, wr.issue);
      var t := Advance(s, w);
      forall v | 0 <= v < |t.writers|
        ensures PendingOk(t.rows, t.writers[v]) && RecountOk(t.rows, t.writers[v])
      {
        AppendKeepsWriter(s.rows, row, s.writers[v]);
      }
      forall u | u in t.cache
        ensures t.asOf[u] <= |t.rows| && t.cache[u] == BalanceFor(t.rows[..t.asOf[u]], u)
      {
        assert t.rows[..t.asOf[u]] == s.rows[..s.asOf[u]];
      }
    }
  }

  lemma ApplyKeeps(s: State, e: Event)
    requires Inv(s)
    ensures Inv(Apply(s, e))
  {
    if e.Step? && e.writer < |s.writers| {
      var wr := s.writers[e.writer];
      match wr.pc
      case Called => WantedIsNext(s.rows, wr.dir, wr.user, wr.issue);
      case Pending(_) => InsertKeeps(s, e.writer);
      case Inserted => assert s.rows[..|s.rows|] == s.rows;
      case Recounted(_, _) =>
      case Returned =>
      case Failed =>
    }
  }

  lemma {:induction false} Reachable(events: seq<Event>)
    ensures Inv(Execute(events))
  {
    if events == [] {
      EmptyIsWellFormed();
    } else {
      Reachable(events[..|events| - 1]);
      ApplyKeeps(Execute(events[..|events| - 1]), events[|events| - 1]);
    }
  }

  // ---------------------------------------------------------------- safety

  /**
   Whatever the interleaving and wherever calls fail, each pair's rows are numbered 0, 1, 2, ...
   without gap or repeat and alternate +10, -10, +10, ..., so the pair nets 0 or 10.
   */
  lemma LedgerAlternates(events: seq<Event>, u: UserId, i: IssueId)
    ensures var pair := PairRows(Execute(events).rows, u, i);
            && (forall k :: 0 <= k < |pair| ==> pair[k] == NthRow(u, i, k))
            && NetFor(Execute(events).rows, u, i).total == if |pair| % 2 == 0 then 0 else 10
  {
    Reachable(events);
    var rows := Execute(events).rows;
    assert PairRows(rows, u, i) == Alternation(u, i, |PairRows(rows, u, i)|);
    NetIsTenOrZero(rows, u, i);
  }

  /** A refused insert is harmless: the ledger already holds the very row it carried. */
  lemma LostRaceIsHarmless(events: seq<Event>, w: nat)
    requires w < |Execute(events).writers| && Execute(events).writers[w].pc.Pending?
    requires HasKey(Execute(events).rows, Execute(events).writers[w].pc.row)
    ensures Execute(events).writers[w].pc.row in Execute(events).rows
  {
    Reachable(events);
    var s := Execute(events);
    var row := s.writers[w].pc.row;
    var k :| 0 <= k < |s.rows| && s.rows[k].user == row.user && s.rows[k].issue == row.issue
             && s.rows[k].sequence == row.sequence;
    assert PendingOk(s.rows, s.writers[w]);
    RowIsNth(s.rows, k);
  }

  lemma ExecuteNext(events: seq<Event>, e: Event)
    ensures Execute(events + [e]) == Apply(Execute(events), e)
  {
    assert (events + [e])[..|events|] == events;
  }

  lemma FourSteps(s: State, d: Direction, u: UserId, i: IssueId)
    requires Inv(s)
    ensures var w := |s.writers|;
            var t := Apply(Apply(Apply(Apply(Apply(s, Call(d, u, i)), Step(w)), Step(w)), Step(w)), Step(w));
            && t.rows == Settle(s.rows, d, u, i)
            && t.writers == s.writers + [Writer(d, u, i, Returned)]
            && t.cache == if t.rows == s.rows then s.cache else s.cache[u := BalanceFor(t.rows, u)]
  {
    var w := |s.writers|;
    var net := NetFor(s.rows, u, i);
    var s0 := Apply(s, Call(d, u, i));
    WantedIsNext(s.rows, d, u, i);
    match Wanted(d, u, i, net)
    case None =>
      var done := s.(writers := s.writers + [Writer(d, u, i, Returned)]);
      assert Advance(s0, w) == done && Advance(done, w) == done;
    case Some(row) =>
      KeyTaken(s.rows, row);
      var rows := s.rows + [row];
      assert rows[|s.rows|] == row && rows != s.rows;
      var s1 := s.(writers := s.writers + [Writer(d, u, i, Pending(row))]);
      var s2 := s.(rows := rows, writers := s.writers + [Writer(d, u, i, Inserted)]);
      var s3 := s2.(writers := s.writers + [Writer(d, u, i, Recounted(BalanceFor(rows, u), |rows|))]);
      assert Advance(s0, w) == s1;
      assert Advance(s1, w) == s2;
      assert Advance(s2, w) == s3;
      assert Advance(s3, w).writers == s.writers + [Writer(d, u, i, Returned)];
  }

  /** A call that runs from start to finish without interference is one atomic award or reversal. */
  lemma {:induction false} UndisturbedCallIsAtomic(events: seq<Event>, d: Direction, u: UserId, i: IssueId)
    ensures var s := Execute(events);
            var w := |s.writers|;
            var t := Execute(events + [Call(d, u, i)] + [Step(w)] + [Step(w)] + [Step(w)] + [Step(w)]);
            && t.rows == Settle(s.rows, d, u, i)
            && t.writers == s.writers + [Writer(d, u, i, Returned)]
            && t.cache == if t.rows == s.rows then s.cache else s.cache[u := BalanceFor(t.rows, u)]
  {
    var s := Execute(events);
    var w := |s.writers|;
    var e0 := events + [Call(d, u, i)];
    ExecuteNext(events, Call(d, u, i));
    ExecuteNext(e0, Step(w));
    ExecuteNext(e0 + [Step(w)], Step(w));
    ExecuteNext(e0 + [Step(w)] + [Step(w)], Step(w));
    ExecuteNext(e0 + [Step(w)] + [Step(w)] + [Step(w)], Step(w));
    Reachable(events);
    FourSteps(s, d, u, i);
  }

  // ------------------------------------------------------- how calls end

  /** At some point of the run the call failed while it was in progress. */
  predicate FailedInRun(events: seq<Event>, w: nat) {
    events != [] &&
    var before := Execute(events[..|events| - 1]);
    || (events[|events| - 1] == Fail(w) && w < |before.writers| && !Ended(before.writers[w].pc))
    || FailedInRun(events[..|events| - 1], w)
  }

  /** How many operations of its own the call has been given so far. */
  function OwnSteps(events: seq<Event>, w: nat): nat {
    if events == [] then 0
    else
      var n := |events| - 1;
      OwnSteps(events[..n], w)
      + (if events[n] == Step(w) && w < |Execute(events[..n]).writers| then 1 else 0)
  }

  /** How far along a call is that has not failed. */
  function Stage(pc: Pc): nat {
    match pc
    case Called => 0
    case Pending(_) => 1
    case Inserted => 2
    case Recounted(_, _) => 3
    case Returned => 4
    case Failed => 4
  }

  lemma NextStage(s: State, e: Event, w: nat)
    requires w < |s.writers|
    ensures var t := Apply(s, e);
            && w < |t.writers|
            && (t.writers[w].pc.Failed? <==> s.writers[w].pc.Failed? || (e == Fail(w) && !Ended(s.writers[w].pc)))
            && (e != Step(w) && e != Fail(w) ==> t.writers[w] == s.writers[w])
            && (e == Step(w) ==>
                  Stage(t.writers[w].pc) >= if Ended(s.writers[w].pc) then 4 else Stage(s.writers[w].pc) + 1)
  {
  }

  lemma {:induction false} WritersOnlyJoin(events: seq<Event>, w: nat)
    requires events != [] && w >= |Execute(events[..|events| - 1]).writers| && w < |Execute(events).writers|
    ensures Execute(events).writers[w].pc.Called?
    ensures OwnSteps(events, w) == 0 && !FailedInRun(events, w)
  {
    NoStepsYet(events[..|events| - 1], w);
  }

  lemma {:induction false} NoStepsYet(events: seq<Event>, w: nat)
    requires w >= |Execute(events).writers|
    ensures OwnSteps(events, w) == 0 && !FailedInRun(events, w)
  {
    if events != [] {
      var before := Execute(events[..|events| - 1]);
      if w < |before.writers| {
        NextStage(before, events[|events| - 1], w);
      }
      NoStepsYet(events[..|events| - 1], w);
    }
  }

  /** A call has failed if and only if an operation of its own did: losing a race is not failing. */
  lemma {:induction false} FailedExactly(events: seq<Event>, w: nat)
    requires w < |Execute(events).writers|
    ensures Execute(events).writers[w].pc.Failed? <==> FailedInRun(events, w)
  {
    var n := |events| - 1;
    if w < |Execute(events[..n]).writers| {
      FailedExactly(events[..n], w);
      NextStage(Execute(events[..n]), events[n], w);
    } else {
      WritersOnlyJoin(events, w);
    }
  }

  /** Every operation of its own brings a call further, until it has ended. */
  lemma {:induction false} StepsAdvance(events: seq<Event>, w: nat)
    requires w < |Execute(events).writers|
    ensures Stage(Execute(events).writers[w].pc) >= if OwnSteps(events, w) < 4 then OwnSteps(events, w) else 4
  {
    var n := |events| - 1;
    if w < |Execute(events[..n]).writers| {
      StepsAdvance(events[..n], w);
      NextStage(Execute(events[..n]), events[n], w);
    } else {
      WritersOnlyJoin(events, w);
    }
  }

  /** Whatever interleaves, a call none of whose operations fails has returned after four of them. */
  lemma FourStepsReturn(events: seq<Event>, w: nat)
    requires w < |Execute(events).writers| && OwnSteps(events, w) >= 4 && !FailedInRun(events, w)
    ensures Execute(events).writers[w].pc.Returned?
  {
    StepsAdvance(events, w);
    FailedExactly(events, w);
  }

  /**
   What the insert does, in any run: if the pair still has the count the call read, exactly its row
   is added; otherwise the call returns at once and the ledger, the cache and every other call stay
   as they are.
   */
  lemma InsertOutcome(events: seq<Event>, w: nat)
    requires w < |Execute(events).writers| && Execute(events).writers[w].pc.Pending?
    ensures var s, t := Execute(events), Execute(events + [Step(w)]);
            var row := s.writers[w].pc.row;
            && |t.writers| == |s.writers|
            && (forall v :: 0 <= v < |s.writers| && v != w ==> t.writers[v] == s.writers[v])
            && t.cache == s.cache
            && if row.sequence == NetFor(s.rows, s.writers[w].user, s.writers[w].issue).count
               then t.rows == s.rows + [row] && t.writers[w].pc.Inserted?
               else t.rows == s.rows && t.writers[w].pc.Returned?
  {
    var s := Execute(events);
    Reachable(events);
    assert PendingOk(s.rows, s.writers[w]);
    KeyTaken(s.rows, s.writers[w].pc.row);
    ExecuteNext(events, Step(w));
  }
}
