/** How the cached balance relates to the ledger under interleaving. */
module CacheCoherence {
  import opened Contracts
  import opened Sequences
  import opened Ledger
  import opened LedgerProtocol

  function Cached(s: State, u: UserId): int {
    if u in s.cache then s.cache[u] else 0
  }

  function AsOf(s: State, u: UserId): nat {
    if u in s.asOf then s.asOf[u] else 0
  }

  /**
   At every reachable ledger and every prefix of it, a balance is the sum of the user's nets issue
   by issue and ten times the number of issues the user is then paid for.
   */
  lemma BalanceIsWholeAwards(events: seq<Event>, k: nat, u: UserId, issues: set<IssueId>)
    requires k <= |Execute(events).rows|
    requires forall r :: r in Execute(events).rows ==> r.issue in issues
    ensures var rows := Execute(events).rows[..k];
            BalanceFor(rows, u) == SumOfNets(rows, u, issues) == 10 * |PaidIssues(rows, u)|
  {
    Reachable(events);
    PrefixIsWellFormed(Execute(events).rows, k);
    BalanceCountsPaidIssues(Execute(events).rows[..k], u);
    BalanceRegroups(Execute(events).rows[..k], u, issues);
  }

  /** What the ledger gained since the cached balance was read. */
  function Later(s: State, u: UserId): seq<Row> {
    if AsOf(s, u) <= |s.rows| then s.rows[AsOf(s, u)..] else []
  }

  /**
   The cached balance is the user's balance over the prefix of the ledger it was read from:
   zero or more whole awards.
   */
  lemma CacheIsAPrefixBalance(events: seq<Event>, u: UserId)
    ensures var s := Execute(events);
            && AsOf(s, u) <= |s.rows|
            && Cached(s, u) == BalanceFor(s.rows[..AsOf(s, u)], u)
            && Cached(s, u) == 10 * |PaidIssues(s.rows[..AsOf(s, u)], u)|
  {
    Reachable(events);
    var s := Execute(events);
    var k := AsOf(s, u);
    assert u !in s.cache ==> s.rows[..k] == [] && BalanceFor([], u) == 0;
    PrefixIsWellFormed(s.rows, k);
    BalanceCountsPaidIssues(s.rows[..k], u);
  }

  function IsAward(): Row -> bool {
    (r: Row) => r.amount > 0
  }

  function IsReversal(): Row -> bool {
    (r: Row) => r.amount <= 0
  }

  function Awards(rows: seq<Row>, u: UserId): nat {
    |Filter(IsAward(), Filter(OfUser(u), rows))|
  }

  function Reversals(rows: seq<Row>, u: UserId): nat {
    |Filter(IsReversal(), Filter(OfUser(u), rows))|
  }

  lemma RowsAreTens(rows: seq<Row>, r: Row)
    requires WellFormed(rows) && r in rows
    ensures r.amount == 10 || r.amount == -10
  {
    var j :| 0 <= j < |rows| && rows[j] == r;
    RowIsNth(rows, j);
  }

  lemma {:induction false} SumCounts(rows: seq<Row>)
    requires forall r :: r in rows ==> r.amount == 10 || r.amount == -10
    ensures Sum(rows) == 10 * |Filter(IsAward(), rows)| - 10 * |Filter(IsReversal(), rows)|
    ensures |Filter(IsAward(), rows)| + |Filter(IsReversal(), rows)| == |rows|
  {
    if rows != [] {
      SumCounts(rows[..|rows| - 1]);
    }
  }

  /** Any stretch of a well-formed ledger moves a balance by ten per award less ten per reversal in it. */
  lemma TailCounts(rows: seq<Row>, k: nat, u: UserId)
    requires WellFormed(rows) && k <= |rows|
    ensures BalanceFor(rows[k..], u) == 10 * Awards(rows[k..], u) - 10 * Reversals(rows[k..], u)
    ensures Awards(rows[k..], u) + Reversals(rows[k..], u) == |Filter(OfUser(u), rows[k..])|
  {
    var own := Filter(OfUser(u), rows[k..]);
    forall r | r in own
      ensures r.amount == 10 || r.amount == -10
    {
      FilterMember(OfUser(u), rows[k..], r);
      RowsAreTens(rows, r);
    }
    SumCounts(own);
  }

  /**
   The cache misses exactly the user's awards and reversals inserted since it was read, so it is off
   by at most ten points for each, and right if and only if as many awards as reversals came since.
   */
  lemma {:induction false} CacheTrailsLedger(events: seq<Event>, u: UserId)
    ensures var s := Execute(events);
            var off := BalanceFor(s.rows, u) - Cached(s, u);
            var later := Later(s, u);
            && off == 10 * Awards(later, u) - 10 * Reversals(later, u)
            && -10 * |Filter(OfUser(u), later)| <= off <= 10 * |Filter(OfUser(u), later)|
            && (Cached(s, u) == BalanceFor(s.rows, u) <==> Awards(later, u) == Reversals(later, u))
  {
    CacheIsAPrefixBalance(events, u);
    Reachable(events);
    var s := Execute(events);
    assert s.rows == s.rows[..AsOf(s, u)] + Later(s, u);
    BalanceConcat(s.rows[..AsOf(s, u)], Later(s, u), u);
    TailCounts(s.rows, AsOf(s, u), u);
  }

  /** Inserted a row the cache does not yet reflect. */
  predicate Refreshing(pc: Pc) {
    pc.Inserted? || pc.Recounted?
  }

  /** Whatever a call of u is about to write into the cache is the balance of the ledger as it stands. */
  ghost predicate WritesCurrent(s: State, u: UserId) {
    forall w :: 0 <= w < |s.writers| && s.writers[w].user == u && s.writers[w].pc.Recounted? ==>
      s.writers[w].pc.total == BalanceFor(s.rows, u)
  }

  /** With no refresh of u's balance under way, the cache is right. */
  ghost predicate RightWhenIdle(s: State, u: UserId) {
    (forall w :: 0 <= w < |s.writers| && s.writers[w].user == u ==> !Refreshing(s.writers[w].pc)) ==>
      Cached(s, u) == BalanceFor(s.rows, u)
  }

  /** The event puts a new row into the ledger. */
  predicate Inserts(s: State, e: Event) {
    && e.Step? && e.writer < |s.writers|
    && s.writers[e.writer].pc.Pending? && !HasKey(s.rows, s.writers[e.writer].pc.row)
  }

  /** A call of u inserts its row while another call of u stands between its balance read and its cache write. */
  predicate InsertsUnderRecount(s: State, e: Event, u: UserId) {
    && Inserts(s, e) && s.writers[e.writer].user == u
    && exists v :: 0 <= v < |s.writers| && s.writers[v].user == u && s.writers[v].pc.Recounted?
  }

  /** A call of u fails after its insert and before its cache write. */
  predicate FailsRefreshing(s: State, e: Event, u: UserId) {
    e.Fail? && e.writer < |s.writers| && s.writers[e.writer].user == u && Refreshing(s.writers[e.writer].pc)
  }

  /** An insert moves the balance of its own user, and of nobody else. */
  lemma InsertMoves(s: State, w: nat, u: UserId)
    requires Inv(s) && w < |s.writers| && s.writers[w].pc.Pending?
    ensures BalanceFor(s.rows + [s.writers[w].pc.row], u) != BalanceFor(s.rows, u) <==> s.writers[w].user == u
  {
    assert PendingOk(s.rows, s.writers[w]);
    BalanceAppend(s.rows, s.writers[w].pc.row, u);
  }

  lemma InsertUnderRecountIsStale(s: State, e: Event, u: UserId)
    requires Inv(s) && WritesCurrent(s, u) && InsertsUnderRecount(s, e, u)
    ensures !WritesCurrent(Apply(s, e), u)
  {
    var t := Apply(s, e);
    InsertMoves(s, e.writer, u);
    var v :| 0 <= v < |s.writers| && s.writers[v].user == u && s.writers[v].pc.Recounted?;
    assert v != e.writer && t.writers[v] == s.writers[v];
    assert t.rows == s.rows + [s.writers[e.writer].pc.row];
  }

  lemma InsertStaysCurrent(s: State, e: Event, u: UserId)
    requires Inv(s) && WritesCurrent(s, u) && Inserts(s, e) && !InsertsUnderRecount(s, e, u)
    ensures WritesCurrent(Apply(s, e), u)
  {
    var t := Apply(s, e);
    InsertMoves(s, e.writer, u);
    forall v | 0 <= v < |t.writers| && t.writers[v].user == u && t.writers[v].pc.Recounted?
      ensures t.writers[v].pc.total == BalanceFor(t.rows, u)
    {
      assert v != e.writer && t.writers[v] == s.writers[v];
      assert s.writers[e.writer].user != u;
    }
  }

  lemma QuietStaysCurrent(s: State, e: Event, u: UserId)
    requires WritesCurrent(s, u) && Apply(s, e).rows == s.rows
    ensures WritesCurrent(Apply(s, e), u)
  {
    var t := Apply(s, e);
    forall v | 0 <= v < |t.writers| && t.writers[v].user == u && t.writers[v].pc.Recounted?
      ensures t.writers[v].pc.total == BalanceFor(t.rows, u)
    {
      assert v < |s.writers| && s.writers[v].user == u;
      assert s.writers[v].pc.Recounted? ==> t.writers[v] == s.writers[v];
    }
  }

  /** One event keeps every pending cache write current unless it inserts under a recount, and then it does not. */
  lemma StaysCurrent(s: State, e: Event, u: UserId)
    requires Inv(s) && WritesCurrent(s, u)
    ensures WritesCurrent(Apply(s, e), u) <==> !InsertsUnderRecount(s, e, u)
  {
    if InsertsUnderRecount(s, e, u) {
      InsertUnderRecountIsStale(s, e, u);
    } else if Inserts(s, e) {
      InsertStaysCurrent(s, e, u);
    } else {
      QuietStaysCurrent(s, e, u);
    }
  }

  lemma OwnStepSettles(s: State, w: nat)
    requires w < |s.writers| && WritesCurrent(s, s.writers[w].user) && RightWhenIdle(s, s.writers[w].user)
    ensures RightWhenIdle(Advance(s, w), s.writers[w].user)
  {
    var u, t := s.writers[w].user, Advance(s, w);
    assert t.writers[w].user == u;
    assert forall v :: 0 <= v < |s.writers| && v != w ==> t.writers[v] == s.writers[v];
  }

  lemma OtherStepSettles(s: State, w: nat, u: UserId)
    requires Inv(s) && w < |s.writers| && s.writers[w].user != u && RightWhenIdle(s, u)
    ensures RightWhenIdle(Advance(s, w), u)
  {
    var t := Advance(s, w);
    assert t.writers[w].user != u;
    assert forall v :: 0 <= v < |s.writers| && v != w ==> t.writers[v] == s.writers[v];
    if s.writers[w].pc.Pending? {
      InsertMoves(s, w, u);
    }
  }

  lemma OutsideEventSettles(s: State, e: Event, u: UserId)
    requires RightWhenIdle(s, u) && !e.Step? && !FailsRefreshing(s, e, u)
    ensures RightWhenIdle(Apply(s, e), u)
  {
    var t := Apply(s, e);
    assert t.rows == s.rows && t.cache == s.cache;
    assert forall v :: 0 <= v < |s.writers| && !(e.Fail? && e.writer == v) ==> t.writers[v] == s.writers[v];
  }

  lemma StepSettles(s: State, e: Event, u: UserId)
    requires Inv(s) && WritesCurrent(s, u) && RightWhenIdle(s, u) && !FailsRefreshing(s, e, u)
    ensures RightWhenIdle(Apply(s, e), u)
  {
    match e
    case Call(_, _, _) => OutsideEventSettles(s, e, u);
    case Fail(_) => OutsideEventSettles(s, e, u);
    case Step(w) =>
      if w < |s.writers| {
        if s.writers[w].user != u {
          OtherStepSettles(s, w, u);
        } else {
          OwnStepSettles(s, w);
        }
      }
  }

  ghost predicate WritesCurrentThroughout(events: seq<Event>, u: UserId) {
    WritesCurrent(Execute(events), u) && (events == [] || WritesCurrentThroughout(events[..|events| - 1], u))
  }

  predicate NoInsertUnderRecount(events: seq<Event>, u: UserId) {
    events == [] ||
    (&& !InsertsUnderRecount(Execute(events[..|events| - 1]), events[|events| - 1], u)
     && NoInsertUnderRecount(events[..|events| - 1], u))
  }

  predicate NoFailureRefreshing(events: seq<Event>, u: UserId) {
    events == [] ||
    (&& !FailsRefreshing(Execute(events[..|events| - 1]), events[|events| - 1], u)
     && NoFailureRefreshing(events[..|events| - 1], u))
  }

  /**
   Throughout a run every call about to write the cache holds the current balance, if and only if
   no call of the user inserted while another stood between its balance read and its cache write.
   */
  lemma {:induction false} WritesCurrentExactly(events: seq<Event>, u: UserId)
    ensures WritesCurrentThroughout(events, u) <==> NoInsertUnderRecount(events, u)
  {
    if events != [] {
      var n := |events| - 1;
      WritesCurrentExactly(events[..n], u);
      if WritesCurrentThroughout(events[..n], u) {
        Reachable(events[..n]);
        StaysCurrent(Execute(events[..n]), events[n], u);
      }
    }
  }

  /**
   However a user's calls overlap: if none inserts while another stands between its balance read
   and its cache write, and none fails between its insert and its cache write, the cache equals the
   balance whenever no refresh is under way.
   */
  lemma {:induction false} CacheExactWhenUndisturbed(events: seq<Event>, u: UserId)
    requires NoInsertUnderRecount(events, u) && NoFailureRefreshing(events, u)
    ensures RightWhenIdle(Execute(events), u)
  {
    if events != [] {
      var n := |events| - 1;
      CacheExactWhenUndisturbed(events[..n], u);
      WritesCurrentExactly(events[..n], u);
      Reachable(events[..n]);
      StepSettles(Execute(events[..n]), events[n], u);
    }
  }

  /** At most one call of the user is in progress. */
  predicate OneInProgress(s: State, u: UserId) {
    forall a, b :: 0 <= a < b < |s.writers| && s.writers[a].user == u && s.writers[b].user == u ==>
      Ended(s.writers[a].pc) || Ended(s.writers[b].pc)
  }

  predicate OneAtATime(events: seq<Event>, u: UserId) {
    OneInProgress(Execute(events), u) && (events == [] || OneAtATime(events[..|events| - 1], u))
  }

  lemma {:induction false} OneAtATimeIsUndisturbed(events: seq<Event>, u: UserId)
    requires OneAtATime(events, u)
    ensures NoInsertUnderRecount(events, u)
  {
    if events != [] {
      var n := |events| - 1;
      OneAtATimeIsUndisturbed(events[..n], u);
      assert OneInProgress(Execute(events[..n]), u);
    }
  }

  /** When a user's calls do not overlap, the cache equals the balance whenever none is in progress. */
  lemma CacheExactWithoutOverlap(events: seq<Event>, u: UserId)
    requires OneAtATime(events, u) && NoFailureRefreshing(events, u)
    ensures var s := Execute(events);
            (forall w :: 0 <= w < |s.writers| && s.writers[w].user == u ==> Ended(s.writers[w].pc)) ==>
              Cached(s, u) == BalanceFor(s.rows, u)
  {
    OneAtATimeIsUndisturbed(events, u);
    CacheExactWhenUndisturbed(events, u);
  }

  /**
   Two awards to one user for different issues. The first reads the balance before the second
   inserts, and writes the cache after the second has.
   */
  const STALE: seq<Event> := [
    Call(Award, 0, 0), Call(Award, 0, 1),
    Step(0), Step(0), Step(0),
    Step(1), Step(1), Step(1), Step(1),
    Step(0)]

  const FIRST: Row := Row(0, 0, 10, RESOLUTION_VERIFIED, 0)
  const SECOND: Row := Row(0, 1, 10, RESOLUTION_VERIFIED, 0)

  function Two(rows: seq<Row>, a: Pc, b: Pc): State {
    State(rows, map[], map[], [Writer(Award, 0, 0, a), Writer(Award, 0, 1, b)])
  }

  lemma RunStep(events: seq<Event>, n: nat, s: State, e: Event, t: State)
    requires n < |events| && events[n] == e && Execute(events[..n]) == s && Apply(s, e) == t
    ensures Execute(events[..n + 1]) == t
  {
    assert events[..n + 1][..n] == events[..n];
  }

  lemma StaleBalances()
    ensures NetFor([], 0, 0) == Net(0, 0) && NetFor([FIRST], 0, 1) == Net(0, 0)
    ensures BalanceFor([FIRST], 0) == 10 && BalanceFor([FIRST, SECOND], 0) == 20
    ensures !HasKey([], FIRST) && !HasKey([FIRST], SECOND)
  {
    assert [] + [FIRST] == [FIRST];
    assert [FIRST] + [SECOND] == [FIRST, SECOND];
    NetAppend([], FIRST, 0, 1);
    BalanceAppend([], FIRST, 0);
    BalanceAppend([FIRST], SECOND, 0);
  }

  /** A call reads its pair and is about to insert. */
  lemma Reads(s: State, w: nat, row: Row)
    requires w < |s.writers| && s.writers[w].pc.Called?
    requires Wanted(s.writers[w].dir, s.writers[w].user, s.writers[w].issue,
                    NetFor(s.rows, s.writers[w].user, s.writers[w].issue)) == Some(row)
    ensures Apply(s, Step(w)) == Goto(s, w, Pending(row))
  {
  }

  lemma StaleCalls()
    ensures Execute(STALE[..2]) == Two([], Called, Called)
  {
    RunStep(STALE, 0, START, Call(Award, 0, 0), START.(writers := [Writer(Award, 0, 0, Called)]));
    RunStep(STALE, 1, START.(writers := [Writer(Award, 0, 0, Called)]), Call(Award, 0, 1), Two([], Called, Called));
  }

  lemma StaleFirstInserts()
    ensures Execute(STALE[..4]) == Two([FIRST], Inserted, Called)
  {
    StaleBalances();
    StaleCalls();
    Reads(Two([], Called, Called), 0, FIRST);
    RunStep(STALE, 2, Two([], Called, Called), Step(0), Two([], Pending(FIRST), Called));
    assert [] + [FIRST] == [FIRST];
    RunStep(STALE, 3, Two([], Pending(FIRST), Called), Step(0), Two([FIRST], Inserted, Called));
  }

  lemma StaleFirstReads()
    ensures Execute(STALE[..5]) == Two([FIRST], Recounted(10, 1), Called)
  {
    StaleBalances();
    StaleFirstInserts();
    RunStep(STALE, 4, Two([FIRST], Inserted, Called), Step(0), Two([FIRST], Recounted(10, 1), Called));
  }

  lemma StaleSecondInserts()
    ensures Execute(STALE[..7]) == Two([FIRST, SECOND], Recounted(10, 1), Inserted)
  {
    StaleBalances();
    StaleFirstReads();
    Reads(Two([FIRST], Recounted(10, 1), Called), 1, SECOND);
    RunStep(STALE, 5, Two([FIRST], Recounted(10, 1), Called), Step(1), Two([FIRST], Recounted(10, 1), Pending(SECOND)));
    assert [FIRST] + [SECOND] == [FIRST, SECOND];
    RunStep(STALE, 6, Two([FIRST], Recounted(10, 1), Pending(SECOND)), Step(1),
              Two([FIRST, SECOND], Recounted(10, 1), Inserted));
  }

  lemma StaleSecondReads()
    ensures Execute(STALE[..8]) == Two([FIRST, SECOND], Recounted(10, 1), Recounted(20, 2))
  {
    StaleBalances();
    StaleSecondInserts();
    RunStep(STALE, 7, Two([FIRST, SECOND], Recounted(10, 1), Inserted), Step(1),
              Two([FIRST, SECOND], Recounted(10, 1), Recounted(20, 2)));
  }

  /**
   The cache need not settle: every call has returned and nothing is in flight, yet the cached
   balance is 10 while the ledger says 20.
   */
  lemma CacheCanStayStale()
    ensures var s := Execute(STALE);
            && (forall w :: 0 <= w < |s.writers| ==> s.writers[w].pc.Returned?)
            && BalanceFor(s.rows, 0) == 20 && Cached(s, 0) == 10
  {
    StaleSecondReads();
    StaleBalances();
    var s := Two([FIRST, SECOND], Recounted(10, 1), Recounted(20, 2));
    RunStep(STALE, 8, s, Step(1), Apply(s, Step(1)));
    RunStep(STALE, 9, Apply(s, Step(1)), Step(0), Apply(Apply(s, Step(1)), Step(0)));
    assert STALE[..10] == STALE;
  }

  /**
   One call awards and caches the balance; a reversal and a second award then insert their rows
   and fail before writing the cache.
   */
  const EVEN: seq<Event> := [
    Call(Award, 0, 0), Step(0), Step(0), Step(0), Step(0),
    Call(Reverse, 0, 0), Step(1), Step(1), Fail(1),
    Call(Award, 0, 0), Step(2), Step(2), Fail(2)]

  const UNDO: Row := Row(0, 0, -10, VERIFICATION_REVERSED, 1)
  const AGAIN: Row := Row(0, 0, 10, RESOLUTION_VERIFIED, 2)

  const PAID: Writer := Writer(Award, 0, 0, Returned)
  const UNDONE: Writer := Writer(Reverse, 0, 0, Failed)

  /** Once the first call has returned, the cache says 10, read when the ledger held one row. */
  function CachedTen(rows: seq<Row>, writers: seq<Writer>): State {
    State(rows, map[0 := 10], map[0 := 1], writers)
  }

  lemma EvenNets()
    ensures NetFor([], 0, 0) == Net(0, 0) && NetFor([FIRST], 0, 0) == Net(10, 1)
    ensures NetFor([FIRST, UNDO], 0, 0) == Net(0, 2)
    ensures BalanceFor([FIRST], 0) == 10 && BalanceFor([FIRST, UNDO, AGAIN], 0) == 10
    ensures !HasKey([], FIRST) && !HasKey([FIRST], UNDO) && !HasKey([FIRST, UNDO], AGAIN)
  {
    assert [] + [FIRST] == [FIRST];
    assert [FIRST] + [UNDO] == [FIRST, UNDO];
    assert [FIRST, UNDO] + [AGAIN] == [FIRST, UNDO, AGAIN];
    NetAppend([], FIRST, 0, 0);
    NetAppend([FIRST], UNDO, 0, 0);
    BalanceAppend([], FIRST, 0);
    BalanceAppend([FIRST], UNDO, 0);
    BalanceAppend([FIRST, UNDO], AGAIN, 0);
  }

  lemma EvenInserts()
    ensures Execute(EVEN[..3]) == State([FIRST], map[], map[], [Writer(Award, 0, 0, Inserted)])
  {
    EvenNets();
    var s1 := START.(writers := [Writer(Award, 0, 0, Called)]);
    var s2 := START.(writers := [Writer(Award, 0, 0, Pending(FIRST))]);
    RunStep(EVEN, 0, START, Call(Award, 0, 0), s1);
    Reads(s1, 0, FIRST);
    RunStep(EVEN, 1, s1, Step(0), s2);
    assert [] + [FIRST] == [FIRST];
    RunStep(EVEN, 2, s2, Step(0), State([FIRST], map[], map[], [Writer(Award, 0, 0, Inserted)]));
  }

  lemma EvenRecounts()
    ensures Execute(EVEN[..4]) == State([FIRST], map[], map[], [Writer(Award, 0, 0, Recounted(10, 1))])
  {
    EvenInserts();
    assert BalanceFor([FIRST], 0) == 10 by {
      EvenNets();
    }
    RunStep(EVEN, 3, State([FIRST], map[], map[], [Writer(Award, 0, 0, Inserted)]), Step(0),
            State([FIRST], map[], map[], [Writer(Award, 0, 0, Recounted(10, 1))]));
  }

  lemma EvenAwards()
    ensures Execute(EVEN[..5]) == CachedTen([FIRST], [PAID])
  {
    EvenRecounts();
    RunStep(EVEN, 4, State([FIRST], map[], map[], [Writer(Award, 0, 0, Recounted(10, 1))]), Step(0),
            CachedTen([FIRST], [PAID]));
  }

  lemma EvenReverseArrives()
    ensures Execute(EVEN[..6]) == CachedTen([FIRST], [PAID, Writer(Reverse, 0, 0, Called)])
  {
    EvenAwards();
    assert [PAID] + [Writer(Reverse, 0, 0, Called)] == [PAID, Writer(Reverse, 0, 0, Called)];
    RunStep(EVEN, 5, CachedTen([FIRST], [PAID]), Call(Reverse, 0, 0),
            CachedTen([FIRST], [PAID, Writer(Reverse, 0, 0, Called)]));
  }

  lemma EvenReverseReads()
    ensures Execute(EVEN[..7]) == CachedTen([FIRST], [PAID, Writer(Reverse, 0, 0, Pending(UNDO))])
  {
    EvenReverseArrives();
    var s := CachedTen([FIRST], [PAID, Writer(Reverse, 0, 0, Called)]);
    assert NetFor([FIRST], 0, 0) == Net(10, 1) by {
      EvenNets();
    }
    Reads(s, 1, UNDO);
    RunStep(EVEN, 6, s, Step(1), CachedTen([FIRST], [PAID, Writer(Reverse, 0, 0, Pending(UNDO))]));
  }

  lemma EvenReverseInserts()
    ensures Execute(EVEN[..8]) == CachedTen([FIRST, UNDO], [PAID, Writer(Reverse, 0, 0, Inserted)])
  {
    EvenReverseReads();
    assert !HasKey([FIRST], UNDO) && [FIRST] + [UNDO] == [FIRST, UNDO];
    RunStep(EVEN, 7, CachedTen([FIRST], [PAID, Writer(Reverse, 0, 0, Pending(UNDO))]), Step(1),
            CachedTen([FIRST, UNDO], [PAID, Writer(Reverse, 0, 0, Inserted)]));
  }

  lemma EvenReverses()
    ensures Execute(EVEN[..9]) == CachedTen([FIRST, UNDO], [PAID, UNDONE])
  {
    EvenReverseInserts();
    RunStep(EVEN, 8, CachedTen([FIRST, UNDO], [PAID, Writer(Reverse, 0, 0, Inserted)]), Fail(1),
            CachedTen([FIRST, UNDO], [PAID, UNDONE]));
  }

  lemma EvenCallsAgain()
    ensures Execute(EVEN[..11])
         == CachedTen([FIRST, UNDO], [PAID, UNDONE, Writer(Award, 0, 0, Pending(AGAIN))])
  {
    EvenNets();
    EvenReverses();
    var s1 := CachedTen([FIRST, UNDO], [PAID, UNDONE, Writer(Award, 0, 0, Called)]);
    RunStep(EVEN, 9, CachedTen([FIRST, UNDO], [PAID, UNDONE]), Call(Award, 0, 0), s1);
    Reads(s1, 2, AGAIN);
    RunStep(EVEN, 10, s1, Step(2), CachedTen([FIRST, UNDO], [PAID, UNDONE, Writer(Award, 0, 0, Pending(AGAIN))]));
  }

  /**
   The cache can be right although its read came before the last insert: the read saw one row of
   three, and the two rows since cancel out.
   */
  lemma CacheRightByCancelling()
    ensures var s := Execute(EVEN);
            AsOf(s, 0) == 1 && |s.rows| == 3 && Cached(s, 0) == BalanceFor(s.rows, 0) == 10
  {
    EvenNets();
    EvenCallsAgain();
    var s2 := CachedTen([FIRST, UNDO], [PAID, UNDONE, Writer(Award, 0, 0, Pending(AGAIN))]);
    var s3 := CachedTen([FIRST, UNDO, AGAIN], [PAID, UNDONE, Writer(Award, 0, 0, Inserted)]);
    assert [FIRST, UNDO] + [AGAIN] == [FIRST, UNDO, AGAIN];
    RunStep(EVEN, 11, s2, Step(2), s3);
    RunStep(EVEN, 12, s3, Fail(2), Goto(s3, 2, Failed));
    assert EVEN[..13] == EVEN;
  }
}
