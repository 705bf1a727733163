/** Every interleaved run of the ledger protocol is equivalent to a serial one. */
module Linearizability {
  import opened Contracts
  import opened Ledger
  import opened LedgerProtocol

  /** Writer `writer`'s call takes effect, all at once, at event number `at`. */
  datatype Point = Point(writer: nat, dir: Direction, user: UserId, issue: IssueId, at: nat)

  function PointOf(s: State, w: nat, at: nat): Point
    requires w < |s.writers|
  {
    var wr := s.writers[w];
    Point(w, wr.dir, wr.user, wr.issue, at)
  }

  /** Among the first `m` writers other than `winner`, those about to insert the same row. */
  function Losers(s: State, winner: nat, row: Row, m: nat, at: nat): seq<Point>
    requires m <= |s.writers|
  {
    if m == 0 then []
    else
      Losers(s, winner, row, m - 1, at)
      + (if m - 1 != winner && s.writers[m - 1].pc == Pending(row) then [PointOf(s, m - 1, at)] else [])
  }

  /** The calls that take effect at event `e`: a call with nothing to write, or a winner and its losers. */
  function PointsAt(s: State, e: Event, at: nat): seq<Point> {
    if !e.Step? || e.writer >= |s.writers| then []
    else
      var wr := s.writers[e.writer];
      match wr.pc
      case Called =>
        if Wanted(wr.dir, wr.user, wr.issue, NetFor(s.rows, wr.user, wr.issue)).None?
        then [PointOf(s, e.writer, at)] else []
      case Pending(row) =>
        if HasKey(s.rows, row) then []
        else [PointOf(s, e.writer, at)] + Losers(s, e.writer, row, |s.writers|, at)
      case Inserted => []
      case Recounted(_, _) => []
      case Returned => []
      case Failed => []
  }

  /** One serial order of the calls of a run. */
  function Linearization(events: seq<Event>): seq<Point> {
    if events == [] then []
    else
      var n := |events| - 1;
      Linearization(events[..n]) + PointsAt(Execute(events[..n]), events[n], n)
  }

  /** The ledger after performing the calls one after another, each atomically. */
  function Serial(points: seq<Point>): seq<Row> {
    if points == [] then []
    else
      var p := points[|points| - 1];
      Settle(Serial(points[..|points| - 1]), p.dir, p.user, p.issue)
  }

  ghost predicate IsLoser(s: State, winner: nat, row: Row, at: nat, p: Point) {
    && p.writer < |s.writers| && p.writer != winner
    && s.writers[p.writer].pc == Pending(row)
    && p == PointOf(s, p.writer, at)
  }

  lemma {:induction false} LosersShape(s: State, winner: nat, row: Row, m: nat, at: nat)
    requires m <= |s.writers|
    ensures forall p :: p in Losers(s, winner, row, m, at) ==> IsLoser(s, winner, row, at, p) && p.writer < m
    ensures forall j, k :: 0 <= j < k < |Losers(s, winner, row, m, at)| ==>
              Losers(s, winner, row, m, at)[j].writer < Losers(s, winner, row, m, at)[k].writer
  {
    if m > 0 {
      var fewer := Losers(s, winner, row, m - 1, at);
      LosersShape(s, winner, row, m - 1, at);
      var last := PointOf(s, m - 1, at);
      var losers := Losers(s, winner, row, m, at);
      if losers != fewer {
        assert losers == fewer + [last] && IsLoser(s, winner, row, at, last);
        forall j, k | 0 <= j < k < |losers|
          ensures losers[j].writer < losers[k].writer
        {
          assert losers[j] in fewer;
        }
      }
    }
  }

  lemma {:induction false} LosersComplete(s: State, winner: nat, row: Row, m: nat, at: nat, w: nat)
    requires w < m <= |s.writers| && w != winner && s.writers[w].pc == Pending(row)
    ensures PointOf(s, w, at) in Losers(s, winner, row, m, at)
  {
    if w < m - 1 {
      LosersComplete(s, winner, row, m - 1, at, w);
    }
  }

  /** Once a pair's next row is in, a call that wanted to insert that same row wants nothing. */
  lemma LoserIsNoOp(rows: seq<Row>, wr: Writer)
    requires WellFormed(rows) && wr.pc.Pending? && PendingOk(rows, wr)
    requires wr.pc.row.sequence == NetFor(rows, wr.user, wr.issue).count
    ensures Settle(rows + [wr.pc.row], wr.dir, wr.user, wr.issue) == rows + [wr.pc.row]
  {
    AppendNextKeeps(rows, wr.user, wr.issue);
    NetAppend(rows, wr.pc.row, wr.user, wr.issue);
    WantedIsNext(rows + [wr.pc.row], wr.dir, wr.user, wr.issue);
  }

  lemma SerialAppend(done: seq<Point>, p: Point)
    ensures Serial(done + [p]) == Settle(Serial(done), p.dir, p.user, p.issue)
  {
    assert (done + [p])[..|done|] == done;
  }

  ghost predicate NoOp(rows: seq<Row>, p: Point) {
    Settle(rows, p.dir, p.user, p.issue) == rows
  }

  lemma {:induction false} SerialNoOps(done: seq<Point>, more: seq<Point>)
    requires forall p :: p in more ==> NoOp(Serial(done), p)
    ensures Serial(done + more) == Serial(done)
  {
    if more == [] {
      assert done + more == done;
    } else {
      var n := |more| - 1;
      var before, last := done + more[..n], more[n];
      assert last in more && NoOp(Serial(done), last);
      assert Serial(before) == Serial(done) by {
        SerialNoOps(done, more[..n]);
      }
      assert done + more == before + [last];
      SerialAppend(before, last);
    }
  }

  /** A call whose pair is still at the count it read inserts its row when run on its own. */
  lemma WinnerInserts(rows: seq<Row>, wr: Writer)
    requires WellFormed(rows) && wr.pc.Pending? && PendingOk(rows, wr)
    requires wr.pc.row.sequence == NetFor(rows, wr.user, wr.issue).count
    ensures Settle(rows, wr.dir, wr.user, wr.issue) == rows + [wr.pc.row]
  {
    WantedIsNext(rows, wr.dir, wr.user, wr.issue);
  }

  lemma LosersAreNoOps(s: State, w: nat, at: nat, p: Point)
    requires Inv(s) && w < |s.writers| && s.writers[w].pc.Pending?
    requires s.writers[w].pc.row.sequence == NetFor(s.rows, s.writers[w].user, s.writers[w].issue).count
    requires IsLoser(s, w, s.writers[w].pc.row, at, p)
    ensures NoOp(s.rows + [s.writers[w].pc.row], p)
  {
    var loser := s.writers[p.writer];
    assert PendingOk(s.rows, s.writers[w]) && PendingOk(s.rows, loser);
    LoserIsNoOp(s.rows, loser);
  }

  lemma SerialLosers(done: seq<Point>, s: State, w: nat, at: nat)
    requires Inv(s) && w < |s.writers| && s.writers[w].pc.Pending?
    requires s.writers[w].pc.row.sequence == NetFor(s.rows, s.writers[w].user, s.writers[w].issue).count
    requires Serial(done) == s.rows + [s.writers[w].pc.row]
    ensures Serial(done + Losers(s, w, s.writers[w].pc.row, |s.writers|, at)) == Serial(done)
  {
    var losers := Losers(s, w, s.writers[w].pc.row, |s.writers|, at);
    LosersShape(s, w, s.writers[w].pc.row, |s.writers|, at);
    forall p | p in losers
      ensures NoOp(Serial(done), p)
    {
      LosersAreNoOps(s, w, at, p);
    }
    SerialNoOps(done, losers);
  }

  lemma SerialWinner(done: seq<Point>, s: State, w: nat, at: nat)
    requires Inv(s) && Serial(done) == s.rows && w < |s.writers| && s.writers[w].pc.Pending?
    requires s.writers[w].pc.row.sequence == NetFor(s.rows, s.writers[w].user, s.writers[w].issue).count
    ensures Serial(done + [PointOf(s, w, at)]) == s.rows + [s.writers[w].pc.row]
  {
    assert PendingOk(s.rows, s.writers[w]);
    WinnerInserts(s.rows, s.writers[w]);
    SerialAppend(done, PointOf(s, w, at));
  }

  /** The winner's call inserts its row; after it, every loser's call does nothing. */
  lemma {:induction false} SerialWin(done: seq<Point>, s: State, w: nat, at: nat)
    requires Inv(s) && Serial(done) == s.rows
    requires w < |s.writers| && s.writers[w].pc.Pending? && !HasKey(s.rows, s.writers[w].pc.row)
    ensures Serial(done + PointsAt(s, Step(w), at)) == s.rows + [s.writers[w].pc.row]
  {
    var row := s.writers[w].pc.row;
    assert PendingOk(s.rows, s.writers[w]);
    KeyTaken(s.rows, row);
    SerialWinner(done, s, w, at);
    SerialLosers(done + [PointOf(s, w, at)], s, w, at);
    assert done + PointsAt(s, Step(w), at)
        == (done + [PointOf(s, w, at)]) + Losers(s, w, row, |s.writers|, at);
  }

  lemma {:induction false} SerialSteps(done: seq<Point>, s: State, e: Event, at: nat)
    requires Inv(s) && Serial(done) == s.rows
    ensures Serial(done + PointsAt(s, e, at)) == Apply(s, e).rows
  {
    var now := PointsAt(s, e, at);
    if now == [] {
      assert done + now == done;
    } else if s.writers[e.writer].pc.Pending? {
      SerialWin(done, s, e.writer, at);
    } else {
      SerialAppend(done, PointOf(s, e.writer, at));
    }
  }

  /** Replaying the linearization serially rebuilds exactly the interleaved run's ledger. */
  lemma {:induction false} SameLedgerAsSerial(events: seq<Event>)
    ensures Serial(Linearization(events)) == Execute(events).rows
  {
    if events != [] {
      var n := |events| - 1;
      SameLedgerAsSerial(events[..n]);
      Reachable(events[..n]);
      SerialSteps(Linearization(events[..n]), Execute(events[..n]), events[n], n);
    }
  }

  ghost predicate Placed(points: seq<Point>, w: nat) {
    exists k :: 0 <= k < |points| && points[k].writer == w
  }

  /** Calls with a point: those whose row is in, or whose row someone else has put in. */
  ghost predicate MustBePlaced(s: State, w: nat)
    requires w < |s.writers|
  {
    match s.writers[w].pc
    case Called => false
    case Pending(row) => HasKey(s.rows, row)
    case Inserted => true
    case Recounted(_, _) => true
    case Returned => true
    case Failed => false
  }

  ghost predicate MayBePlaced(s: State, w: nat)
    requires w < |s.writers|
  {
    MustBePlaced(s, w) || s.writers[w].pc.Failed?
  }

  ghost predicate Places(points: seq<Point>, s: State) {
    && (forall k :: 0 <= k < |points| ==> points[k].writer < |s.writers| && MayBePlaced(s, points[k].writer))
    && (forall w :: 0 <= w < |s.writers| && MustBePlaced(s, w) ==> Placed(points, w))
    && (forall j, k :: 0 <= j < k < |points| ==> points[j].writer != points[k].writer)
  }

  lemma PlacedGrows(points: seq<Point>, more: seq<Point>, w: nat)
    requires Placed(points, w) || Placed(more, w)
    ensures Placed(points + more, w)
  {
    if Placed(points, w) {
      var k :| 0 <= k < |points| && points[k].writer == w;
      assert (points + more)[k].writer == w;
    } else {
      var k :| 0 <= k < |more| && more[k].writer == w;
      assert (points + more)[|points| + k].writer == w;
    }
  }

  /** An insert adds to the other calls that must be placed exactly those that carry the same row. */
  lemma InsertPlaces(s: State, w: nat, v: nat)
    requires Inv(s) && w < |s.writers| && s.writers[w].pc.Pending? && !HasKey(s.rows, s.writers[w].pc.row)
    requires v < |s.writers| && v != w
    ensures v < |Advance(s, w).writers|
    ensures MustBePlaced(Advance(s, w), v) <==> MustBePlaced(s, v) || s.writers[v].pc == s.writers[w].pc
    ensures MayBePlaced(s, v) ==> MayBePlaced(Advance(s, w), v)
  {
    assert Advance(s, w).writers[v] == s.writers[v];
    if s.writers[v].pc.Pending? {
      InsertTakesOneKey(s, w, v);
    }
  }

  lemma WinPlacesEach(s: State, w: nat, at: nat, v: nat)
    requires w < |s.writers| && v < |s.writers| && s.writers[w].pc.Pending? && !HasKey(s.rows, s.writers[w].pc.row)
    requires s.writers[v].pc == s.writers[w].pc
    ensures Placed(PointsAt(s, Step(w), at), v)
  {
    var now := PointsAt(s, Step(w), at);
    if v == w {
      assert now[0].writer == w;
    } else {
      LosersComplete(s, w, s.writers[w].pc.row, |s.writers|, at, v);
      assert PointOf(s, v, at) in now;
    }
  }

  lemma WinPlaces(points: seq<Point>, s: State, w: nat, at: nat)
    requires Inv(s) && Places(points, s)
    requires w < |s.writers| && s.writers[w].pc.Pending? && !HasKey(s.rows, s.writers[w].pc.row)
    ensures Places(points + PointsAt(s, Step(w), at), Advance(s, w))
  {
    var row, t, now := s.writers[w].pc.row, Advance(s, w), PointsAt(s, Step(w), at);
    LosersShape(s, w, row, |s.writers|, at);
    forall v | 0 <= v < |t.writers| && MustBePlaced(t, v)
      ensures Placed(points + now, v)
    {
      if v != w {
        InsertPlaces(s, w, v);
      }
      if s.writers[v].pc == s.writers[w].pc {
        WinPlacesEach(s, w, at, v);
      }
      PlacedGrows(points, now, v);
    }
    forall k | 0 <= k < |points|
      ensures points[k].writer != w && s.writers[points[k].writer].pc != Pending(row)
      ensures MayBePlaced(t, points[k].writer)
    {
      assert MayBePlaced(s, points[k].writer);
      InsertPlaces(s, w, points[k].writer);
    }
    forall k | 0 <= k < |now|
      ensures now[k].writer < |t.writers| && MayBePlaced(t, now[k].writer)
    {
      if k > 0 {
        assert now[k] in Losers(s, w, row, |s.writers|, at);
        InsertPlaces(s, w, now[k].writer);
      }
    }
  }

  /** An insert takes the key of its own row and of no other pending row. */
  lemma InsertTakesOneKey(s: State, w: nat, v: nat)
    requires Inv(s) && w < |s.writers| && v < |s.writers| && v != w
    requires s.writers[w].pc.Pending? && !HasKey(s.rows, s.writers[w].pc.row)
    requires s.writers[v].pc.Pending?
    ensures HasKey(s.rows + [s.writers[w].pc.row], s.writers[v].pc.row)
       <==> HasKey(s.rows, s.writers[v].pc.row) || s.writers[v].pc == s.writers[w].pc
  {
    var row, other := s.writers[w].pc.row, s.writers[v].pc.row;
    assert PendingOk(s.rows, s.writers[w]) && PendingOk(s.rows, s.writers[v]);
    var t := s.rows + [row];
    assert t[|s.rows|] == row;
    if HasKey(s.rows, other) {
      var k :| 0 <= k < |s.rows| && s.rows[k].user == other.user && s.rows[k].issue == other.issue
               && s.rows[k].sequence == other.sequence;
      assert t[k] == s.rows[k];
    }
  }

  /** A call that only reads and goes on to insert finds its row's key free. */
  lemma ReaderFindsKeyFree(s: State, w: nat)
    requires Inv(s) && w < |s.writers| && s.writers[w].pc.Called? && Advance(s, w).writers[w].pc.Pending?
    ensures !HasKey(s.rows, Advance(s, w).writers[w].pc.row)
  {
    var wr := s.writers[w];
    WantedIsNext(s.rows, wr.dir, wr.user, wr.issue);
    KeyTaken(s.rows, NthRow(wr.user, wr.issue, NetFor(s.rows, wr.user, wr.issue).count));
  }

  /** A step that inserts nothing: who must be placed changes only for the stepping call. */
  lemma QuietStep(s: State, e: Event, v: nat)
    requires Inv(s) && Apply(s, e).rows == s.rows && v < |Apply(s, e).writers|
    requires PointsAt(s, e, 0) == [] || v != e.writer
    ensures MustBePlaced(Apply(s, e), v) ==> v < |s.writers| && MustBePlaced(s, v)
    ensures v < |s.writers| && MayBePlaced(s, v) ==> MayBePlaced(Apply(s, e), v)
  {
    if e.Step? && v == e.writer && v < |s.writers| {
      if s.writers[v].pc.Called? {
        ReaderFindsKeyFree(s, v);
      }
    } else if e.Step? && e.writer < |s.writers| {
      assert Apply(s, e).writers[v] == s.writers[v];
    }
  }

  lemma QuietStepPlaces(points: seq<Point>, s: State, e: Event, at: nat)
    requires Inv(s) && Places(points, s) && Apply(s, e).rows == s.rows
    requires PointsAt(s, e, at) != [] ==> s.writers[e.writer].pc.Called?
    ensures Places(points + PointsAt(s, e, at), Apply(s, e))
  {
    var now, t := PointsAt(s, e, at), Apply(s, e);
    forall v | 0 <= v < |t.writers| && MustBePlaced(t, v)
      ensures Placed(points + now, v)
    {
      if now != [] && v == e.writer {
        assert now[0].writer == v;
      } else {
        QuietStep(s, e, v);
      }
      PlacedGrows(points, now, v);
    }
    forall k | 0 <= k < |points|
      ensures points[k].writer < |t.writers| && MayBePlaced(t, points[k].writer)
      ensures now != [] ==> points[k].writer != e.writer
    {
      assert MayBePlaced(s, points[k].writer);
      if now == [] || points[k].writer != e.writer {
        QuietStep(s, e, points[k].writer);
      }
    }
  }

  lemma StepPlaces(points: seq<Point>, s: State, e: Event, at: nat)
    requires Inv(s) && Places(points, s)
    ensures Places(points + PointsAt(s, e, at), Apply(s, e))
  {
    if e.Step? && e.writer < |s.writers| && s.writers[e.writer].pc.Pending?
       && !HasKey(s.rows, s.writers[e.writer].pc.row)
    {
      WinPlaces(points, s, e.writer, at);
    } else {
      QuietStepPlaces(points, s, e, at);
    }
  }

  lemma {:induction false} LinearizationPlaces(events: seq<Event>)
    ensures Places(Linearization(events), Execute(events))
  {
    if events != [] {
      var n := |events| - 1;
      LinearizationPlaces(events[..n]);
      Reachable(events[..n]);
      StepPlaces(Linearization(events[..n]), Execute(events[..n]), events[n], n);
    }
  }

  /** A place in the order is never lost as the run goes on. */
  lemma {:induction false} PlacesPersist(events: seq<Event>, t: nat, lin: seq<Point>, w: nat)
    requires t <= |events| && lin == Linearization(events[..t]) && Placed(lin, w)
    ensures Placed(Linearization(events), w)
  {
    if t == |events| {
      assert events[..t] == events;
    } else {
      var n := |events| - 1;
      assert events[..n][..t] == events[..t];
      PlacesPersist(events[..n], t, lin, w);
      PlacedGrows(Linearization(events[..n]), PointsAt(Execute(events[..n]), events[n], n), w);
    }
  }

  /** A call whose row was in at some point of the run has a place, even if it has failed since. */
  lemma EffectsArePlaced(events: seq<Event>, t: nat, w: nat)
    requires t <= |events| && w < |Execute(events[..t]).writers| && MustBePlaced(Execute(events[..t]), w)
    ensures Placed(Linearization(events), w)
  {
    LinearizationPlaces(events[..t]);
    PlacesPersist(events, t, Linearization(events[..t]), w);
  }

  /** Before event `e` the call was made and had not ended, and after it the call has read. */
  ghost predicate WithinStep(s: State, e: Event, p: Point) {
    && p.writer < |s.writers| && p == PointOf(s, p.writer, p.at)
    && !Ended(s.writers[p.writer].pc)
    && p.writer < |Apply(s, e).writers| && !Apply(s, e).writers[p.writer].pc.Called?
  }

  /** The point lies between the call's own first read and its return. */
  ghost predicate WithinCall(events: seq<Event>, p: Point) {
    p.at < |events| && WithinStep(Execute(events[..p.at]), events[p.at], p)
  }

  lemma PointsAtShape(s: State, e: Event, at: nat)
    ensures forall p :: p in PointsAt(s, e, at) ==> p.at == at && WithinStep(s, e, p)
  {
    if PointsAt(s, e, at) != [] && s.writers[e.writer].pc.Pending? {
      var w := e.writer;
      var row := s.writers[w].pc.row;
      LosersShape(s, w, row, |s.writers|, at);
      forall p | p in PointsAt(s, e, at)
        ensures p.at == at && WithinStep(s, e, p)
      {
        assert p == PointOf(s, w, at) || IsLoser(s, w, row, at, p);
      }
    }
  }

  lemma {:induction false} PointsWithinCalls(events: seq<Event>)
    ensures forall p :: p in Linearization(events) ==> WithinCall(events, p)
    ensures forall j, k :: 0 <= j < k < |Linearization(events)| ==>
              Linearization(events)[j].at <= Linearization(events)[k].at
  {
    if events != [] {
      var n := |events| - 1;
      var lin, now := Linearization(events[..n]), PointsAt(Execute(events[..n]), events[n], n);
      PointsWithinCalls(events[..n]);
      PointsAtShape(Execute(events[..n]), events[n], n);
      forall p | p in lin
        ensures p.at < n && WithinCall(events, p)
      {
        assert WithinCall(events[..n], p);
        assert events[..n][..p.at] == events[..p.at];
      }
      assert Linearization(events) == lin + now;
      assert forall k :: 0 <= k < |lin| ==> lin[k] in lin;
      assert forall k :: 0 <= k < |now| ==> now[k] in now;
    }
  }

  /**
   Linearizability. Every run has a serial order of its calls that rebuilds the same ledger,
   contains each call at most once and every call that returned, and puts each call between its
   own first read and its return.
   */
  lemma {:induction false} Linearizable(events: seq<Event>)
    ensures var lin, s := Linearization(events), Execute(events);
            && Serial(lin) == s.rows
            && (forall j, k :: 0 <= j < k < |lin| ==> lin[j].writer != lin[k].writer && lin[j].at <= lin[k].at)
            && (forall w :: 0 <= w < |s.writers| && s.writers[w].pc.Returned? ==> Placed(lin, w))
            && (forall p :: p in lin ==> WithinCall(events, p))
  {
    SameLedgerAsSerial(events);
    LinearizationPlaces(events);
    PointsWithinCalls(events);
  }

  lemma WriterPersists(s: State, e: Event, w: nat)
    requires w < |s.writers|
    ensures var t := Apply(s, e);
            && w < |t.writers|
            && (Ended(s.writers[w].pc) ==> t.writers[w] == s.writers[w])
            && (!s.writers[w].pc.Called? ==> !t.writers[w].pc.Called?)
  {
  }

  /** Calls never un-happen: a writer that has read has read for good, and one that ended stays ended. */
  lemma {:induction false} WritersPersist(events: seq<Event>, t: nat, s: State, w: nat)
    requires t <= |events| && s == Execute(events[..t]) && w < |s.writers|
    ensures var now := Execute(events).writers;
            && w < |now|
            && (Ended(s.writers[w].pc) ==> now[w] == s.writers[w])
            && (!s.writers[w].pc.Called? ==> !now[w].pc.Called?)
  {
    if t == |events| {
      assert events[..t] == events;
    } else {
      var n := |events| - 1;
      assert events[..n][..t] == events[..t];
      WritersPersist(events[..n], t, s, w);
      WriterPersists(Execute(events[..n]), events[n], w);
    }
  }

  lemma TakesEffectBeforeEnd(events: seq<Event>, t: nat, s: State, p: Point)
    requires t <= |events| && s == Execute(events[..t]) && WithinCall(events, p)
    requires p.writer < |s.writers| && Ended(s.writers[p.writer].pc)
    ensures p.at < t
  {
    if t <= p.at {
      assert events[..p.at][..t] == events[..t];
      WritersPersist(events[..p.at], t, s, p.writer);
    }
  }

  lemma TakesEffectAfterRead(events: seq<Event>, t: nat, s: State, p: Point)
    requires t <= |events| && s == Execute(events[..t]) && WithinCall(events, p)
    requires p.writer < |s.writers| ==> s.writers[p.writer].pc.Called?
    ensures t <= p.at
  {
    if p.at < t {
      var after := events[..p.at + 1];
      assert after[..p.at] == events[..p.at];
      assert Execute(after) == Apply(Execute(events[..p.at]), events[p.at]);
      assert events[..t][..p.at + 1] == after;
      WritersPersist(events[..t], p.at + 1, Execute(after), p.writer);
    }
  }

  lemma PointsAscend(events: seq<Event>, j: nat, k: nat)
    requires j <= k < |Linearization(events)|
    ensures WithinCall(events, Linearization(events)[j]) && WithinCall(events, Linearization(events)[k])
    ensures Linearization(events)[j].at <= Linearization(events)[k].at
  {
    PointsWithinCalls(events);
  }

  /** At some moment of the run call `a` had ended while call `b` had not yet read. */
  ghost predicate EndedBeforeRead(s: State, a: Point, b: Point) {
    && a.writer < |s.writers| && Ended(s.writers[a.writer].pc)
    && (b.writer < |s.writers| ==> s.writers[b.writer].pc.Called?)
  }

  /** Real-time order: a call that had ended before another first read comes before it. */
  lemma RealTimeOrder(events: seq<Event>, t: nat, j: nat, k: nat)
    ensures var lin := Linearization(events);
            t <= |events| && j < |lin| && k < |lin| && EndedBeforeRead(Execute(events[..t]), lin[j], lin[k]) ==> j < k
  {
    var lin := Linearization(events);
    if t <= |events| && k <= j < |lin| && EndedBeforeRead(Execute(events[..t]), lin[j], lin[k]) {
      PointsAscend(events, k, j);
      TakesEffectBeforeEnd(events, t, Execute(events[..t]), lin[j]);
      TakesEffectAfterRead(events, t, Execute(events[..t]), lin[k]);
    }
  }
}
