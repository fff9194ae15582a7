/** What one sweep does to the stores and what it reports, row by row. */
module OutboxSweepSpec {
  import opened Options
  import opened OutboxSpec

  datatype Stores = Stores(claims: set<Claim>, receipts: map<Row, Receipt>)

  /** A row dealt with: the stores, the status to report unless the row is passed over, and whether its handler ran. */
  datatype Settled = Settled(stores: Stores, status: Option<Status>, started: bool)

  /** A batch dealt with. */
  datatype Batch = Batch(stores: Stores, reports: seq<Report>, started: seq<Row>)

  function Settle(st: Stores, row: Row, now: nat, ending: Ending): Settled {
    if row in st.receipts then
      var r := st.receipts[row];
      if !r.status.Processing? then Settled(st, Some(r.status), false)
      else if now - r.startedAt < STALE_MS then Settled(st, None, false)
      else Settled(st.(receipts := st.receipts[row := r.(status := Unknown)]), Some(Unknown), false)
    else if Fence(row) in st.claims then Settled(st, None, false)
    else if Action(row) in st.claims then
      Settled(Stores(st.claims + {Fence(row)}, st.receipts[row := Receipt(Unknown, now)]), Some(Unknown), false)
    else
      var status := StatusOf(ending);
      Settled(Stores(st.claims + {Fence(row)} + {Action(row)}, st.receipts[row := Receipt(status, now)]), Some(status),
          true)
  }

  function Told(reports: seq<Report>, row: Row, status: Option<Status>): seq<Report> {
    if status.Some? then reports + [Report(row, status.value)] else reports
  }

  function SettleAll(st: Stores, rows: seq<Row>, now: nat, endings: Row -> Ending): Batch
    decreases |rows|
  {
    if rows == [] then Batch(st, [], [])
    else
      var before := SettleAll(st, rows[..|rows| - 1], now, endings);
      var row := rows[|rows| - 1];
      var last := Settle(before.stores, row, now, endings(row));
      Batch(last.stores, Told(before.reports, row, last.status), if last.started then before.started + [row]
          else before.started)
  }
}

/** A batch that is delivered again is answered from the receipts. */
module OutboxSweepTheorems {
  import opened Options
  import opened OutboxSpec
  import opened OutboxSweepSpec

  /** Dealing with one row never changes what another, or the same one again, is told. */
  lemma VerdictKept(st: Stores, other: Row, row: Row, now: nat, endings: Row -> Ending)
    ensures var after := Settle(st, other, now, endings(other)).stores;
            Settle(after, row, now, endings(row)).status == Settle(st, row, now, endings(row)).status
  {
  }

  lemma {:induction false} VerdictKeptByAll(st: Stores, rows: seq<Row>, row: Row, now: nat, endings: Row -> Ending)
    ensures var after := SettleAll(st, rows, now, endings).stores;
            Settle(after, row, now, endings(row)).status == Settle(st, row, now, endings(row)).status
    decreases |rows|
  {
    if rows != [] {
      var most := rows[..|rows| - 1];
      VerdictKeptByAll(st, most, row, now, endings);
      VerdictKept(SettleAll(st, most, now, endings).stores, rows[|rows| - 1], row, now, endings);
    }
  }

  /** Each row is reported, or passed over, on what the stores held about it alone before the batch. */
  lemma {:induction false} EachRowOnItsOwn(st: Stores, rows: seq<Row>, now: nat, endings: Row -> Ending, row: Row,
      status: Status)
    ensures Report(row, status) in SettleAll(st, rows, now, endings).reports
            <==> row in rows && Settle(st, row, now, endings(row)).status == Some(status)
    decreases |rows|
  {
    if rows != [] {
      var most, last := rows[..|rows| - 1], rows[|rows| - 1];
      assert rows == most + [last];
      EachRowOnItsOwn(st, most, now, endings, row, status);
      VerdictKeptByAll(st, most, last, now, endings);
    }
  }

  /** The row has an outcome on record, or somebody fenced it. */
  predicate Taken(st: Stores, row: Row) {
    row in st.receipts || Fence(row) in st.claims
  }

  /** Nothing on record is lost: final outcomes, fences and receipts stay. */
  predicate Remembers(before: Stores, after: Stores) {
    && before.claims <= after.claims
    && (forall row <- before.receipts :: row in after.receipts)
    && (forall row <- before.receipts :: !before.receipts[row].status.Processing? ==>
       after.receipts[row] == before.receipts[row])
  }

  lemma SettleTakes(st: Stores, row: Row, now: nat, ending: Ending)
    ensures var d := Settle(st, row, now, ending);
            && Remembers(st, d.stores) && Taken(d.stores, row)
            && (d.status.Some? ==>
                  && row in d.stores.receipts && d.stores.receipts[row].status == d.status.value
                  && !d.status.value.Processing?)
            && (Taken(st, row) ==> !d.started && d.stores.claims == st.claims)
  {
  }

  lemma {:induction false} BatchTakes(st: Stores, rows: seq<Row>, now: nat, endings: Row -> Ending)
    ensures var b := SettleAll(st, rows, now, endings);
            && Remembers(st, b.stores)
            && (forall row <- rows :: Taken(b.stores, row))
            && (forall r <- b.reports ::
                  && r.row in rows && r.row in b.stores.receipts && b.stores.receipts[r.row].status == r.status
                  && !r.status.Processing?)
    decreases |rows|
  {
    if rows != [] {
      var most, last := rows[..|rows| - 1], rows[|rows| - 1];
      assert rows == most + [last];
      BatchTakes(st, most, now, endings);
      SettleTakes(SettleAll(st, most, now, endings).stores, last, now, endings(last));
    }
  }

  /**
   Rows already taken start nothing and take no claim, whenever they come back and whatever their handlers would do.
   */
  lemma {:induction false} TakenStartsNothing(st: Stores, rows: seq<Row>, now: nat, endings: Row -> Ending)
    requires forall row <- rows :: Taken(st, row)
    ensures var b := SettleAll(st, rows, now, endings); b.started == [] && b.stores.claims == st.claims
    decreases |rows|
  {
    if rows != [] {
      var most, last := rows[..|rows| - 1], rows[|rows| - 1];
      assert rows == most + [last];
      TakenStartsNothing(st, most, now, endings);
      BatchTakes(st, most, now, endings);
      SettleTakes(SettleAll(st, most, now, endings).stores, last, now, endings(last));
    }
  }

  /**
   A batch whose acknowledgement was lost is delivered again, later, to handlers that might behave otherwise: no handler
   runs, no claim is taken, and every row reported before is reported with the very same status.
   */
  lemma ResentWithoutActing(st: Stores, rows: seq<Row>, now: nat, endings: Row -> Ending, later: nat,
      again: Row -> Ending)
    ensures var first := SettleAll(st, rows, now, endings);
            var second := SettleAll(first.stores, rows, later, again);
            && second.started == [] && second.stores.claims == first.stores.claims
            && (forall r <- first.reports :: r in second.reports)
  {
    BatchTakes(st, rows, now, endings);
    var first := SettleAll(st, rows, now, endings);
    TakenStartsNothing(first.stores, rows, later, again);
    forall r | r in first.reports ensures r in SettleAll(first.stores, rows, later, again).reports {
      EachRowOnItsOwn(first.stores, rows, later, again, r.row, r.status);
    }
  }

  /**
   A row is passed over exactly when another worker may still be on it: its action began within ten minutes, or it is
   fenced and nothing has been written about it.
   */
  lemma PassedOverIff(st: Stores, rows: seq<Row>, now: nat, endings: Row -> Ending, row: Row)
    requires row in rows
    ensures (forall r <- SettleAll(st, rows, now, endings).reports :: r.row != row)
            <==> if row in st.receipts then st.receipts[row].status.Processing?
                && now < st.receipts[row].startedAt + STALE_MS
                 else Fence(row) in st.claims
  {
    var b := SettleAll(st, rows, now, endings);
    var own := Settle(st, row, now, endings(row)).status;
    if own.Some? {
      EachRowOnItsOwn(st, rows, now, endings, row, own.value);
    }
    forall r | r in b.reports && r.row == row ensures own == Some(r.status) {
      EachRowOnItsOwn(st, rows, now, endings, row, r.status);
    }
  }

  /** Success is reported only of a row whose receipt said so or whose handler ran in this sweep and returned. */
  lemma SuccessIff(st: Stores, rows: seq<Row>, now: nat, endings: Row -> Ending, row: Row)
    requires row in rows
    ensures Report(row, Succeeded) in SettleAll(st, rows, now, endings).reports
            <==> if row in st.receipts then st.receipts[row].status.Succeeded?
                 else Fence(row) !in st.claims && Action(row) !in st.claims && endings(row).Returned?
  {
    EachRowOnItsOwn(st, rows, now, endings, row, Succeeded);
  }

  /** Rejected is reported only of a row whose receipt said so or whose handler ran in this sweep and refused it. */
  lemma RejectedIff(st: Stores, rows: seq<Row>, now: nat, endings: Row -> Ending, row: Row)
    requires row in rows
    ensures Report(row, Rejected) in SettleAll(st, rows, now, endings).reports
            <==> if row in st.receipts then st.receipts[row].status.Rejected?
                 else Fence(row) !in st.claims && Action(row) !in st.claims && endings(row).Refused?
  {
    EachRowOnItsOwn(st, rows, now, endings, row, Rejected);
  }

  /**
   Unknown is reported of a row if and only if its receipt said so, or its action began ten minutes ago or more, or it
   was claimed before with nothing written, or its handler ran in this sweep and threw.
   */
  lemma UnknownIff(st: Stores, rows: seq<Row>, now: nat, endings: Row -> Ending, row: Row)
    requires row in rows
    ensures Report(row, Unknown) in SettleAll(st, rows, now, endings).reports
            <==> if row in st.receipts then
                   st.receipts[row].status.Unknown?
                   || (st.receipts[row].status.Processing? && now >= st.receipts[row].startedAt + STALE_MS)
                 else Fence(row) !in st.claims && (Action(row) in st.claims || endings(row).Threw?)
  {
    EachRowOnItsOwn(st, rows, now, endings, row, Unknown);
  }

  /** Nothing is ever reported as still going on. */
  lemma NeverStillGoing(st: Stores, rows: seq<Row>, now: nat, endings: Row -> Ending, row: Row)
    ensures Report(row, Processing) !in SettleAll(st, rows, now, endings).reports
  {
    EachRowOnItsOwn(st, rows, now, endings, row, Processing);
  }

  // ---------------------------------------------------------------- what a batch leaves in the stores

  /** What the stores say of one row. */
  datatype About = About(fenced: bool, claimed: bool, receipt: Option<Receipt>)

  function Of(st: Stores, row: Row): About {
    About(Fence(row) in st.claims, Action(row) in st.claims,
        if row in st.receipts then Some(st.receipts[row]) else None)
  }

  lemma SettleTouchesOne(st: Stores, other: Row, row: Row, now: nat, endings: Row -> Ending)
    ensures var after := Settle(st, other, now, endings(other)).stores;
            Of(after, row) == if other == row then Of(Settle(st, row, now, endings(row)).stores, row) else Of(st, row)
  {
  }

  lemma SettleReadsOne(a: Stores, b: Stores, row: Row, now: nat, ending: Ending)
    requires Of(a, row) == Of(b, row)
    ensures Of(Settle(a, row, now, ending).stores, row) == Of(Settle(b, row, now, ending).stores, row)
    ensures Settle(a, row, now, ending).started == Settle(b, row, now, ending).started
  {
  }

  /** A row repeated in the batch is left as its first time left it. */
  lemma SettledStays(st: Stores, row: Row, now: nat, ending: Ending)
    ensures var once := Settle(st, row, now, ending).stores;
            Of(Settle(once, row, now, ending).stores, row) == Of(once, row) && !Settle(once, row, now, ending).started
  {
  }

  lemma {:induction false} RowAlone(st: Stores, rows: seq<Row>, now: nat, endings: Row -> Ending, row: Row)
    ensures var b := SettleAll(st, rows, now, endings);
            && Of(b.stores, row)
               == (if row in rows then Of(Settle(st, row, now, endings(row)).stores, row) else Of(st, row))
            && (row in b.started <==> row in rows && Settle(st, row, now, endings(row)).started)
    decreases |rows|
  {
    if rows != [] {
      var most, last := rows[..|rows| - 1], rows[|rows| - 1];
      assert rows == most + [last];
      RowAlone(st, most, now, endings, row);
      var before := SettleAll(st, most, now, endings).stores;
      SettleTouchesOne(before, last, row, now, endings);
      if last == row {
        var ending := endings(row);
        SettleReadsOne(before, if row in most then Settle(st, row, now, ending).stores else st, row, now, ending);
        SettledStays(st, row, now, ending);
      }
    }
  }

  /**
   What a batch leaves of each of its rows: the fence and the claim are taken unless somebody came first, a stale
   beginning becomes unknown, and a row dealt with now has a receipt, begun now, for how its handler ended. A handler
   starts if and only if nothing at all stood in the stores about its row.
   */
  lemma RowEndsAs(st: Stores, rows: seq<Row>, now: nat, endings: Row -> Ending, row: Row)
    requires row in rows
    ensures var b := SettleAll(st, rows, now, endings); var was := Of(st, row);
            && (row in b.started <==> was == About(false, false, None))
            && Of(b.stores, row)
               == (match was.receipt
                   case Some(r) =>
                     if r.status == Processing && now >= r.startedAt + STALE_MS
                     then was.(receipt := Some(Receipt(Unknown, r.startedAt))) else was
                   case None =>
                     if was.fenced then was
                     else
                       var status := if was.claimed || endings(row) == Threw then Unknown
                                     else if endings(row) == Refused then Rejected else Succeeded;
                       About(true, true, Some(Receipt(status, now))))
  {
    RowAlone(st, rows, now, endings, row);
  }

  /** Of any other row the stores say what they said. */
  lemma OtherRowsStay(st: Stores, rows: seq<Row>, now: nat, endings: Row -> Ending, row: Row)
    requires row !in rows
    ensures var b := SettleAll(st, rows, now, endings); Of(b.stores, row) == Of(st, row) && row !in b.started
  {
    RowAlone(st, rows, now, endings, row);
  }
}

/** The sweep in place: one worker's loop over the batch, with others perhaps part-way through theirs. */
module OutboxObject {
  import opened Options
  import opened OutboxSpec
  import opened OutboxSweepSpec
  import opened OutboxSweepTheorems
  import opened OutboxTheorems

  /** The answer to the acknowledgement: how many rows the service says it took, if it says. */
  datatype AckAnswer = Accepted(acked: Option<nat>) | Failed

  datatype SweepResult = Swept(pulled: nat, handled: nat, acked: nat) | AckFailed

  /** How many of the handlers that ran returned. */
  function Handled(started: seq<Row>, endings: Row -> Ending): nat
    decreases |started|
  {
    if started == [] then 0
    else Handled(started[..|started| - 1], endings) + (if endings(started[|started| - 1]).Returned? then 1 else 0)
  }

  /**
   What the caller is told: a sweep with nothing to report acknowledges nothing, and a refused acknowledgement throws.
   */
  function ResultOf(pulled: nat, batch: Batch, endings: Row -> Ending, answer: AckAnswer): SweepResult {
    if batch.reports == [] then Swept(pulled, Handled(batch.started, endings), 0)
    else if answer.Failed? then AckFailed
    else Swept(pulled, Handled(batch.started, endings), if answer.acked.Some? then answer.acked.value
        else |batch.reports|)
  }

  lemma ReportsAbove(st: Stores, rows: seq<Row>, now: nat, endings: Row -> Ending, floor: nat)
    requires SettleAll(st, rows, now, endings).reports != [] && forall row <- rows :: row > floor
    ensures Max(SettleAll(st, rows, now, endings).reports) > floor
  {
    BatchTakes(st, rows, now, endings);
    MaxBounds(SettleAll(st, rows, now, endings).reports);
  }

  /** The batch so far and one more row. */
  lemma NextSettled(st: Stores, rows: seq<Row>, i: nat, now: nat, endings: Row -> Ending)
    requires i < |rows|
    ensures var before := SettleAll(st, rows[..i], now, endings);
            var last := Settle(before.stores, rows[i], now, endings(rows[i]));
            SettleAll(st, rows[..i + 1], now, endings)
            == Batch(last.stores, Told(before.reports, rows[i], last.status),
                if last.started then before.started + [rows[i]] else before.started)
  {
    assert rows[..i + 1][..i] == rows[..i] && rows[..i + 1][i] == rows[i];
  }

  lemma NextHandled(started: seq<Row>, row: Row, endings: Row -> Ending)
    ensures Handled(started + [row], endings)
            == Handled(started, endings) + (if endings(row) == Returned then 1 else 0)
  {
    assert (started + [row])[..|started|] == started;
  }

  /** Where the worker stands with `rest` to go: at the next row, before the acknowledgement, or done. */
  function Placed(sweeps: map<Worker, Sweep>, w: Worker, rest: seq<Row>, reports: seq<Report>): map<Worker, Sweep> {
    if rest != [] then sweeps[w := Sweep(rest, reports, Look)]
    else if reports != [] then sweeps[w := Sweep([], reports, Acking)]
    else sweeps - {w}
  }

  /** Going on to the next row forgets what phase the worker was in. */
  lemma PlacedAgain(sweeps: map<Worker, Sweep>, w: Worker, at: Sweep, rest: seq<Row>, reports: seq<Report>)
    ensures Placed(sweeps[w := at], w, rest, reports) == Placed(sweeps, w, rest, reports)
  {
    assert sweeps[w := at] - {w} == sweeps - {w};
  }

  /** A fenced row that is acted on, or claimed before without a receipt, ends as `Settle` has it. */
  lemma SettledByActing(st: Stores, row: Row, now: nat, ending: Ending, started: bool)
    requires row !in st.receipts && Fence(row) !in st.claims && (started <==> Action(row) !in st.claims)
    ensures var status := if started then StatusOf(ending) else Unknown;
            Settled(Stores(st.claims + {Fence(row)} + {Action(row)}, st.receipts[row := Receipt(status, now)]),
                Some(status), started)
            == Settle(st, row, now, ending)
  {
    if !started { assert st.claims + {Fence(row)} + {Action(row)} == st.claims + {Fence(row)}; }
  }

  class AkirooSweeper {
    var now: nat
    var cursor: Cursor
    var claims: set<Claim>
    var receipts: map<Row, Receipt>
    const start: Cursor
    ghost var history: seq<Step>
    ghost var world: Outbox

    ghost predicate Valid()
      reads this
    {
      && Possible(Fresh(start), history) && world == After(Fresh(start), history)
      && world.now == now && world.cursor == cursor && world.claims == claims && world.receipts == receipts
    }

    /** On the file's cursor or the shared table, as it stands. */
    constructor (c: Cursor)
      ensures Valid() && history == [] && cursor == start == c
    {
      now, cursor, start, claims, receipts := 0, c, c, {}, map[];
      history, world := [], Fresh(c);
    }

    /** Puts a step of the protocol on record. */
    ghost method Took(step: Step)
      requires Possible(Fresh(start), history) && world == After(Fresh(start), history) && Enabled(world, step)
      modifies this`history, this`world
      ensures Possible(Fresh(start), history) && world == After(Fresh(start), history)
      ensures world == Apply(old(world), step)
      ensures history == old(history) + [step]
    {
      Then(Fresh(start), history, step);
      history, world := history + [step], Apply(world, step);
    }

    /** A row found with a receipt. */
    method Recall(ghost w: Worker, row: Row, ghost sw: Sweep) returns (status: Option<Status>)
      requires Valid() && w in world.sweeps && world.sweeps[w] == sw && sw.rows != [] && sw.rows[0] == row
               && sw.phase == Look
      requires row in receipts
      modifies this`receipts, this`history, this`world
      ensures Valid() && old(history) <= history
      ensures Settled(Stores(claims, receipts), status, false)
              == Settle(old(Stores(claims, receipts)), row, now, Returned)
      ensures world.sweeps == Placed(old(world.sweeps), w, sw.rows[1..], Told(sw.reports, row, status))
      ensures world.starts == old(world.starts)
    {
      var r := receipts[row];
      Took(Advance(w));
      if r.status == Processing {
        if now - r.startedAt < STALE_MS { return None; }
        receipts := receipts[row := r.(status := Unknown)];
        Took(Advance(w));
        return Some(Unknown);
      }
      status := Some(r.status);
    }

    /** The action is ours: write that it began, and start the handler. */
    method Begin(ghost w: Worker, row: Row, ghost sw: Sweep)
      requires Valid() && w in world.sweeps && world.sweeps[w] == sw && sw.rows != [] && sw.rows[0] == row
               && sw.phase == Opening
      modifies this`receipts, this`history, this`world
      ensures Valid() && old(history) <= history && receipts == old(receipts)[row := Receipt(Processing, now)]
      ensures world.sweeps == old(world.sweeps)[w := sw.(phase := Handling(now))]
      ensures world.starts == old(world.starts)[row := StartsOf(old(world), row) + 1]
    {
      receipts := receipts[row := Receipt(Processing, now)];
      Took(Advance(w));
      Took(Advance(w));
    }

    /** Run the handler, and see how it ended. */
    method RunHandler(ghost w: Worker, row: Row, ending: Ending, ghost sw: Sweep) returns (receipt: Receipt)
      requires Valid() && w in world.sweeps && world.sweeps[w] == sw && sw.rows != [] && sw.rows[0] == row
               && sw.phase == Opening
      modifies this`receipts, this`history, this`world
      ensures Valid() && old(history) <= history
      ensures receipt == Receipt(StatusOf(ending), now) && receipts == old(receipts)[row := Receipt(Processing, now)]
      ensures world.sweeps == old(world.sweeps)[w := sw.(phase := Closing(receipt))]
      ensures world.starts == old(world.starts)[row := StartsOf(old(world), row) + 1]
    {
      receipt := Receipt(Processing, now);
      Begin(w, row, sw);
      Took(Finish(w, ending));
      match ending {
        case Returned => receipt := receipt.(status := Succeeded);
        case Refused => receipt := receipt.(status := Rejected);
        case Threw => receipt := receipt.(status := Unknown);
      }
    }

    /** The row is fenced: claim its action, and act on it unless it was claimed before without a receipt. */
    method Perform(ghost w: Worker, row: Row, ending: Ending, ghost sw: Sweep) returns (receipt: Receipt, started: bool)
      requires Valid() && w in world.sweeps && world.sweeps[w] == sw && sw.rows != [] && sw.rows[0] == row
               && sw.phase == Claiming
      modifies this`claims, this`receipts, this`history, this`world
      ensures Valid() && old(history) <= history
      ensures started <==> Action(row) !in old(claims)
      ensures claims == old(claims) + {Action(row)}
      ensures receipt == Receipt(if started then StatusOf(ending) else Unknown, now)
      ensures receipts == if started then old(receipts)[row := Receipt(Processing, now)] else old(receipts)
      ensures world.sweeps == old(world.sweeps)[w := sw.(phase := Closing(receipt))]
      ensures world.starts == if started then old(world.starts)[row := StartsOf(old(world), row) + 1]
              else old(world.starts)
    {
      if Action(row) in claims {
        Took(Advance(w));
        return Receipt(Unknown, now), false;
      }
      claims := claims + {Action(row)};
      Took(Advance(w));
      receipt := RunHandler(w, row, ending, sw.(phase := Opening));
      started := true;
    }

    /** No receipt: the row is ours only if nobody fenced it before. */
    method FenceRow(ghost w: Worker, row: Row, ghost sw: Sweep) returns (ours: bool)
      requires Valid() && w in world.sweeps && world.sweeps[w] == sw && sw.rows != [] && sw.rows[0] == row
               && sw.phase == Look
      requires row !in receipts
      modifies this`claims, this`history, this`world
      ensures Valid() && old(history) <= history
      ensures ours <==> Fence(row) !in old(claims)
      ensures claims == old(claims) + {Fence(row)}
      ensures world.sweeps == if ours then old(world.sweeps)[w := sw.(phase := Claiming)]
              else Placed(old(world.sweeps), w, sw.rows[1..], sw.reports)
      ensures world.starts == old(world.starts)
    {
      Took(Advance(w));
      ours := Fence(row) !in claims;
      if ours { claims := claims + {Fence(row)}; }
      Took(Advance(w));
    }

    /** Writes down how a row ended and goes on to the next. */
    method Close(ghost w: Worker, row: Row, receipt: Receipt, ghost sw: Sweep)
      requires Valid() && w in world.sweeps && sw.rows != [] && sw.rows[0] == row
               && world.sweeps[w] == sw.(phase := Closing(receipt))
      modifies this`receipts, this`history, this`world
      ensures Valid() && old(history) <= history
      ensures receipts == old(receipts)[row := receipt]
      ensures world.sweeps == Placed(old(world.sweeps), w, sw.rows[1..], sw.reports + [Report(row, receipt.status)])
      ensures world.starts == old(world.starts)
    {
      receipts := receipts[row := receipt];
      Took(Advance(w));
    }

    /** A fenced row: perform it and write down how it ended. */
    method PerformAndClose(ghost w: Worker, row: Row, ending: Ending, ghost sw: Sweep)
      returns (status: Status, started: bool)
      requires Valid() && w in world.sweeps && world.sweeps[w] == sw && sw.rows != [] && sw.rows[0] == row
               && sw.phase == Claiming
      modifies this`claims, this`receipts, this`history, this`world
      ensures Valid() && old(history) <= history
      ensures started <==> Action(row) !in old(claims)
      ensures status == if started then StatusOf(ending) else Unknown
      ensures claims == old(claims) + {Action(row)} && receipts == old(receipts)[row := Receipt(status, now)]
      ensures world.sweeps == Placed(old(world.sweeps), w, sw.rows[1..], sw.reports + [Report(row, status)])
      ensures world.starts == if started then old(world.starts)[row := StartsOf(old(world), row) + 1]
              else old(world.starts)
    {
      var receipt;
      receipt, started := Perform(w, row, ending, sw);
      status := receipt.status;
      Close(w, row, receipt, sw);
      PlacedAgain(old(world.sweeps), w, sw.(phase := Closing(receipt)), sw.rows[1..],
          sw.reports + [Report(row, status)]);
    }

    /** A row nobody wrote about: fence it, act on it, and write down how that ended. */
    method Act(ghost w: Worker, row: Row, ending: Ending, ghost sw: Sweep)
      returns (status: Option<Status>, started: bool)
      requires Valid() && w in world.sweeps && world.sweeps[w] == sw && sw.rows != [] && sw.rows[0] == row
               && sw.phase == Look
      requires row !in receipts
      modifies this`claims, this`receipts, this`history, this`world
      ensures Valid() && old(history) <= history
      ensures Settled(Stores(claims, receipts), status, started)
              == Settle(old(Stores(claims, receipts)), row, now, ending)
      ensures world.sweeps == Placed(old(world.sweeps), w, sw.rows[1..], Told(sw.reports, row, status))
      ensures world.starts == if started then old(world.starts)[row := StartsOf(old(world), row) + 1]
              else old(world.starts)
    {
      var ours := FenceRow(w, row, sw);
      if !ours { return None, false; }
      var end;
      end, started := PerformAndClose(w, row, ending, sw.(phase := Claiming));
      SettledByActing(old(Stores(claims, receipts)), row, now, ending, started);
      PlacedAgain(old(world.sweeps), w, sw.(phase := Claiming), sw.rows[1..], sw.reports + [Report(row, end)]);
      status := Some(end);
    }

    /** One row of the batch. */
    method DealWith(ghost w: Worker, row: Row, ending: Ending, ghost sw: Sweep)
      returns (status: Option<Status>, started: bool)
      requires Valid() && w in world.sweeps && world.sweeps[w] == sw && sw.rows != [] && sw.rows[0] == row
               && sw.phase == Look
      modifies this`claims, this`receipts, this`history, this`world
      ensures Valid() && old(history) <= history
      ensures Settled(Stores(claims, receipts), status, started)
              == Settle(old(Stores(claims, receipts)), row, now, ending)
      ensures world.sweeps == Placed(old(world.sweeps), w, sw.rows[1..], Told(sw.reports, row, status))
      ensures world.starts == if started then old(world.starts)[row := StartsOf(old(world), row) + 1]
              else old(world.starts)
    {
      if row in receipts {
        status := Recall(w, row, sw);
        started := false;
      } else {
        status, started := Act(w, row, ending, sw);
      }
    }

    /** The file is raised under its lock; the shared table is read, compared, updated, and given a first row. */
    method SetCursor(ghost w: Worker, reports: seq<Report>)
      requires Valid() && w in world.sweeps && reports != [] && world.sweeps[w] == Sweep([], reports, Advancing)
      modifies this`cursor, this`history, this`world
      ensures Valid() && old(history) <= history && world.sweeps == old(world.sweeps) - {w}
      ensures world.starts == old(world.starts) && world.acked == old(world.acked)
      ensures Position(cursor) == if Max(reports) > Position(old(cursor)) then Max(reports) else Position(old(cursor))
    {
      var top := Max(reports);
      match cursor {
        case Locked(at) =>
          cursor := Locked(if top > at then top else at);
          Took(Advance(w));
        case Shared(table) =>
          Took(Advance(w));
          if top > Position(cursor) { WriteShared(w, reports, top); }
      }
    }

    method WriteShared(ghost w: Worker, reports: seq<Report>, top: nat)
      requires Valid() && w in world.sweeps && world.sweeps[w] == Sweep([], reports, Moving)
      requires reports != [] && top == Max(reports) && cursor.Shared?
      modifies this`cursor, this`history, this`world
      ensures Valid() && old(history) <= history && world.sweeps == old(world.sweeps) - {w}
      ensures world.starts == old(world.starts) && world.acked == old(world.acked) && Position(cursor) == top
    {
      var updated := |cursor.table|;
      cursor := Shared(seq(updated, i => top));
      Took(Advance(w));
      if updated == 0 {
        cursor := Shared(cursor.table + [top]);
        Took(Advance(w));
      }
    }

    /** The acknowledgement's answer: a failure leaves the cursor where it was. */
    method Conclude(ghost w: Worker, reports: seq<Report>, ok: bool)
      requires Valid() && w in world.sweeps && reports != [] && world.sweeps[w] == Sweep([], reports, Acking)
      modifies this`cursor, this`history, this`world
      ensures Valid() && old(history) <= history && world.sweeps == old(world.sweeps) - {w}
      ensures world.starts == old(world.starts)
      ensures !ok ==> cursor == old(cursor)
      ensures ok ==>
                Position(cursor) == if Max(reports) > Position(old(cursor)) then Max(reports) else Position(old(cursor))
      ensures ok ==> forall r <- reports :: r in world.acked
    {
      Took(Ack(w, ok));
      if ok { SetCursor(w, reports); }
    }

    /** The next row of the batch: deal with it, and add it to the counts and to what there is to report. */
    method DealWithNext(ghost w: Worker, rows: seq<Row>, i: nat, endings: Row -> Ending, reports: seq<Report>,
        handled: nat, ghost started: seq<Row>, ghost sweeps: map<Worker, Sweep>)
      returns (more: seq<Report>, count: nat, ghost begun: seq<Row>)
      requires Valid() && i < |rows| && world.sweeps == Placed(sweeps, w, rows[i..], reports)
      requires handled == Handled(started, endings)
      modifies this`claims, this`receipts, this`history, this`world
      ensures Valid() && old(history) <= history
      ensures var last := Settle(old(Stores(claims, receipts)), rows[i], now, endings(rows[i]));
              && Stores(claims, receipts) == last.stores && more == Told(reports, rows[i], last.status)
              && begun == if last.started then started + [rows[i]] else started
      ensures count == Handled(begun, endings)
      ensures world.sweeps == Placed(sweeps, w, rows[i + 1..], more)
      ensures begun == [] ==> world.starts == old(world.starts)
    {
      ghost var sw := Sweep(rows[i..], reports, Look);
      assert rows[i..][1..] == rows[i + 1..];
      var row := rows[i];
      var status, acted := DealWith(w, row, endings(row), sw);
      PlacedAgain(sweeps, w, sw, rows[i + 1..], Told(reports, row, status));
      more, count, begun := reports, handled, started;
      if acted {
        NextHandled(started, row, endings);
        begun := started + [row];
        if endings(row) == Returned { count := count + 1; }
      }
      if status.Some? { more := more + [Report(row, status.value)]; }
    }

    /** The loop over the rows. */
    method DealWithAll(ghost w: Worker, rows: seq<Row>, endings: Row -> Ending)
      returns (reports: seq<Report>, handled: nat, ghost started: seq<Row>)
      requires Valid() && rows != [] && w in world.sweeps && world.sweeps[w] == Sweep(rows, [], Look)
      modifies this`claims, this`receipts, this`history, this`world
      ensures Valid() && old(history) <= history
      ensures SettleAll(old(Stores(claims, receipts)), rows, now, endings)
              == Batch(Stores(claims, receipts), reports, started)
      ensures handled == Handled(started, endings)
      ensures world.sweeps == if reports == [] then old(world.sweeps) - {w}
              else old(world.sweeps)[w := Sweep([], reports, Acking)]
      ensures started == [] ==> world.starts == old(world.starts)
    {
      ghost var st, sweeps, starts := Stores(claims, receipts), world.sweeps, world.starts;
      handled, reports, started := 0, [], [];
      for i := 0 to |rows|
        invariant Valid() && old(history) <= history
        invariant SettleAll(st, rows[..i], now, endings) == Batch(Stores(claims, receipts), reports, started)
        invariant handled == Handled(started, endings) && (started == [] ==> world.starts == starts)
        invariant world.sweeps == Placed(sweeps, w, rows[i..], reports)
      {
        NextSettled(st, rows, i, now, endings);
        reports, handled, started := DealWithNext(w, rows, i, endings, reports, handled, started, sweeps);
      }
      assert rows[..|rows|] == rows;
    }

    /**
     Pulls `rows`, deals with each, acknowledges what there is to report and advances the cursor. The call is a run of
     the protocol, and it computes the batch of the specification.
     */
    method SweepAkiroo(ghost w: Worker, rows: seq<Row>, endings: Row -> Ending, answer: AckAnswer)
      returns (result: SweepResult)
      requires Valid() && w !in world.sweeps && forall row <- rows :: row > Position(cursor)
      modifies this
      ensures Valid() && old(history) <= history && now == old(now) && world.sweeps == old(world.sweeps)
      ensures var batch := SettleAll(old(Stores(claims, receipts)), rows, now, endings);
              && Stores(claims, receipts) == batch.stores
              && result == ResultOf(|rows|, batch, endings, answer)
              && (batch.started == [] ==> world.starts == old(world.starts))
              && (if batch.reports != [] && answer.Accepted?
                  then Position(cursor) == Max(batch.reports) && forall r <- batch.reports :: r in world.acked
                  else cursor == old(cursor))
    {
      if rows == [] { return Swept(0, 0, 0); }
      Took(Pull(w, rows));
      var reports, handled, started := DealWithAll(w, rows, endings);
      if reports == [] { return Swept(|rows|, handled, 0); }
      ReportsAbove(old(Stores(claims, receipts)), rows, now, endings, Position(cursor));
      Conclude(w, reports, answer.Accepted?);
      if answer.Failed? { return AckFailed; }
      return Swept(|rows|, handled, if answer.acked.Some? then answer.acked.value else |reports|);
    }
  }
}
