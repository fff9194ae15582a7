/**
 The outbox sweep: any number of workers pull rows past the cursor, fence and claim each one, run its handler, record a
 receipt, acknowledge the batch and advance the cursor. Claims are remembered; workers may stop at any point.
 */
module OutboxSpec {
  import opened Options

  type Row = nat
  type Worker = nat

  const STALE_MS := 10 * 60000

  datatype Status = Processing | Succeeded | Rejected | Unknown
  datatype Receipt = Receipt(status: Status, startedAt: nat)

  /** The two claims on a row: the receipt fence, then the action itself. */
  datatype Claim = Fence(row: Row) | Action(row: Row)

  datatype Report = Report(row: Row, status: Status)

  /** How a handler ends: normally, by refusing the row, or by throwing with an effect that may have happened. */
  datatype Ending = Returned | Refused | Threw

  /** Where a worker stands with the row at the head of its batch. */
  datatype Phase =
    | Look                      // about to read the receipt
    | Expire(r: Receipt)        // found a stale one; about to mark it unknown
    | Fencing
    | Claiming
    | Opening                   // claimed; about to write the processing receipt
    | Ready                     // about to start the handler
    | Handling(startedAt: nat)
    | Closing(r: Receipt)       // about to write the final receipt
    | Acking
    | Advancing                 // about to set the cursor: lock and raise it, or read the shared table
    | Moving                    // read a smaller position; about to update the table
    | Planting                  // the update found no row; about to insert one

  datatype Sweep = Sweep(rows: seq<Row>, reports: seq<Report>, phase: Phase)

  /** The file's cursor is raised under a lock; the table the workers share is read, compared and written in steps. */
  datatype Cursor = Locked(at: nat) | Shared(table: seq<nat>)

  function Position(c: Cursor): nat {
    match c
    case Locked(at) => at
    case Shared(table) => if table == [] then 0 else table[0]
  }

  datatype Outbox = Outbox(
    now: nat, cursor: Cursor, claims: set<Claim>, receipts: map<Row, Receipt>, sweeps: map<Worker, Sweep>,
    starts: map<Row, nat>, ended: set<(Row, Ending)>, acked: set<Report>)

  function Fresh(cursor: Cursor): Outbox {
    Outbox(0, cursor, {}, map[], map[], map[], {}, {})
  }

  const Empty := Fresh(Shared([]))
  const EmptyLocked := Fresh(Locked(0))

  datatype Step =
    | Pull(w: Worker, rows: seq<Row>)      // the service answers with rows past the cursor
    | Advance(w: Worker)                   // the worker's next store access
    | Finish(w: Worker, ending: Ending)    // the handler ends
    | Ack(w: Worker, ok: bool)             // the acknowledgement's answer
    | Stop(w: Worker)
    | Pass(ms: nat)

  function StartsOf(s: Outbox, row: Row): nat {
    if row in s.starts then s.starts[row] else 0
  }

  /** The worker is setting the cursor. */
  predicate Setting(phase: Phase) {
    phase.Advancing? || phase.Moving? || phase.Planting?
  }

  predicate Busy(s: Outbox, w: Worker) {
    w in s.sweeps && s.sweeps[w].rows != []
  }

  predicate Enabled(s: Outbox, step: Step) {
    match step
    case Pull(w, rows) => w !in s.sweeps && rows != [] && forall row <- rows :: row > Position(s.cursor)
    case Advance(w) => w in s.sweeps && !s.sweeps[w].phase.Handling? && !s.sweeps[w].phase.Acking?
                       && (s.sweeps[w].rows != [] || Setting(s.sweeps[w].phase))
    case Finish(w, _) => Busy(s, w) && s.sweeps[w].phase.Handling?
    case Ack(w, _) => w in s.sweeps && s.sweeps[w].phase.Acking?
    case Stop(w) => w in s.sweeps
    case Pass(_) => true
  }

  /** The next row of the batch, or the acknowledgement if there is anything to report. */
  function Onward(s: Outbox, w: Worker, sw: Sweep): Outbox
    requires sw.rows != []
  {
    var rest := sw.rows[1..];
    if rest != [] then s.(sweeps := s.sweeps[w := Sweep(rest, sw.reports, Look)])
    else if sw.reports != [] then s.(sweeps := s.sweeps[w := Sweep([], sw.reports, Acking)])
    else s.(sweeps := s.sweeps - {w})
  }

  function Reported(sw: Sweep, status: Status): Sweep
    requires sw.rows != []
  {
    sw.(reports := sw.reports + [Report(sw.rows[0], status)])
  }

  function At(s: Outbox, w: Worker, phase: Phase): Outbox
    requires w in s.sweeps
  {
    s.(sweeps := s.sweeps[w := s.sweeps[w].(phase := phase)])
  }

  function LookStep(s: Outbox, w: Worker): Outbox
    requires Busy(s, w)
  {
    var sw := s.sweeps[w];
    var row := sw.rows[0];
    if row !in s.receipts then At(s, w, Fencing)
    else
      var r := s.receipts[row];
      if !r.status.Processing? then Onward(s, w, Reported(sw, r.status))
      else if s.now - r.startedAt < STALE_MS then Onward(s, w, sw)
      else At(s, w, Expire(r))
  }

  function Max(reports: seq<Report>): nat
    requires reports != []
    decreases |reports|
  {
    if |reports| == 1 then reports[0].row
    else if reports[0].row > Max(reports[1..]) then reports[0].row else Max(reports[1..])
  }

  /** The highest row of the batch that was reported. */
  function Top(sw: Sweep): nat {
    if sw.reports != [] then Max(sw.reports) else 0
  }

  function SetStep(s: Outbox, w: Worker): Outbox
    requires w in s.sweeps && Setting(s.sweeps[w].phase)
  {
    var top := Top(s.sweeps[w]);
    var done := s.(sweeps := s.sweeps - {w});
    match s.cursor
    case Locked(at) => done.(cursor := Locked(if top > at then top else at))
    case Shared(table) =>
      match s.sweeps[w].phase
      case Advancing => if top <= Position(s.cursor) then done else At(s, w, Moving)
      // The update does not look at what the table has become.
      case Moving => if table == [] then At(s, w, Planting) else done.(cursor := Shared(seq(|table|, i => top)))
      case _ => done.(cursor := Shared(table + [top]))
  }

  function AdvanceStep(s: Outbox, w: Worker): Outbox
    requires Enabled(s, Advance(w))
  {
    var sw := s.sweeps[w];
    if Setting(sw.phase) then SetStep(s, w)
    else
      var row := sw.rows[0];
      match sw.phase
      case Look => LookStep(s, w)
      case Expire(r) =>
        Onward(s.(receipts := s.receipts[row := r.(status := Unknown)]), w, Reported(sw, Unknown))
      case Fencing =>
        if Fence(row) in s.claims then Onward(s, w, sw) else At(s.(claims := s.claims + {Fence(row)}), w, Claiming)
      case Claiming =>
        if Action(row) in s.claims then At(s, w, Closing(Receipt(Unknown, s.now)))
        else At(s.(claims := s.claims + {Action(row)}), w, Opening)
      case Opening => At(s.(receipts := s.receipts[row := Receipt(Processing, s.now)]), w, Ready)
      case Ready => At(s.(starts := s.starts[row := StartsOf(s, row) + 1]), w, Handling(s.now))
      case Closing(r) => Onward(s.(receipts := s.receipts[row := r]), w, Reported(sw, r.status))
      case _ => s
  }

  function StatusOf(ending: Ending): Status {
    match ending
    case Returned => Succeeded
    case Refused => Rejected
    case Threw => Unknown
  }

  function FinishStep(s: Outbox, w: Worker, ending: Ending): Outbox
    requires Enabled(s, Finish(w, ending))
  {
    var sw := s.sweeps[w];
    var after := s.(ended := s.ended + {(sw.rows[0], ending)});
    At(after, w, Closing(Receipt(StatusOf(ending), sw.phase.startedAt)))
  }

  function AckStep(s: Outbox, w: Worker, ok: bool): Outbox
    requires Enabled(s, Ack(w, ok))
  {
    if ok then At(s.(acked := s.acked + (set r | r in s.sweeps[w].reports)), w, Advancing)
        else s.(sweeps := s.sweeps - {w})
  }

  function Apply(s: Outbox, step: Step): Outbox
    requires Enabled(s, step)
  {
    match step
    case Pull(w, rows) => s.(sweeps := s.sweeps[w := Sweep(rows, [], Look)])
    case Advance(w) => AdvanceStep(s, w)
    case Finish(w, ending) => FinishStep(s, w, ending)
    case Ack(w, ok) => AckStep(s, w, ok)
    case Stop(w) => s.(sweeps := s.sweeps - {w})
    case Pass(ms) => s.(now := s.now + ms)
  }

  predicate Possible(s: Outbox, steps: seq<Step>)
    decreases |steps|
  {
    steps == [] || (Enabled(s, steps[0]) && Possible(Apply(s, steps[0]), steps[1..]))
  }

  function After(s: Outbox, steps: seq<Step>): Outbox
    requires Possible(s, steps)
    decreases |steps|
  {
    if steps == [] then s else After(Apply(s, steps[0]), steps[1..])
  }
}

/** At most one start per row, no false success, and when the cursor can go back. */
module OutboxTheorems {
  import opened Options
  import opened OutboxSpec

  /** The worker holds the action claim of its current row and has not ended its handler. */
  predicate Owns(sw: Sweep) {
    sw.rows != [] && (sw.phase.Opening? || sw.phase.Ready? || sw.phase.Handling?)
  }

  predicate Honest(s: Outbox, row: Row, status: Status) {
    && (status.Succeeded? ==> (row, Returned) in s.ended)
    && (status.Rejected? ==> (row, Refused) in s.ended)
  }

  /** What a row may be told: an outcome, and a true one. */
  predicate Outcome(s: Outbox, row: Row, status: Status) {
    !status.Processing? && Honest(s, row, status)
  }

  ghost predicate SweepOk(s: Outbox, sw: Sweep) {
    && (forall r <- sw.reports :: Outcome(s, r.row, r.status))
    && (sw.phase.Closing? && sw.rows != [] ==> Outcome(s, sw.rows[0], sw.phase.r.status))
    && (Owns(sw) ==> Action(sw.rows[0]) in s.claims)
    && (Owns(sw) && !sw.phase.Handling? ==> StartsOf(s, sw.rows[0]) == 0)
  }

  ghost predicate RowsOk(s: Outbox) {
    && (forall row <- s.receipts :: Honest(s, row, s.receipts[row].status))
    && (forall r <- s.acked :: Outcome(s, r.row, r.status))
    && (forall row <- s.starts :: s.starts[row] <= 1 && (s.starts[row] > 0 ==> Action(row) in s.claims))
  }

  ghost predicate OneOwner(s: Outbox) {
    forall a <- s.sweeps, b <- s.sweeps ::
      Owns(s.sweeps[a]) && Owns(s.sweeps[b]) && s.sweeps[a].rows[0] == s.sweeps[b].rows[0] ==> a == b
  }

  ghost predicate Inv(s: Outbox) {
    RowsOk(s) && OneOwner(s) && forall w <- s.sweeps :: SweepOk(s, s.sweeps[w])
  }

  /** A worker's sweep moves on without taking a claim or starting a handler; nothing else changes but receipts. */
  lemma Quiet(s: Outbox, t: Outbox, w: Worker)
    requires Inv(s) && RowsOk(t)
    requires t.claims >= s.claims && t.starts == s.starts && t.ended >= s.ended
    requires forall v <- t.sweeps :: v != w ==> v in s.sweeps && t.sweeps[v] == s.sweeps[v]
    requires w in t.sweeps ==> SweepOk(t, t.sweeps[w]) && !Owns(t.sweeps[w])
    ensures Inv(t)
  {
  }

  lemma OnwardKeeps(s: Outbox, w: Worker, sw: Sweep)
    requires Inv(s) && sw.rows != [] && (forall r <- sw.reports :: Outcome(s, r.row, r.status))
    ensures Inv(Onward(s, w, sw))
  {
    Quiet(s, Onward(s, w, sw), w);
  }

  lemma ReportedHonest(s: Outbox, sw: Sweep, status: Status)
    requires sw.rows != [] && (forall r <- sw.reports :: Outcome(s, r.row, r.status)) && Outcome(s, sw.rows[0], status)
    ensures forall r <- Reported(sw, status).reports :: Outcome(s, r.row, r.status)
  {
  }

  lemma ReceiptKeeps(s: Outbox, row: Row, r: Receipt)
    requires Inv(s) && Honest(s, row, r.status)
    ensures Inv(s.(receipts := s.receipts[row := r]))
  {
  }

  lemma LookKeeps(s: Outbox, w: Worker)
    requires Inv(s) && Busy(s, w)
    ensures Inv(LookStep(s, w))
  {
    var sw := s.sweeps[w];
    var row := sw.rows[0];
    if row !in s.receipts { Quiet(s, At(s, w, Fencing), w); }
    else {
      var r := s.receipts[row];
      if !r.status.Processing? {
        ReportedHonest(s, sw, r.status);
        OnwardKeeps(s, w, Reported(sw, r.status));
      } else if s.now - r.startedAt < STALE_MS { OnwardKeeps(s, w, sw); }
      else { Quiet(s, At(s, w, Expire(r)), w); }
    }
  }

  lemma WriteKeeps(s: Outbox, w: Worker, r: Receipt)
    requires Inv(s) && Busy(s, w) && Outcome(s, s.sweeps[w].rows[0], r.status)
    ensures Inv(Onward(s.(receipts := s.receipts[s.sweeps[w].rows[0] := r]), w, Reported(s.sweeps[w], r.status)))
  {
    var sw := s.sweeps[w];
    ReceiptKeeps(s, sw.rows[0], r);
    var t := s.(receipts := s.receipts[sw.rows[0] := r]);
    ReportedHonest(t, sw, r.status);
    OnwardKeeps(t, w, Reported(sw, r.status));
  }

  /** Nobody owns a row whose action is not claimed. */
  lemma ClaimKeeps(s: Outbox, w: Worker)
    requires Inv(s) && Busy(s, w) && s.sweeps[w].phase.Claiming? && Action(s.sweeps[w].rows[0]) !in s.claims
    ensures Inv(At(s.(claims := s.claims + {Action(s.sweeps[w].rows[0])}), w, Opening))
  {
    var row := s.sweeps[w].rows[0];
    assert row in s.starts ==> s.starts[row] == 0;
    assert forall v <- s.sweeps :: Owns(s.sweeps[v]) ==> s.sweeps[v].rows[0] != row;
  }

  lemma OpenKeeps(s: Outbox, w: Worker)
    requires Inv(s) && Busy(s, w) && s.sweeps[w].phase.Opening?
    ensures Inv(At(s.(receipts := s.receipts[s.sweeps[w].rows[0] := Receipt(Processing, s.now)]), w, Ready))
  {
    ReceiptKeeps(s, s.sweeps[w].rows[0], Receipt(Processing, s.now));
  }

  lemma StartKeeps(s: Outbox, w: Worker)
    requires Inv(s) && Busy(s, w) && s.sweeps[w].phase.Ready?
    ensures Inv(At(s.(starts := s.starts[s.sweeps[w].rows[0] := StartsOf(s, s.sweeps[w].rows[0]) + 1]), w,
            Handling(s.now)))
  {
    var row := s.sweeps[w].rows[0];
    assert SweepOk(s, s.sweeps[w]);
    assert forall v <- s.sweeps :: v != w && Owns(s.sweeps[v]) ==> s.sweeps[v].rows[0] != row;
  }

  lemma SetKeeps(s: Outbox, w: Worker)
    requires Inv(s) && w in s.sweeps && Setting(s.sweeps[w].phase)
    ensures Inv(SetStep(s, w))
  {
    assert SweepOk(s, s.sweeps[w]);
    Quiet(s, SetStep(s, w), w);
  }

  lemma AdvanceKeeps(s: Outbox, w: Worker)
    requires Inv(s) && Enabled(s, Advance(w))
    ensures Inv(AdvanceStep(s, w))
  {
    var sw := s.sweeps[w];
    assert SweepOk(s, sw);
    if Setting(sw.phase) {
      SetKeeps(s, w);
    } else {
      match sw.phase
      case Look => LookKeeps(s, w);
      case Expire(r) => WriteKeeps(s, w, r.(status := Unknown));
      case Fencing =>
        if Fence(sw.rows[0]) in s.claims { OnwardKeeps(s, w, sw); } else { Quiet(s, AdvanceStep(s, w), w); }
      case Claiming =>
        if Action(sw.rows[0]) in s.claims { Quiet(s, AdvanceStep(s, w), w); } else { ClaimKeeps(s, w); }
      case Opening => OpenKeeps(s, w);
      case Ready => StartKeeps(s, w);
      case Closing(r) => WriteKeeps(s, w, r);
      case _ =>
    }
  }

  lemma FinishKeeps(s: Outbox, w: Worker, ending: Ending)
    requires Inv(s) && Enabled(s, Finish(w, ending))
    ensures Inv(FinishStep(s, w, ending))
  {
    assert SweepOk(s, s.sweeps[w]);
    Quiet(s, FinishStep(s, w, ending), w);
  }

  lemma AckKeeps(s: Outbox, w: Worker, ok: bool)
    requires Inv(s) && Enabled(s, Ack(w, ok))
    ensures Inv(AckStep(s, w, ok))
  {
    assert SweepOk(s, s.sweeps[w]);
    Quiet(s, AckStep(s, w, ok), w);
  }

  lemma StepKeeps(s: Outbox, step: Step)
    requires Inv(s) && Enabled(s, step)
    ensures Inv(Apply(s, step))
  {
    match step
    case Advance(w) => AdvanceKeeps(s, w);
    case Finish(w, ending) => FinishKeeps(s, w, ending);
    case Ack(w, ok) => AckKeeps(s, w, ok);
    case Pull(w, rows) => Quiet(s, Apply(s, step), w);
    case Stop(w) => Quiet(s, Apply(s, step), w);
    case Pass(_) =>
  }

  lemma {:induction false} RunKeeps(s: Outbox, steps: seq<Step>)
    requires Inv(s) && Possible(s, steps)
    ensures Inv(After(s, steps))
    decreases |steps|
  {
    if steps != [] {
      StepKeeps(s, steps[0]);
      RunKeeps(Apply(s, steps[0]), steps[1..]);
    }
  }

  /**
   Across any number of workers, re-deliveries and stops, on either cursor: each row's handler starts at most once, and
   a receipt or an acknowledgement that says it succeeded means that handler returned, one that says it was rejected
   means that the handler refused.
   */
  lemma AtMostOnce(cursor: Cursor, steps: seq<Step>)
    requires Possible(Fresh(cursor), steps)
    ensures var s := After(Fresh(cursor), steps);
            && (forall row :: StartsOf(s, row) <= 1)
            && (forall row <- s.receipts :: s.receipts[row].status == Succeeded ==> (row, Returned) in s.ended)
            && (forall row <- s.receipts :: s.receipts[row].status == Rejected ==> (row, Refused) in s.ended)
            && (forall r <- s.acked :: r.status != Processing)
            && (forall r <- s.acked :: r.status == Succeeded ==> (r.row, Returned) in s.ended)
            && (forall r <- s.acked :: r.status == Rejected ==> (r.row, Refused) in s.ended)
  {
    RunKeeps(Fresh(cursor), steps);
  }

  /**
   An acknowledgement that is accepted covers exactly the worker's reports; one that fails ends the sweep, no more.
   */
  lemma AckedIff(s: Outbox, w: Worker, ok: bool, r: Report)
    requires Enabled(s, Ack(w, ok))
    ensures var t := Apply(s, Ack(w, ok));
            && (r in t.acked <==> r in s.acked || (ok && r in s.sweeps[w].reports))
            && (w in t.sweeps <==> ok) && (ok ==> t.sweeps[w].phase == Advancing)
            && t.cursor == s.cursor && t.receipts == s.receipts && t.claims == s.claims
  {
  }

  // ---------------------------------------------------------------- the cursor

  /** However sweeps overlap, the file's cursor never goes back. */
  lemma {:induction false} CursorRises(s: Outbox, steps: seq<Step>)
    requires s.cursor.Locked? && Possible(s, steps)
    ensures After(s, steps).cursor.Locked? && Position(s.cursor) <= Position(After(s, steps).cursor)
    decreases |steps|
  {
    if steps != [] { CursorRises(Apply(s, steps[0]), steps[1..]); }
  }

  /** A worker goes on to write the shared cursor if and only if its top is above it; if not, it is done. */
  lemma WritesOnlyHigher(s: Outbox, w: Worker)
    requires s.cursor.Shared? && w in s.sweeps && s.sweeps[w].phase.Advancing?
    ensures Moves(AdvanceStep(s, w), w) <==> Top(s.sweeps[w]) > Position(s.cursor)
    ensures Top(s.sweeps[w]) <= Position(s.cursor) ==> AdvanceStep(s, w) == s.(sweeps := s.sweeps - {w})
  {
  }

  predicate Moves(s: Outbox, w: Worker) {
    w in s.sweeps && s.sweeps[w].phase.Moving?
  }

  predicate Plants(s: Outbox, w: Worker) {
    w in s.sweeps && s.sweeps[w].phase.Planting?
  }

  /** No step takes the cursor back. */
  predicate Rising(s: Outbox, steps: seq<Step>)
    requires Possible(s, steps)
    decreases |steps|
  {
    steps == []
    || (Position(s.cursor) <= Position(Apply(s, steps[0]).cursor) && Rising(Apply(s, steps[0]), steps[1..]))
  }

  /** A worker goes from reading the cursor to writing it only while nobody else stands there. */
  predicate Alone(s: Outbox, step: Step)
    requires Enabled(s, step)
  {
    step.Advance? && !Moves(s, step.w) && Moves(Apply(s, step), step.w) ==>
      forall v <- s.sweeps :: !Moves(s, v) && !Plants(s, v)
  }

  predicate AllAlone(s: Outbox, steps: seq<Step>)
    requires Possible(s, steps)
    decreases |steps|
  {
    steps == [] || (Alone(s, steps[0]) && AllAlone(Apply(s, steps[0]), steps[1..]))
  }

  /** Those about to update carry one top, not below the cursor, nor below what anybody could be the first to insert. */
  predicate Level(s: Outbox) {
    && (forall a <- s.sweeps, b <- s.sweeps :: Moves(s, a) && Moves(s, b) ==> Top(s.sweeps[a]) == Top(s.sweeps[b]))
    && (forall a <- s.sweeps :: Moves(s, a) ==> Position(s.cursor) <= Top(s.sweeps[a]))
    && (s.cursor == Shared([]) ==>
          forall a <- s.sweeps, b <- s.sweeps :: Moves(s, a) && Plants(s, b) ==> Top(s.sweeps[b]) <= Top(s.sweeps[a]))
  }

  lemma LevelEntering(s: Outbox, w: Worker)
    requires s.cursor.Shared? && w in s.sweeps && s.sweeps[w].phase.Advancing? && Top(s.sweeps[w]) > Position(s.cursor)
    requires forall v <- s.sweeps :: !Moves(s, v) && !Plants(s, v)
    ensures Level(At(s, w, Moving))
  {
    var t := At(s, w, Moving);
    assert forall v <- t.sweeps :: Moves(t, v) || Plants(t, v) ==> v == w;
  }

  lemma LevelReading(s: Outbox, w: Worker)
    requires s.cursor.Shared? && Level(s) && w in s.sweeps && s.sweeps[w].phase.Advancing? && Alone(s, Advance(w))
    ensures var t := SetStep(s, w); t.cursor == s.cursor && Level(t)
  {
    if Top(s.sweeps[w]) > Position(s.cursor) {
      assert Moves(Apply(s, Advance(w)), w);
      LevelEntering(s, w);
    } else {
      LevelLeft(s, w);
    }
  }

  lemma LevelLeft(s: Outbox, w: Worker)
    requires Level(s)
    ensures Level(s.(sweeps := s.sweeps - {w}))
  {
  }

  lemma LevelMoving(s: Outbox, w: Worker)
    requires s.cursor.Shared? && Level(s) && Moves(s, w)
    ensures var t := SetStep(s, w); t.cursor.Shared? && Level(t) && Position(s.cursor) <= Position(t.cursor)
  {
    var t := SetStep(s, w);
    if s.cursor.table == [] {
      LevelTurning(s, w);
    } else {
      assert Position(t.cursor) == Top(s.sweeps[w]) && t.cursor.table != [];
      assert forall v <- t.sweeps :: v in s.sweeps && t.sweeps[v] == s.sweeps[v];
    }
  }

  /** An update that found no row. */
  lemma LevelTurning(s: Outbox, w: Worker)
    requires Level(s) && Moves(s, w)
    ensures Level(At(s, w, Planting))
  {
    var t := At(s, w, Planting);
    assert forall v <- t.sweeps :: v != w ==> v in s.sweeps && t.sweeps[v] == s.sweeps[v];
    assert Top(t.sweeps[w]) == Top(s.sweeps[w]);
  }

  lemma LevelPlanting(s: Outbox, w: Worker)
    requires s.cursor.Shared? && Level(s) && Plants(s, w)
    ensures var t := SetStep(s, w); t.cursor.Shared? && Level(t) && Position(s.cursor) <= Position(t.cursor)
  {
    var t := SetStep(s, w);
    assert forall v <- t.sweeps :: v in s.sweeps && t.sweeps[v] == s.sweeps[v];
    assert t.cursor.table != [] && t.cursor.table[0] == if s.cursor.table == [] then Top(s.sweeps[w])
           else s.cursor.table[0];
  }

  lemma LevelSet(s: Outbox, w: Worker)
    requires s.cursor.Shared? && Level(s) && w in s.sweeps && Setting(s.sweeps[w].phase) && Alone(s, Advance(w))
    ensures var t := SetStep(s, w); t.cursor.Shared? && Level(t) && Position(s.cursor) <= Position(t.cursor)
  {
    match s.sweeps[w].phase
    case Advancing => LevelReading(s, w);
    case Moving => LevelMoving(s, w);
    case Planting => LevelPlanting(s, w);
  }

  /** Away from the cursor a step concerns one worker, who stands nowhere near writing it afterwards. */
  predicate Elsewhere(s: Outbox, t: Outbox, w: Worker) {
    && t.cursor == s.cursor
    && (forall v <- t.sweeps :: v != w ==> v in s.sweeps && t.sweeps[v] == s.sweeps[v])
    && !Moves(t, w) && !Plants(t, w)
  }

  /** What the worker has still to do, it had before. */
  predicate Shrinks(s: Outbox, t: Outbox, w: Worker) {
    w in t.sweeps ==> w in s.sweeps && forall row <- t.sweeps[w].rows :: row in s.sweeps[w].rows
  }

  lemma OnwardElsewhere(s: Outbox, from: Outbox, w: Worker, sw: Sweep)
    requires sw.rows != [] && w in s.sweeps && sw.rows == s.sweeps[w].rows
    requires from.cursor == s.cursor && from.sweeps == s.sweeps
    ensures Elsewhere(s, Onward(from, w, sw), w) && Shrinks(s, Onward(from, w, sw), w)
  {
  }

  lemma AtElsewhere(s: Outbox, from: Outbox, w: Worker, phase: Phase)
    requires w in s.sweeps && from.cursor == s.cursor && from.sweeps == s.sweeps && !phase.Moving? && !phase.Planting?
    ensures Elsewhere(s, At(from, w, phase), w) && Shrinks(s, At(from, w, phase), w)
  {
  }

  lemma LookElsewhere(s: Outbox, w: Worker)
    requires Busy(s, w)
    ensures Elsewhere(s, LookStep(s, w), w) && Shrinks(s, LookStep(s, w), w)
  {
    var sw := s.sweeps[w];
    var row := sw.rows[0];
    if row !in s.receipts {
      AtElsewhere(s, s, w, Fencing);
    } else if !s.receipts[row].status.Processing? {
      OnwardElsewhere(s, s, w, Reported(sw, s.receipts[row].status));
    } else if s.now - s.receipts[row].startedAt < STALE_MS {
      OnwardElsewhere(s, s, w, sw);
    } else {
      AtElsewhere(s, s, w, Expire(s.receipts[row]));
    }
  }

  lemma ClaimElsewhere(s: Outbox, w: Worker)
    requires Busy(s, w) && (s.sweeps[w].phase.Fencing? || s.sweeps[w].phase.Claiming?)
    ensures Elsewhere(s, AdvanceStep(s, w), w) && Shrinks(s, AdvanceStep(s, w), w)
  {
    var sw := s.sweeps[w];
    var row := sw.rows[0];
    if sw.phase.Fencing? {
      if Fence(row) in s.claims {
        OnwardElsewhere(s, s, w, sw);
      } else {
        AtElsewhere(s, s.(claims := s.claims + {Fence(row)}), w, Claiming);
      }
    } else if Action(row) in s.claims {
      AtElsewhere(s, s, w, Closing(Receipt(Unknown, s.now)));
    } else {
      AtElsewhere(s, s.(claims := s.claims + {Action(row)}), w, Opening);
    }
  }

  lemma AdvanceElsewhere(s: Outbox, w: Worker)
    requires Enabled(s, Advance(w)) && !Setting(s.sweeps[w].phase)
    ensures Elsewhere(s, AdvanceStep(s, w), w) && Shrinks(s, AdvanceStep(s, w), w)
  {
    var sw := s.sweeps[w];
    var row := sw.rows[0];
    match sw.phase
    case Look => LookElsewhere(s, w);
    case Expire(r) =>
      OnwardElsewhere(s, s.(receipts := s.receipts[row := r.(status := Unknown)]), w, Reported(sw, Unknown));
    case Fencing => ClaimElsewhere(s, w);
    case Claiming => ClaimElsewhere(s, w);
    case Opening => AtElsewhere(s, s.(receipts := s.receipts[row := Receipt(Processing, s.now)]), w, Ready);
    case Ready => AtElsewhere(s, s.(starts := s.starts[row := StartsOf(s, row) + 1]), w, Handling(s.now));
    case Closing(r) => OnwardElsewhere(s, s.(receipts := s.receipts[row := r]), w, Reported(sw, r.status));
    case _ =>
  }

  /** The worker a step is of. */
  function Of(step: Step): Worker {
    match step
    case Pull(w, _) => w
    case Advance(w) => w
    case Finish(w, _) => w
    case Ack(w, _) => w
    case Stop(w) => w
    case Pass(_) => 0
  }

  predicate SetsCursor(s: Outbox, step: Step) {
    step.Advance? && step.w in s.sweeps && Setting(s.sweeps[step.w].phase)
  }

  lemma StepElsewhere(s: Outbox, step: Step)
    requires Enabled(s, step) && !SetsCursor(s, step) && !step.Pass?
    ensures Elsewhere(s, Apply(s, step), Of(step))
    ensures !step.Pull? ==> Shrinks(s, Apply(s, step), Of(step))
  {
    match step
    case Advance(w) => AdvanceElsewhere(s, w);
    case _ =>
  }

  lemma LevelElsewhere(s: Outbox, step: Step)
    requires s.cursor.Shared? && Level(s) && Enabled(s, step) && !SetsCursor(s, step)
    ensures var t := Apply(s, step); t.cursor == s.cursor && Level(t)
  {
    if !step.Pass? { StepElsewhere(s, step); }
  }

  lemma {:induction false} LevelRun(s: Outbox, steps: seq<Step>)
    requires s.cursor.Shared? && Level(s) && Possible(s, steps) && AllAlone(s, steps)
    ensures Rising(s, steps)
    decreases |steps|
  {
    if steps != [] {
      var step := steps[0];
      if SetsCursor(s, step) { LevelSet(s, step.w); } else { LevelElsewhere(s, step); }
      LevelRun(Apply(s, step), steps[1..]);
    }
  }

  lemma Prepended(s: Outbox, step: Step, rest: seq<Step>)
    requires Enabled(s, step) && Possible(Apply(s, step), rest)
    ensures Possible(s, [step] + rest) && After(s, [step] + rest) == After(Apply(s, step), rest)
    ensures AllAlone(s, [step] + rest) <==> Alone(s, step) && AllAlone(Apply(s, step), rest)
    ensures Rising(s, [step] + rest)
            <==> Position(s.cursor) <= Position(Apply(s, step).cursor) && Rising(Apply(s, step), rest)
  {
    assert ([step] + rest)[1..] == rest;
  }

  /** A position above what this worker is about to write: its write takes the cursor back. */
  lemma LowWrite(s: Outbox, w: Worker) returns (steps: seq<Step>)
    requires s.cursor.Shared? && Moves(s, w) && Top(s.sweeps[w]) < Position(s.cursor)
    ensures Possible(s, steps) && AllAlone(s, steps) && !Rising(s, steps)
  {
    Prepended(s, Advance(w), []);
    steps := [Advance(w)] + [];
  }

  /** Somebody first puts a higher position in place. */
  lemma HighThenLow(s: Outbox, high: Worker, low: Worker) returns (steps: seq<Step>)
    requires s.cursor.Shared? && Moves(s, low) && high in s.sweeps && Top(s.sweeps[low]) < Top(s.sweeps[high])
    requires Moves(s, high) || (Plants(s, high) && s.cursor == Shared([]))
    ensures Possible(s, steps) && AllAlone(s, steps) && !Rising(s, steps)
    decreases Moves(s, high)
  {
    var t := Apply(s, Advance(high));
    assert low in t.sweeps && t.sweeps[low] == s.sweeps[low];
    var rest;
    if Moves(s, high) && s.cursor == Shared([]) {
      assert Plants(t, high) && t.sweeps[high].reports == s.sweeps[high].reports;
      rest := HighThenLow(t, high, low);
    } else {
      rest := LowWrite(t, low);
    }
    Prepended(s, Advance(high), rest);
    steps := [Advance(high)] + rest;
  }

  lemma Falls(s: Outbox) returns (steps: seq<Step>)
    requires s.cursor.Shared? && !Level(s)
    ensures Possible(s, steps) && AllAlone(s, steps) && !Rising(s, steps)
  {
    if w :| w in s.sweeps && Moves(s, w) && Top(s.sweeps[w]) < Position(s.cursor) {
      steps := LowWrite(s, w);
    } else if a, b :| (
        && a in s.sweeps && b in s.sweeps && Moves(s, a) && Moves(s, b)
        && Top(s.sweeps[a]) < Top(s.sweeps[b])) {
      steps := HighThenLow(s, b, a);
    } else {
      var a, b :| a in s.sweeps && b in s.sweeps && s.cursor == Shared([]) && Moves(s, a) && Plants(s, b)
                  && Top(s.sweeps[a]) < Top(s.sweeps[b]);
      steps := HighThenLow(s, b, a);
    }
  }

  /**
   The cursor the workers share never goes back, in any continuation in which a worker starts writing it only while
   nobody else is, if and only if those who stand before an update now carry one top, not below the cursor, nor, while
   the table has no row, below what somebody stands before inserting.
   */
  lemma NeverFallsIff(s: Outbox)
    requires s.cursor.Shared?
    ensures (forall steps :: Possible(s, steps) && AllAlone(s, steps) ==> Rising(s, steps)) <==> Level(s)
  {
    if Level(s) {
      forall steps | Possible(s, steps) && AllAlone(s, steps) ensures Rising(s, steps) { LevelRun(s, steps); }
    } else {
      var steps := Falls(s);
    }
  }

  // ---------------------------------------------------------------- rows left behind

  lemma {:induction false} MaxBounds(reports: seq<Report>)
    requires reports != []
    ensures forall r <- reports :: r.row <= Max(reports)
    ensures exists r <- reports :: r.row == Max(reports)
    decreases |reports|
  {
    if |reports| > 1 {
      MaxBounds(reports[1..]);
      assert reports == [reports[0]] + reports[1..];
    } else {
      assert reports[0] in reports;
    }
  }

  predicate Ahead(s: Outbox, row: Row) {
    exists w <- s.sweeps :: row in s.sweeps[w].rows
  }

  /** Somebody is about to write a position below the row. */
  predicate BroughtBack(s: Outbox, row: Row) {
    exists w <- s.sweeps :: Moves(s, w) && Top(s.sweeps[w]) < row
  }

  /** Behind the cursor, in nobody's batch, and nobody about to take the cursor back behind it. */
  predicate Passed(s: Outbox, row: Row) {
    Position(s.cursor) >= row && !Ahead(s, row) && (s.cursor.Shared? ==> !BroughtBack(s, row))
  }

  lemma PassedSet(s: Outbox, w: Worker, row: Row)
    requires Passed(s, row) && Enabled(s, Advance(w)) && Setting(s.sweeps[w].phase)
    ensures Passed(SetStep(s, w), row)
  {
  }

  lemma PassedElsewhere(s: Outbox, step: Step, row: Row)
    requires Passed(s, row) && Enabled(s, step) && !SetsCursor(s, step)
    ensures Passed(Apply(s, step), row)
  {
    if !step.Pass? { StepElsewhere(s, step); }
  }

  lemma PassedStep(s: Outbox, step: Step, row: Row)
    requires Passed(s, row) && Enabled(s, step)
    ensures Passed(Apply(s, step), row)
  {
    if SetsCursor(s, step) { PassedSet(s, step.w, row); } else { PassedElsewhere(s, step, row); }
  }

  lemma {:induction false} PassedForGood(s: Outbox, steps: seq<Step>, row: Row)
    requires Passed(s, row) && Possible(s, steps)
    ensures Passed(After(s, steps), row)
    decreases |steps|
  {
    if steps != [] {
      PassedStep(s, steps[0], row);
      PassedForGood(Apply(s, steps[0]), steps[1..], row);
    }
  }

  lemma {:induction false} NewWorker(ws: set<Worker>) returns (w: Worker)
    ensures forall v <- ws :: v < w
  {
    if ws == {} { return 0; }
    var v :| v in ws;
    var rest := NewWorker(ws - {v});
    assert forall u <- ws :: u == v || u in ws - {v};
    w := if v < rest then rest else v + 1;
  }

  lemma PulledAgain(s: Outbox, row: Row) returns (steps: seq<Step>)
    requires Position(s.cursor) < row
    ensures Possible(s, steps) && Ahead(After(s, steps), row)
  {
    var w := NewWorker(s.sweeps.Keys);
    var pulled := Apply(s, Pull(w, [row]));
    assert w in pulled.sweeps && row in pulled.sweeps[w].rows;
    Prepended(s, Pull(w, [row]), []);
    steps := [Pull(w, [row])] + [];
  }

  lemma StillAhead(s: Outbox, row: Row) returns (steps: seq<Step>)
    requires !Passed(s, row)
    ensures Possible(s, steps) && Ahead(After(s, steps), row)
  {
    if Ahead(s, row) {
      steps := [];
    } else if Position(s.cursor) < row {
      steps := PulledAgain(s, row);
    } else {
      var w :| w in s.sweeps && Moves(s, w) && Top(s.sweeps[w]) < row;
      var t := Apply(s, Advance(w));
      assert Position(t.cursor) == Top(s.sweeps[w]);
      var rest := PulledAgain(t, row);
      Prepended(s, Advance(w), rest);
      steps := [Advance(w)] + rest;
    }
  }

  /** In every continuation the row is in nobody's batch. */
  ghost predicate NeverAgain(s: Outbox, row: Row) {
    forall steps :: Possible(s, steps) ==> !Ahead(After(s, steps), row)
  }

  /**
   Nobody ever works on a row again if and only if it is behind the cursor, in nobody's batch, and no worker on the
   shared cursor stands before writing a position below it.
   */
  lemma NeverAgainIff(s: Outbox, row: Row)
    ensures NeverAgain(s, row) <==> Passed(s, row)
  {
    if Passed(s, row) {
      forall steps | Possible(s, steps) ensures !Ahead(After(s, steps), row) { PassedForGood(s, steps, row); }
    } else {
      var steps := StillAhead(s, row);
    }
  }

  /** The worker's next step puts its top in place. */
  predicate Writes(s: Outbox, w: Worker) {
    && w in s.sweeps && s.sweeps[w].reports != []
    && match s.cursor
       case Locked(at) => s.sweeps[w].phase.Advancing?
       case Shared(table) => if table == [] then Plants(s, w) else Moves(s, w)
  }

  /**
   A worker that skipped a row, because another is on it, writes the cursor. From then on, in every continuation, nobody
   works on that row again if and only if some later row of the batch was reported, no other worker still has it, and no
   other stands before writing a position below it.
   */
  lemma SkippedRowPassedIff(s: Outbox, w: Worker, row: Row)
    requires Writes(s, w) && Position(s.cursor) < row
    requires forall r <- s.sweeps[w].reports :: r.row != row
    ensures var t := AdvanceStep(s, w);
            NeverAgain(t, row)
            <==> (exists r <- s.sweeps[w].reports :: r.row > row)
                 && (forall v <- s.sweeps :: v != w ==> row !in s.sweeps[v].rows)
                 && (s.cursor.Shared? ==> forall v <- s.sweeps :: v != w && Moves(s, v) ==> Top(s.sweeps[v]) >= row)
  {
    MaxBounds(s.sweeps[w].reports);
    var t := AdvanceStep(s, w);
    NeverAgainIff(t, row);
    assert forall v <- s.sweeps :: v != w ==> v in t.sweeps && t.sweeps[v] == s.sweeps[v];
    assert Position(t.cursor) >= row <==> Top(s.sweeps[w]) >= row;
  }

  // ---------------------------------------------------------------- runs from the empty store

  lemma {:induction false} Then(s: Outbox, steps: seq<Step>, step: Step)
    requires Possible(s, steps) && Enabled(After(s, steps), step)
    ensures Possible(s, steps + [step]) && After(s, steps + [step]) == Apply(After(s, steps), step)
    decreases |steps|
  {
    if steps == [] {
      assert [step][1..] == [];
      assert steps + [step] == [step];
    } else {
      Then(Apply(s, steps[0]), steps[1..], step);
      assert (steps + [step])[1..] == steps[1..] + [step];
    }
  }

  lemma ThenTo(steps: seq<Step>, step: Step, s: Outbox, t: Outbox) returns (more: seq<Step>)
    requires Possible(Empty, steps) && After(Empty, steps) == s && Enabled(s, step) && Apply(s, step) == t
    ensures Possible(Empty, more) && After(Empty, more) == t
  {
    Then(Empty, steps, step);
    more := steps + [step];
  }

  predicate Untouched(s: Outbox, row: Row) {
    row !in s.receipts && Fence(row) !in s.claims && Action(row) !in s.claims && row !in s.starts
  }

  function Fenced(s: Outbox, w: Worker, row: Row): Outbox {
    s.(claims := s.claims + {Fence(row)}, sweeps := s.sweeps[w := Sweep([row], [], Claiming)])
  }

  function Claimed(s: Outbox, w: Worker, row: Row): Outbox {
    s.(claims := s.claims + {Fence(row)} + {Action(row)}, sweeps := s.sweeps[w := Sweep([row], [], Opening)])
  }

  function Begun(s: Outbox, w: Worker, row: Row): Outbox {
    s.(claims := s.claims + {Fence(row)} + {Action(row)}, receipts := s.receipts[row := Receipt(Processing, s.now)],
       starts := s.starts[row := 1], sweeps := s.sweeps[w := Sweep([row], [], Handling(s.now))])
  }

  function Ended(s: Outbox, w: Worker, row: Row, at: nat): Outbox {
    s.(receipts := s.receipts[row := Receipt(Succeeded, at)], ended := s.ended + {(row, Returned)},
       acked := s.acked + {Report(row, Succeeded)},
       sweeps := s.sweeps[w := Sweep([], [Report(row, Succeeded)], Advancing)])
  }

  /** A worker fences the one row it has left. */
  lemma Fences(before: seq<Step>, s: Outbox, w: Worker, row: Row) returns (steps: seq<Step>)
    requires Possible(Empty, before) && After(Empty, before) == s && Untouched(s, row)
    requires w in s.sweeps && s.sweeps[w] == Sweep([row], [], Look)
    ensures Possible(Empty, steps) && After(Empty, steps) == Fenced(s, w, row)
  {
    var s1 := At(s, w, Fencing);
    steps := ThenTo(before, Advance(w), s, s1);
    assert s1.sweeps[w := Sweep([row], [], Claiming)] == s.sweeps[w := Sweep([row], [], Claiming)];
    steps := ThenTo(steps, Advance(w), s1, Fenced(s, w, row));
  }

  /** It claims it. */
  lemma ClaimsIt(before: seq<Step>, s: Outbox, w: Worker, row: Row) returns (steps: seq<Step>)
    requires Possible(Empty, before) && After(Empty, before) == s && Untouched(s, row)
    requires w in s.sweeps && s.sweeps[w] == Sweep([row], [], Look)
    ensures Possible(Empty, steps) && After(Empty, steps) == Claimed(s, w, row)
  {
    steps := Fences(before, s, w, row);
    assert Fenced(s, w, row).sweeps[w := Sweep([row], [], Opening)] == s.sweeps[w := Sweep([row], [], Opening)];
    steps := ThenTo(steps, Advance(w), Fenced(s, w, row), Claimed(s, w, row));
  }

  /** And it starts the handler. */
  lemma Begins(before: seq<Step>, s: Outbox, w: Worker, row: Row) returns (steps: seq<Step>)
    requires Possible(Empty, before) && After(Empty, before) == s && Untouched(s, row)
    requires w in s.sweeps && s.sweeps[w] == Sweep([row], [], Look)
    ensures Possible(Empty, steps) && After(Empty, steps) == Begun(s, w, row)
  {
    steps := ClaimsIt(before, s, w, row);
    var s3 := Claimed(s, w, row);
    var s4 := At(s3.(receipts := s.receipts[row := Receipt(Processing, s.now)]), w, Ready);
    steps := ThenTo(steps, Advance(w), s3, s4);
    assert s4.sweeps[w := Sweep([row], [], Handling(s.now))] == s.sweeps[w := Sweep([row], [], Handling(s.now))];
    steps := ThenTo(steps, Advance(w), s4, Begun(s, w, row));
  }

  /** The handler returns, and the row is reported and acknowledged. */
  lemma Ends(before: seq<Step>, s: Outbox, w: Worker, row: Row, at: nat) returns (steps: seq<Step>)
    requires Possible(Empty, before) && After(Empty, before) == s
    requires w in s.sweeps && s.sweeps[w] == Sweep([row], [], Handling(at))
    ensures Possible(Empty, steps) && After(Empty, steps) == Ended(s, w, row, at)
  {
    var s1 := At(s.(ended := s.ended + {(row, Returned)}), w, Closing(Receipt(Succeeded, at)));
    steps := ThenTo(before, Finish(w, Returned), s, s1);
    var reports := [Report(row, Succeeded)];
    var s2 := s1.(receipts := s.receipts[row := Receipt(Succeeded, at)],
        sweeps := s.sweeps[w := Sweep([], reports, Acking)]);
    assert [row][1..] == [] && [] + reports == reports;
    assert s1.sweeps[w := Sweep([], reports, Acking)] == s.sweeps[w := Sweep([], reports, Acking)];
    steps := ThenTo(steps, Advance(w), s1, s2);
    assert (set r | r in reports) == {Report(row, Succeeded)};
    assert s2.sweeps[w := Sweep([], reports, Advancing)] == s.sweeps[w := Sweep([], reports, Advancing)];
    steps := ThenTo(steps, Ack(w, true), s2, Ended(s, w, row, at));
  }

  /** A worker pulls one row, handles it and stands before setting the cursor. */
  lemma Delivers(before: seq<Step>, s: Outbox, w: Worker, row: Row) returns (steps: seq<Step>)
    requires Possible(Empty, before) && After(Empty, before) == s && Untouched(s, row)
    requires w !in s.sweeps && row > Position(s.cursor)
    ensures Possible(Empty, steps)
    ensures var t := After(Empty, steps);
            && t.sweeps == s.sweeps[w := Sweep([], [Report(row, Succeeded)], Advancing)] && t.cursor == s.cursor
            && t.claims == s.claims + {Fence(row)} + {Action(row)} && t.receipts.Keys == s.receipts.Keys + {row}
            && t.starts.Keys == s.starts.Keys + {row}
  {
    var s1 := s.(sweeps := s.sweeps[w := Sweep([row], [], Look)]);
    steps := ThenTo(before, Pull(w, [row]), s, s1);
    steps := Begins(steps, s1, w, row);
    var s2 := Begun(s1, w, row);
    steps := Ends(steps, s2, w, row, s.now);
    assert s2.sweeps[w := Sweep([], [Report(row, Succeeded)], Advancing)]
           == s.sweeps[w := Sweep([], [Report(row, Succeeded)], Advancing)];
  }

  /** One worker past its acknowledgement reads a cursor below its top. */
  lemma ReadsBelow(before: seq<Step>, s: Outbox, w: Worker) returns (steps: seq<Step>)
    requires Possible(Empty, before) && After(Empty, before) == s && s.cursor.Shared?
    requires w in s.sweeps && s.sweeps[w].rows == [] && s.sweeps[w].phase == Advancing
             && Top(s.sweeps[w]) > Position(s.cursor)
    ensures Possible(Empty, steps) && After(Empty, steps) == At(s, w, Moving)
  {
    steps := ThenTo(before, Advance(w), s, At(s, w, Moving));
  }

  /** Two workers have delivered a row each, and nobody has set the cursor. */
  lemma BothDelivered() returns (steps: seq<Step>)
    ensures Possible(Empty, steps) && After(Empty, steps).cursor == Shared([])
    ensures After(Empty, steps).sweeps
            == map[1 := Sweep([], [Report(5, Succeeded)], Advancing),
                2 := Sweep([], [Report(10, Succeeded)], Advancing)]
  {
    steps := Delivers([], Empty, 1, 5);
    steps := Delivers(steps, After(Empty, steps), 2, 10);
  }

  /** Both have read the empty cursor, one about to write 5, the other 10. */
  lemma BothRead() returns (steps: seq<Step>)
    ensures Possible(Empty, steps) && After(Empty, steps).cursor == Shared([])
    ensures After(Empty, steps).sweeps
            == map[1 := Sweep([], [Report(5, Succeeded)], Moving), 2 := Sweep([], [Report(10, Succeeded)], Moving)]
  {
    steps := BothDelivered();
    var s := After(Empty, steps);
    steps := ReadsBelow(steps, s, 1);
    steps := ReadsBelow(steps, At(s, 1, Moving), 2);
  }

  /** From the empty store: two overlapping sweeps set the shared cursor to 10, then back to 5. */
  lemma CursorFalls() returns (steps: seq<Step>, step: Step)
    ensures Possible(Empty, steps) && Position(After(Empty, steps).cursor) == 10
    ensures Enabled(After(Empty, steps), step) && Position(Apply(After(Empty, steps), step).cursor) == 5
  {
    steps := BothRead();
    var s := After(Empty, steps);
    var s1 := At(s, 2, Planting);
    steps := ThenTo(steps, Advance(2), s, s1);
    var s2 := s1.(sweeps := s1.sweeps - {2}, cursor := Shared([10]));
    assert [] + [10] == [10] && Top(s1.sweeps[2]) == 10;
    steps := ThenTo(steps, Advance(2), s1, s2);
    step := Advance(1);
    assert s2.sweeps[1] == s.sweeps[1] && Top(s2.sweeps[1]) == 5;
  }

  // ---------------------------------------------------------------- a row the cursor leaves behind

  /** Nobody has or reports the row, or ever will. */
  predicate Forgotten(s: Outbox, row: Row) {
    Passed(s, row) && Unreported(s, row)
  }

  /** What is on record about the row. */
  predicate SameRecord(s: Outbox, t: Outbox, row: Row) {
    && (row in s.receipts <==> row in t.receipts) && (row in s.receipts ==> s.receipts[row] == t.receipts[row])
    && forall status :: Report(row, status) in s.acked <==> Report(row, status) in t.acked
  }

  predicate Unreported(s: Outbox, row: Row) {
    forall w <- s.sweeps, r <- s.sweeps[w].reports :: r.row != row
  }

  lemma AdvanceSilent(s: Outbox, w: Worker, row: Row)
    requires Unreported(s, row) && !Ahead(s, row) && Enabled(s, Advance(w)) && !Setting(s.sweeps[w].phase)
    ensures Unreported(AdvanceStep(s, w), row)
  {
    assert s.sweeps[w].rows[0] in s.sweeps[w].rows;
  }

  lemma AdvanceRecords(s: Outbox, w: Worker, row: Row)
    requires !Ahead(s, row) && Enabled(s, Advance(w)) && !Setting(s.sweeps[w].phase)
    ensures SameRecord(s, AdvanceStep(s, w), row)
  {
    assert s.sweeps[w].rows[0] in s.sweeps[w].rows;
  }

  lemma SetSilent(s: Outbox, w: Worker, row: Row)
    requires Unreported(s, row) && w in s.sweeps && Setting(s.sweeps[w].phase)
    ensures Unreported(SetStep(s, w), row) && SameRecord(s, SetStep(s, w), row)
  {
  }

  lemma OtherSilent(s: Outbox, step: Step, row: Row)
    requires Unreported(s, row) && Enabled(s, step) && !step.Advance?
    ensures Unreported(Apply(s, step), row) && SameRecord(s, Apply(s, step), row)
  {
  }

  lemma ForgottenStep(s: Outbox, step: Step, row: Row)
    requires Forgotten(s, row) && Enabled(s, step)
    ensures Forgotten(Apply(s, step), row) && SameRecord(s, Apply(s, step), row)
  {
    PassedStep(s, step, row);
    if SetsCursor(s, step) {
      SetSilent(s, step.w, row);
    } else if step.Advance? {
      AdvanceSilent(s, step.w, row);
      AdvanceRecords(s, step.w, row);
    } else {
      OtherSilent(s, step, row);
    }
  }

  lemma {:induction false} ForgottenForGood(s: Outbox, steps: seq<Step>, row: Row)
    requires Forgotten(s, row) && Possible(s, steps)
    ensures SameRecord(s, After(s, steps), row)
    decreases |steps|
  {
    if steps != [] {
      ForgottenStep(s, steps[0], row);
      ForgottenForGood(Apply(s, steps[0]), steps[1..], row);
    }
  }

  /** Row 1 was begun by a worker that stopped. */
  lemma BegunAndLeft() returns (steps: seq<Step>)
    ensures Possible(Empty, steps)
    ensures After(Empty, steps) == Begun(Empty, 2, 1).(sweeps := map[])
  {
    var s1 := Empty.(sweeps := map[2 := Sweep([1], [], Look)]);
    steps := ThenTo([], Pull(2, [1]), Empty, s1);
    steps := Begins(steps, s1, 2, 1);
    var s2 := Begun(s1, 2, 1);
    assert s2.sweeps - {2} == map[];
    steps := ThenTo(steps, Stop(2), s2, s2.(sweeps := map[]));
  }

  /** Row 1 was begun by a worker that stopped; another has row 2 acknowledged and stands before the cursor. */
  lemma PassesOver() returns (steps: seq<Step>)
    ensures Possible(Empty, steps)
    ensures var s := After(Empty, steps);
            && s.sweeps == map[1 := Sweep([], [Report(2, Succeeded)], Advancing)]
            && s.cursor == Shared([]) && s.now == 0
            && 1 in s.receipts && s.receipts[1] == Receipt(Processing, 0) && forall r <- s.acked :: r.row != 1
  {
    steps := BegunAndLeft();
    var s3 := Begun(Empty, 2, 1).(sweeps := map[]);
    steps := ThenTo(steps, Pull(1, [1, 2]), s3, s3.(sweeps := map[1 := Sweep([1, 2], [], Look)]));
    assert [1, 2][1..] == [2];
    var s4 := s3.(sweeps := map[1 := Sweep([2], [], Look)]);
    steps := ThenTo(steps, Advance(1), s3.(sweeps := map[1 := Sweep([1, 2], [], Look)]), s4);
    steps := Begins(steps, s4, 1, 2);
    steps := Ends(steps, Begun(s4, 1, 2), 1, 2, 0);
  }

  /**
   From the empty store: a row begun by a worker that stopped is passed over while its beginning is fresh, and the
   cursor moves past it. Its receipt says processing for ever, and it is never acknowledged, in any continuation.
   */
  lemma RowLost() returns (steps: seq<Step>)
    ensures Possible(Empty, steps) && Position(After(Empty, steps).cursor) == 2
    ensures forall more :: Possible(After(Empty, steps), more) ==>
              var t := After(After(Empty, steps), more);
              1 in t.receipts && t.receipts[1].status.Processing? && forall r <- t.acked :: r.row != 1
  {
    steps := PassesOver();
    var s := After(Empty, steps);
    assert Top(s.sweeps[1]) == 2 && [] + [2] == [2];
    steps := ThenTo(steps, Advance(1), s, At(s, 1, Moving));
    steps := ThenTo(steps, Advance(1), At(s, 1, Moving), At(s, 1, Planting));
    var t := s.(sweeps := map[], cursor := Shared([2]));
    assert At(s, 1, Planting).sweeps - {1} == map[];
    steps := ThenTo(steps, Advance(1), At(s, 1, Planting), t);
    forall more | Possible(t, more)
      ensures var u := After(t, more);
              && 1 in u.receipts && u.receipts[1].status.Processing?
              && forall r <- u.acked :: r.row != 1
    {
      ForgottenForGood(t, more, 1);
    }
  }

  /** It is the cursor that loses it: had the worker stopped before setting it, the row would be reported in time. */
  lemma RowFoundWithoutTheCursor() returns (steps: seq<Step>, more: seq<Step>)
    ensures Possible(Empty, steps) && 1 in After(Empty, steps).sweeps && After(Empty, steps).sweeps[1].phase.Advancing?
    ensures 1 in After(Empty, steps).receipts && After(Empty, steps).receipts[1].status.Processing?
    ensures Possible(Empty, more) && steps < more && more[|steps|] == Stop(1)
    ensures Report(1, Unknown) in After(Empty, more).acked
  {
    steps := PassesOver();
    var s := After(Empty, steps);
    var s1 := s.(sweeps := map[]);
    assert s.sweeps - {1} == map[];
    Then(Empty, steps, Stop(1));
    more := steps + [Stop(1)];
    more := FoundStale(more, s1, steps + [Stop(1)]);
  }

  lemma FoundStale(before: seq<Step>, s: Outbox, prefix: seq<Step>) returns (more: seq<Step>)
    requires Possible(Empty, before) && After(Empty, before) == s && prefix <= before
    requires s.sweeps == map[] && s.cursor == Shared([]) && s.now == 0
    requires 1 in s.receipts && s.receipts[1] == Receipt(Processing, 0)
    ensures Possible(Empty, more) && prefix <= more && Report(1, Unknown) in After(Empty, more).acked
  {
    Then(Empty, before, Pass(STALE_MS));
    more := before + [Pass(STALE_MS)];
    var s1 := s.(now := STALE_MS);
    Then(Empty, more, Pull(3, [1]));
    more := more + [Pull(3, [1])];
    var s2 := s1.(sweeps := map[3 := Sweep([1], [], Look)]);
    Then(Empty, more, Advance(3));
    more := more + [Advance(3)];
    var s3 := s1.(sweeps := map[3 := Sweep([1], [], Expire(Receipt(Processing, 0)))]);
    assert After(Empty, more) == s3;
    more := ReportsStale(more, s3, prefix);
  }

  lemma ReportsStale(before: seq<Step>, s3: Outbox, prefix: seq<Step>) returns (more: seq<Step>)
    requires Possible(Empty, before) && After(Empty, before) == s3 && prefix <= before
    requires s3.sweeps == map[3 := Sweep([1], [], Expire(Receipt(Processing, 0)))]
    ensures Possible(Empty, more) && prefix <= more && Report(1, Unknown) in After(Empty, more).acked
  {
    more := before;
    Then(Empty, more, Advance(3));
    more := more + [Advance(3)];
    assert [1][1..] == [] && [] + [Report(1, Unknown)] == [Report(1, Unknown)];
    var s4 := s3.(receipts := s3.receipts[1 := Receipt(Unknown, 0)],
                  sweeps := map[3 := Sweep([], [Report(1, Unknown)], Acking)]);
    assert After(Empty, more) == s4;
    Then(Empty, more, Ack(3, true));
    more := more + [Ack(3, true)];
  }
}
