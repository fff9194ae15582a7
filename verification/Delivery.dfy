/**
 Delivery records: a state machine moved by compare-and-swap, with a rollback recorded beside the state.
 Any number of movers read the record, compute its successor and try to swap it in, up to three times.
 */
module DeliverySpec {
  import opened Options

  type Id = string

  datatype State = Proposed | Approved | Executing | Confirmed | Unknown | Failed | Held
  datatype Field = Destination | RecoveryVersion | Actor | Policy | Reason | ArtifactDigest | ConfigIdentity
                 | Health | HealthReason | MergedSha | ReviewedHead
  datatype RollbackState = Requested | Running | Done | Broken

  datatype Rollback = Rollback(state: RollbackState, actor: string, reason: string, requestedAt: nat,
                               claimedAt: Option<nat>, finishedAt: Option<nat>, evidence: Option<string>)

  datatype Record = Record(id: Id, state: State, fields: map<Field, string>, rollback: Option<Rollback>, updatedAt: nat)

  predicate Allowed(from: State, to: State) {
    match from
    case Proposed => to.Approved? || to.Held?
    case Approved => to.Executing? || to.Held?
    case Executing => to.Confirmed? || to.Unknown? || to.Failed? || to.Held?
    case Unknown => to.Confirmed? || to.Failed? || to.Held?
    case Failed => to.Held? || to.Approved?
    case Held => to.Approved?
    case Confirmed => false
  }

  function Required(to: State): set<Field> {
    match to
    case Approved => {Destination, RecoveryVersion, Actor}
    case Confirmed => {ArtifactDigest, Health}
    case _ => {}
  }

  predicate Has(r: Record, f: Field) {
    f in r.fields && r.fields[f] != ""
  }

  predicate Complete(r: Record) {
    forall f <- Required(r.state) :: Has(r, f)
  }

  datatype Move =
    | Transition(from: State, to: State, patch: map<Field, string>)
    | Request(actor: string, reason: string)
    | Claim
    | Finish(outcome: Rollback)

  /** What a mover makes of the record it read. */
  datatype Answer = Next(record: Record) | Stands(record: Record) | Refused

  predicate MayRequest(r: Record) {
    r.state.Confirmed? && Has(r, RecoveryVersion) && (r.rollback.None? || r.rollback.value.state.Broken?)
  }

  predicate RollbackIs(r: Record, state: RollbackState) {
    r.rollback.Some? && r.rollback.value.state == state
  }

  function Attempt(move: Move, current: Record, now: nat): Answer {
    match move
    case Transition(from, to, patch) =>
      if !Allowed(from, to) then Refused
      else if current.state != from then Stands(current)
      else
        var next := current.(state := to, fields := current.fields + patch, updatedAt := now);
        if Complete(next) then Next(next) else Refused
    case Request(actor, reason) =>
      if MayRequest(current) then
          Next(current.(rollback := Some(Rollback(Requested, actor, reason, now, None, None, None))))
      else Refused
    case Claim =>
      if RollbackIs(current, Requested)
      then Next(current.(rollback := Some(current.rollback.value.(state := Running, claimedAt := Some(now)))))
      else Stands(current)
    case Finish(outcome) =>
      if RollbackIs(current, Running) then Next(current.(rollback := Some(outcome))) else Stands(current)
  }

  // ---------------------------------------------------------------- an operator's approval

  datatype Approval = Approval(destination: string, recoveryVersion: string, actor: string, reason: Option<string>)

  predicate Approvable(state: State) {
    state.Proposed? || state.Held? || state.Failed?
  }

  function Name(state: State): string {
    match state
    case Proposed => "proposed"
    case Approved => "approved"
    case Executing => "executing"
    case Confirmed => "confirmed"
    case Unknown => "unknown"
    case Failed => "failed"
    case Held => "held"
  }

  /** The reason an approval records: the operator's own, or for a re-approval why it was needed. */
  function ApprovalReason(current: Record, a: Approval): Option<string> {
    if a.reason.Some? && a.reason.value != "" then a.reason
    else if current.state.Proposed? then None
    else Some("re-approved after " + Name(current.state) + ": "
              + (if Reason in current.fields then current.fields[Reason] else "no reason recorded"))
  }

  /** The move an approval makes of the record it read, if that record can be approved at all. */
  function ApprovalMove(current: Record, a: Approval): Option<Move> {
    if !Approvable(current.state) then None
    else
      var policy := if current.state.Proposed? then "operator-approval" else "operator-reapproval";
      var patch := map[Destination := a.destination, RecoveryVersion := a.recoveryVersion, Actor := a.actor,
          Policy := policy];
      var reason := ApprovalReason(current, a);
      Some(Transition(current.state, Approved, if reason.Some? then patch[Reason := reason.value] else patch))
  }

  // ---------------------------------------------------------------- concurrent movers

  const ATTEMPTS := 3

  datatype Call =
    | Looking(id: Id, move: Move, attempt: nat)
    | Swapping(id: Id, move: Move, attempt: nat, seen: Record, next: Record)

  /** `history`: every record each identity ever held, in order. */
  datatype Store = Store(db: map<Id, Record>, calls: map<nat, Call>, history: map<Id, seq<Record>>)

  const Empty := Store(map[], map[], map[])

  datatype Step =
    | Propose(id: Id, fields: map<Field, string>, now: nat)
    | Start(c: nat, id: Id, move: Move)
    | Look(c: nat, now: nat)
    | Swap(c: nat)
    | Crash(c: nat)

  predicate Enabled(s: Store, step: Step) {
    match step
    case Propose(id, _, _) => id !in s.db
    case Start(c, _, _) => c !in s.calls
    case Look(c, _) => c in s.calls && s.calls[c].Looking?
    case Swap(c) => c in s.calls && s.calls[c].Swapping?
    case Crash(c) => c in s.calls
  }

  function Commit(s: Store, r: Record): Store {
    s.(db := s.db[r.id := r], history := s.history[r.id := (if r.id in s.history then s.history[r.id] else []) + [r]])
  }

  function LookStep(s: Store, c: nat, now: nat): Store
    requires Enabled(s, Look(c, now))
  {
    var call := s.calls[c];
    if call.id !in s.db then s.(calls := s.calls - {c})
    else match Attempt(call.move, s.db[call.id], now)
      case Next(record) => s.(calls := s.calls[c := Swapping(call.id, call.move, call.attempt, s.db[call.id], record)])
      case _ => s.(calls := s.calls - {c})
  }

  function SwapStep(s: Store, c: nat): Store
    requires Enabled(s, Swap(c))
  {
    var call := s.calls[c];
    if call.id in s.db && s.db[call.id] == call.seen then Commit(s.(calls := s.calls - {c}), call.next)
    else if call.attempt + 1 < ATTEMPTS then s.(calls := s.calls[c := Looking(call.id, call.move, call.attempt + 1)])
    else s.(calls := s.calls - {c})
  }

  function Apply(s: Store, step: Step): Store
    requires Enabled(s, step)
  {
    match step
    case Propose(id, fields, now) => Commit(s, Record(id, Proposed, fields, None, now))
    case Start(c, id, move) => s.(calls := s.calls[c := Looking(id, move, 0)])
    case Look(c, now) => LookStep(s, c, now)
    case Swap(c) => SwapStep(s, c)
    case Crash(c) => s.(calls := s.calls - {c})
  }

  predicate Possible(s: Store, steps: seq<Step>)
    decreases |steps|
  {
    steps == [] || (Enabled(s, steps[0]) && Possible(Apply(s, steps[0]), steps[1..]))
  }

  function After(s: Store, steps: seq<Step>): Store
    requires Possible(s, steps)
    decreases |steps|
  {
    if steps == [] then s else After(Apply(s, steps[0]), steps[1..])
  }
}

/** Committed histories: legal paths, own approvals, required fields, one rollback at a time. */
module DeliveryTheorems {
  import opened Options
  import opened DeliverySpec

  /** A worker reports how a rollback ended, never that it begins again. */
  predicate Reports(move: Move) {
    move.Finish? ==> move.outcome.state.Done? || move.outcome.state.Broken?
  }

  predicate AllReport(steps: seq<Step>) {
    forall step <- steps :: step.Start? ==> Reports(step.move)
  }

  /** A delivery move: along the table, with what the new state needs, the rollback untouched. */
  predicate Moved(a: Record, b: Record) {
    Allowed(a.state, b.state) && Complete(b) && b.rollback == a.rollback
  }

  predicate NextRollback(a: Record, b: Record) {
    match b.rollback
    case None => false
    case Some(rb) =>
      match rb.state
      case Requested => MayRequest(a)
      case Running => RollbackIs(a, Requested) && rb == a.rollback.value.(state := Running, claimedAt := rb.claimedAt)
      case _ => RollbackIs(a, Running)
  }

  /** A rollback move: the delivery itself untouched. */
  predicate RolledOn(a: Record, b: Record) {
    b == a.(rollback := b.rollback) && NextRollback(a, b)
  }

  predicate Legal(a: Record, b: Record) {
    a.id == b.id && (Moved(a, b) || RolledOn(a, b))
  }

  predicate LegalAt(h: seq<Record>, i: nat)
    requires 0 < i < |h|
  {
    Legal(h[i - 1], h[i])
  }

  predicate LegalPath(h: seq<Record>) {
    && |h| > 0 && h[0].state.Proposed? && h[0].rollback.None?
    && forall i :: 0 < i < |h| ==> LegalAt(h, i)
  }

  lemma PathGrows(h: seq<Record>, r: Record)
    requires LegalPath(h) && Legal(h[|h| - 1], r)
    ensures LegalPath(h + [r])
  {
    forall i | 0 < i < |h + [r]| ensures LegalAt(h + [r], i) {
      if i < |h| { assert LegalAt(h, i); }
    }
  }

  lemma AttemptIsLegal(move: Move, current: Record, now: nat)
    requires Reports(move) && Attempt(move, current, now).Next?
    ensures Legal(current, Attempt(move, current, now).record)
  {
  }

  ghost predicate Inv(s: Store) {
    && s.db.Keys == s.history.Keys
    && (forall id <- s.db :: s.db[id].id == id && LegalPath(s.history[id])
                                && s.history[id][|s.history[id]| - 1] == s.db[id])
    && (forall c <- s.calls :: Reports(s.calls[c].move))
    && (forall c <- s.calls :: s.calls[c].Swapping? ==>
       s.calls[c].seen.id == s.calls[c].id && Legal(s.calls[c].seen, s.calls[c].next))
  }

  lemma CommitKeeps(s: Store, r: Record)
    requires Inv(s) && (r.id in s.db ==> Legal(s.db[r.id], r))
    requires r.id !in s.db ==> r.state.Proposed? && r.rollback.None?
    ensures Inv(Commit(s, r))
  {
    if r.id in s.db { PathGrows(s.history[r.id], r); }
  }

  lemma StepKeeps(s: Store, step: Step)
    requires Inv(s) && Enabled(s, step) && (step.Start? ==> Reports(step.move))
    ensures Inv(Apply(s, step))
  {
    match step
    case Propose(id, fields, now) => CommitKeeps(s, Record(id, Proposed, fields, None, now));
    case Look(c, now) =>
      var call := s.calls[c];
      if call.id in s.db && Attempt(call.move, s.db[call.id], now).Next? {
        AttemptIsLegal(call.move, s.db[call.id], now);
      }
    case Swap(c) =>
      var call := s.calls[c];
      if call.id in s.db && s.db[call.id] == call.seen { CommitKeeps(s.(calls := s.calls - {c}), call.next); }
    case _ =>
  }

  lemma {:induction false} RunKeeps(s: Store, steps: seq<Step>)
    requires Inv(s) && Possible(s, steps) && AllReport(steps)
    ensures Inv(After(s, steps))
    decreases |steps|
  {
    if steps != [] {
      StepKeeps(s, steps[0]);
      RunKeeps(Apply(s, steps[0]), steps[1..]);
    }
  }

  // ---------------------------------------------------------------- what a legal path cannot do

  function Entries(h: seq<Record>, state: State): nat
    decreases |h|
  {
    if |h| <= 1 then 0
    else Entries(h[..|h| - 1], state) + (if h[|h| - 1].state == state && h[|h| - 2].state != state then 1 else 0)
  }

  function Begun(h: seq<Record>, state: RollbackState): nat
    decreases |h|
  {
    if |h| <= 1 then 0
    else
      Begun(h[..|h| - 1], state)
      + (if RollbackIs(h[|h| - 1], state) && h[|h| - 1].rollback != h[|h| - 2].rollback then 1 else 0)
  }

  lemma Prefix(h: seq<Record>)
    requires LegalPath(h) && |h| > 1
    ensures LegalPath(h[..|h| - 1]) && h[..|h| - 1][|h| - 2] == h[|h| - 2] && Legal(h[|h| - 2], h[|h| - 1])
  {
    assert LegalAt(h, |h| - 1);
    var most := h[..|h| - 1];
    forall i | 0 < i < |most| ensures LegalAt(most, i) {
      assert LegalAt(h, i);
    }
  }

  /** Each entry to executing uses up an approval of its own; an approved record has one to spare. */
  lemma {:induction false} OwnApproval(h: seq<Record>)
    requires LegalPath(h)
    ensures Entries(h, Executing) + (if h[|h| - 1].state.Approved? then 1 else 0) <= Entries(h, Approved)
    decreases |h|
  {
    if |h| > 1 {
      Prefix(h);
      OwnApproval(h[..|h| - 1]);
    }
  }

  /** At no time is more than one rollback claimed and unfinished, and each claim has a request of its own. */
  lemma {:induction false} OneRollback(h: seq<Record>)
    requires LegalPath(h)
    ensures Begun(h, Running) == Begun(h, Done) + Begun(h, Broken) + (if RollbackIs(h[|h| - 1], Running) then 1 else 0)
    ensures Begun(h, Requested) == Begun(h, Running) + (if RollbackIs(h[|h| - 1], Requested) then 1 else 0)
    ensures Begun(h, Done) == (if RollbackIs(h[|h| - 1], Done) then 1 else 0)
    decreases |h|
  {
    if |h| > 1 {
      Prefix(h);
      OneRollback(h[..|h| - 1]);
    }
  }

  predicate Sound(r: Record) {
    Complete(r) && (r.rollback.Some? ==> r.state.Confirmed?)
  }

  lemma {:induction false} PathSound(h: seq<Record>)
    requires LegalPath(h)
    ensures Sound(h[|h| - 1])
    decreases |h|
  {
    if |h| > 1 {
      Prefix(h);
      PathSound(h[..|h| - 1]);
    }
  }

  /** Once confirmed, confirmed, with the same fields; once rolled back, nothing moves at all. */
  lemma {:induction false} ConfirmedIsFinal(h: seq<Record>, i: nat, j: nat)
    requires LegalPath(h) && i <= j < |h| && h[i].state.Confirmed?
    ensures h[j].state.Confirmed? && h[j].fields == h[i].fields && h[j].updatedAt == h[i].updatedAt
    ensures RollbackIs(h[i], Done) ==> h[j] == h[i]
    decreases j
  {
    if i < j {
      ConfirmedIsFinal(h, i, j - 1);
      assert LegalAt(h, j);
    }
  }

  // ---------------------------------------------------------------- main results

  /**
   In every run of concurrent movers each record's committed history is a legal path: it starts proposed, follows the
   table, carries what its states require, enters executing only on an approval of its own, and has at most one
   rollback in flight, which never touches the delivery itself.
   */
  lemma HistoriesAreLegal(steps: seq<Step>, id: Id)
    requires Possible(Empty, steps) && AllReport(steps) && id in After(Empty, steps).db
    ensures var s := After(Empty, steps); var h := if id in s.history then s.history[id] else [];
            && LegalPath(h) && h[|h| - 1] == s.db[id] && Sound(s.db[id])
            && Entries(h, Executing) <= Entries(h, Approved)
            && Begun(h, Running) <= Begun(h, Done) + Begun(h, Broken) + 1
            && Begun(h, Done) <= 1
  {
    RunKeeps(Empty, steps);
    var h := After(Empty, steps).history[id];
    OwnApproval(h);
    OneRollback(h);
    PathSound(h);
  }

  lemma StepGrows(s: Store, step: Step, id: Id)
    requires s.db.Keys == s.history.Keys && Enabled(s, step) && id in s.db
    ensures id in Apply(s, step).db && id in Apply(s, step).history && s.history[id] <= Apply(s, step).history[id]
  {
  }

  lemma {:induction false} HistoryGrows(s: Store, steps: seq<Step>, id: Id)
    requires Inv(s) && Possible(s, steps) && AllReport(steps) && id in s.db
    ensures id in After(s, steps).db && id in After(s, steps).history && s.history[id] <= After(s, steps).history[id]
    decreases |steps|
  {
    if steps != [] {
      StepKeeps(s, steps[0]);
      StepGrows(s, steps[0], id);
      HistoryGrows(Apply(s, steps[0]), steps[1..], id);
    }
  }

  lemma ConfirmedLast(h: seq<Record>, more: seq<Record>)
    requires LegalPath(more) && |h| > 0 && h <= more && h[|h| - 1].state.Confirmed?
    ensures var was, last := h[|h| - 1], more[|more| - 1];
            last.state.Confirmed? && last.fields == was.fields && (RollbackIs(was, Done) ==> last == was)
  {
    assert more[|h| - 1] == h[|h| - 1];
    ConfirmedIsFinal(more, |h| - 1, |more| - 1);
  }

  /** The record is the last write of its own path. */
  predicate Kept(s: Store, id: Id) {
    && id in s.db && id in s.history && LegalPath(s.history[id])
    && s.history[id][|s.history[id]| - 1] == s.db[id]
  }

  lemma KeptOf(s: Store, id: Id)
    requires Inv(s) && id in s.db
    ensures Kept(s, id)
  {
  }

  lemma KeptByRun(s: Store, steps: seq<Step>, id: Id)
    requires Inv(s) && Possible(s, steps) && AllReport(steps) && id in s.db
    ensures Kept(s, id) && Kept(After(s, steps), id) && s.history[id] <= After(s, steps).history[id]
  {
    RunKeeps(s, steps);
    HistoryGrows(s, steps, id);
    KeptOf(s, id);
    KeptOf(After(s, steps), id);
  }

  lemma ConfirmedAfter(s: Store, steps: seq<Step>, id: Id)
    requires Inv(s) && Possible(s, steps) && AllReport(steps) && id in s.db && s.db[id].state.Confirmed?
    ensures var t := After(s, steps);
            && id in t.db && t.db[id].state.Confirmed? && t.db[id].fields == s.db[id].fields
            && (RollbackIs(s.db[id], Done) ==> t.db[id] == s.db[id])
  {
    KeptByRun(s, steps, id);
    ConfirmedLast(s.history[id], After(s, steps).history[id]);
  }

  /** A confirmed delivery is never moved again, and a finished rollback settles the record for good. */
  lemma ConfirmedForGood(before: seq<Step>, steps: seq<Step>, id: Id)
    requires Possible(Empty, before) && AllReport(before)
    requires Possible(After(Empty, before), steps) && AllReport(steps)
    requires id in After(Empty, before).db && After(Empty, before).db[id].state.Confirmed?
    ensures var s := After(Empty, before); var t := After(s, steps);
            && id in t.db && t.db[id].state.Confirmed? && t.db[id].fields == s.db[id].fields
            && (RollbackIs(s.db[id], Done) ==> t.db[id] == s.db[id])
  {
    RunKeeps(Empty, before);
    ConfirmedAfter(After(Empty, before), steps, id);
  }

  /** Every successor about to be swapped in is what its move made, at some time, of the record it read. */
  ghost predicate Computed(s: Store) {
    forall c <- s.calls :: s.calls[c].Swapping? ==>
      exists now :: Attempt(s.calls[c].move, s.calls[c].seen, now) == Next(s.calls[c].next)
  }

  lemma ComputedStep(s: Store, step: Step)
    requires Computed(s) && Enabled(s, step)
    ensures Computed(Apply(s, step))
  {
    var t := Apply(s, step);
    forall c | c in t.calls && t.calls[c].Swapping?
      ensures exists now :: Attempt(t.calls[c].move, t.calls[c].seen, now) == Next(t.calls[c].next)
    {
      if !(step.Look? && step.c == c) { assert c in s.calls && s.calls[c] == t.calls[c]; }
    }
  }

  lemma {:induction false} ComputedRun(s: Store, steps: seq<Step>)
    requires Computed(s) && Possible(s, steps)
    ensures Computed(After(s, steps))
    decreases |steps|
  {
    if steps != [] {
      ComputedStep(s, steps[0]);
      ComputedRun(Apply(s, steps[0]), steps[1..]);
    }
  }

  /**
   In every run, however many movers came in between, a swap that goes through does to the record stored at that moment
   exactly what its move makes of it, and to no other record anything.
   */
  lemma SwapIsAtomic(steps: seq<Step>, c: nat)
    requires Possible(Empty, steps) && AllReport(steps)
    requires Enabled(After(Empty, steps), Swap(c)) && SwapStep(After(Empty, steps), c).db != After(Empty, steps).db
    ensures var s := After(Empty, steps); var id := s.calls[c].id;
            && id in s.db
            && exists now :: (Attempt(s.calls[c].move, s.db[id], now).Next?
                              && SwapStep(s, c).db == s.db[id := Attempt(s.calls[c].move, s.db[id], now).record])
  {
    ComputedRun(Empty, steps);
    RunKeeps(Empty, steps);
    var s := After(Empty, steps);
    var call := s.calls[c];
    assert s.db[call.id] == call.seen && call.next.id == call.id;
    var now :| Attempt(call.move, call.seen, now) == Next(call.next);
  }

  /**
   A swap misses only because somebody else's went through: between the read and the missed swap the record's history
   grew. So of the movers on one record somebody always gets on.
   */
  lemma MissedOnlyByAnother(s: Store, c: nat, now: nat, steps: seq<Step>)
    requires Inv(s) && Enabled(s, Look(c, now)) && c in LookStep(s, c, now).calls
    requires Possible(LookStep(s, c, now), steps) && AllReport(steps)
    requires var t := After(LookStep(s, c, now), steps);
             c in t.calls && t.calls[c] == LookStep(s, c, now).calls[c] && SwapStep(t, c).db == t.db
    ensures var id := s.calls[c].id; var t := After(LookStep(s, c, now), steps);
            id in s.history && id in t.history && |s.history[id]| < |t.history[id]|
  {
    var looked := LookStep(s, c, now);
    var id := s.calls[c].id;
    StepKeeps(s, Look(c, now));
    HistoryGrows(looked, steps, id);
    RunKeeps(looked, steps);
    var t := After(looked, steps);
    LegalMoves(t.calls[c].seen, t.calls[c].next);
    assert t.db[id] != t.calls[c].seen;
  }

  /** No legal step leaves a record as it was. */
  lemma LegalMoves(a: Record, b: Record)
    requires Legal(a, b)
    ensures a != b
  {
  }

  // ---------------------------------------------------------------- three tries

  /** A swap that goes through ends the call, and so does a third miss; a first or second miss looks again. */
  lemma SwapEndsOrRetries(s: Store, c: nat)
    requires Enabled(s, Swap(c))
    ensures var call := s.calls[c]; var t := Apply(s, Swap(c));
            if call.id in s.db && s.db[call.id] == call.seen then
              c !in t.calls && call.next.id in t.db && t.db[call.next.id] == call.next
            else
              t.db == s.db && t.history == s.history
              && (if call.attempt < 2 then c in t.calls && t.calls[c] == Looking(call.id, call.move, call.attempt + 1)
                  else c !in t.calls)
  {
  }

  /** How often the call tries to swap. */
  function Tries(steps: seq<Step>, c: nat): nat {
    if steps == [] then 0 else (if steps[0] == Swap(c) then 1 else 0) + Tries(steps[1..], c)
  }

  /** A call tries three times at most, whatever the others do. */
  lemma {:induction false} ThreeTries(s: Store, steps: seq<Step>, c: nat)
    requires Possible(s, steps) && forall step <- steps :: !(step.Start? && step.c == c)
    requires c in s.calls ==> s.calls[c].attempt < 3
    ensures Tries(steps, c) <= if c in s.calls then 3 - s.calls[c].attempt else 0
    decreases |steps|
  {
    if steps != [] {
      if steps[0] == Swap(c) { SwapEndsOrRetries(s, c); }
      ThreeTries(Apply(s, steps[0]), steps[1..], c);
    }
  }

  /** A call newly started has its three tries to come, and one that stopped has none. */
  lemma TriesToCome(s: Store, c: nat, id: Id, move: Move)
    ensures Enabled(s, Start(c, id, move)) ==>
              c in Apply(s, Start(c, id, move)).calls && Apply(s, Start(c, id, move)).calls[c] == Looking(id, move, 0)
    ensures Enabled(s, Crash(c)) ==> c !in Apply(s, Crash(c)).calls
  {
  }

  /** The states an operator may approve out of are exactly those the table lets move to approved. */
  lemma ApprovableIff(state: State)
    ensures Approvable(state) <==> Allowed(state, Approved)
  {
  }

  /**
   An approval computed from the record read goes through, whatever became of the record meanwhile, if and only if the
   record is still in the state that was read and the operator named a destination, a recovery version and themselves.
   It then records exactly those, whether it was the first, and why it was needed again.
   */
  lemma ApprovedIff(read: Record, a: Approval, current: Record, now: nat)
    requires Approvable(read.state)
    ensures var answer := Attempt(ApprovalMove(read, a).value, current, now);
            && (answer.Next? <==>
                  current.state == read.state && a.destination != "" && a.recoveryVersion != "" && a.actor != "")
            && (answer.Next? ==>
                  && answer.record.state.Approved? && answer.record.rollback == current.rollback
                  && answer.record.fields[Destination] == a.destination
                     && answer.record.fields[RecoveryVersion] == a.recoveryVersion
                  && answer.record.fields[Actor] == a.actor
                  && (answer.record.fields[Policy] == "operator-approval" <==> read.state.Proposed?)
                  && (ApprovalReason(read, a).Some? ==>
                     Reason in answer.record.fields && answer.record.fields[Reason] == ApprovalReason(read, a).value)
                  && (!read.state.Proposed? ==> Reason in answer.record.fields && answer.record.fields[Reason] != ""))
  {
    var answer := Attempt(ApprovalMove(read, a).value, current, now);
    assert "operator-approval"[9] != "operator-reapproval"[9];
    if !read.state.Proposed? && !(a.reason.Some? && a.reason.value != "") {
      assert |ApprovalReason(read, a).value| >= |"re-approved after "|;
    }
    if answer.Stands? || answer.Next? {
      assert Required(Approved) == {Destination, RecoveryVersion, Actor};
    }
    if current.state == read.state {
      var next := current.(state := Approved, fields := current.fields + ApprovalMove(read, a).value.patch,
          updatedAt := now);
      assert Complete(next) <==> Has(next, Destination) && Has(next, RecoveryVersion) && Has(next, Actor);
    }
  }

  /** The reason on record after an approval: the operator's, or why it was needed again, or what it was before. */
  lemma ApprovalReasonIs(read: Record, a: Approval, current: Record, now: nat)
    requires Approvable(read.state) && Attempt(ApprovalMove(read, a).value, current, now).Next?
    ensures var fields := Attempt(ApprovalMove(read, a).value, current, now).record.fields;
            var was := if Reason in read.fields then read.fields[Reason] else "no reason recorded";
            if a.reason.Some? && a.reason.value != "" then Reason in fields && fields[Reason] == a.reason.value
            else if read.state == Held then Reason in fields && fields[Reason] == "re-approved after held: " + was
            else if read.state == Failed then Reason in fields && fields[Reason] == "re-approved after failed: " + was
            else (Reason in fields <==> Reason in current.fields)
                 && (Reason in fields ==> fields[Reason] == current.fields[Reason])
    ensures var fields := Attempt(ApprovalMove(read, a).value, current, now).record.fields;
            forall f <- current.fields ::
              f in fields && (f in {Destination, RecoveryVersion, Actor, Policy, Reason}
                  || fields[f] == current.fields[f])
  {
    var was := if Reason in read.fields then read.fields[Reason] else "no reason recorded";
    assert "re-approved after " + "held" + ": " + was == "re-approved after held: " + was;
    assert "re-approved after " + "failed" + ": " + was == "re-approved after failed: " + was;
  }

  /** What may be approved: a proposal, and what was held or failed. */
  lemma ApprovalMayBeTried(current: Record, a: Approval)
    ensures ApprovalMove(current, a).Some?
            <==> current.state == Proposed || current.state == Held || current.state == Failed
  {
  }

  // ---------------------------------------------------------------- the table, row by row

  /** Every move a delivery may make. */
  const TABLE: set<(State, State)> := {
    (Proposed, Approved), (Proposed, Held), (Approved, Executing), (Approved, Held), (Executing, Confirmed),
    (Executing, State.Unknown), (Executing, Failed), (Executing, Held), (State.Unknown, Confirmed),
    (State.Unknown, Failed), (State.Unknown, Held), (Failed, Held), (Failed, Approved), (Held, Approved)}

  lemma AllowedIff(from: State, to: State)
    ensures Allowed(from, to) <==> (from, to) in TABLE
  {
  }

  /** Not missing, and not empty. */
  predicate Says(fields: map<Field, string>, f: Field) {
    f in fields && fields[f] != ""
  }

  /** What an approved record names, and what a confirmed one is silent about never. */
  predicate Carries(r: Record) {
    && (r.state == Approved ==>
          Says(r.fields, Destination) && Says(r.fields, RecoveryVersion) && Says(r.fields, Actor))
    && (r.state == Confirmed ==> Says(r.fields, ArtifactDigest) && Says(r.fields, Health))
  }

  lemma CompleteIff(r: Record)
    ensures Complete(r) <==> Carries(r)
  {
    if r.state == Approved { assert Required(r.state) == {Destination, RecoveryVersion, Actor}; }
    if r.state == Confirmed { assert Required(r.state) == {ArtifactDigest, Health}; }
    if Complete(r) {
      assert forall f <- Required(r.state) :: Has(r, f);
      assert r.state == Approved ==> Has(r, Destination) && Has(r, RecoveryVersion) && Has(r, Actor);
      assert r.state == Confirmed ==> Has(r, ArtifactDigest) && Has(r, Health);
    }
  }

  /**
   A transition goes through if and only if it is on the table, the record is where it starts, and with the fields it
   brings the record carries what its new state needs. Nothing but the state, those fields and the time is touched.
   */
  lemma TransitionIff(current: Record, from: State, to: State, patch: map<Field, string>, now: nat)
    ensures var answer := Attempt(Transition(from, to, patch), current, now);
            var next := Record(current.id, to, current.fields + patch, current.rollback, now);
            && (answer.Next? <==> (from, to) in TABLE && current.state == from && Carries(next))
            && (answer.Next? ==> answer.record == next)
            && (answer == Stands(current) <==> (from, to) in TABLE && current.state != from)
  {
    AllowedIff(from, to);
    CompleteIff(Record(current.id, to, current.fields + patch, current.rollback, now));
  }

  /** A delivery is confirmed only on an artifact and a word about the target's health, from executing or unknown. */
  lemma ConfirmedIff(current: Record, from: State, patch: map<Field, string>, now: nat)
    ensures var fields := current.fields + patch;
            Attempt(Transition(from, Confirmed, patch), current, now).Next?
            <==> current.state == from && (from == Executing || from == State.Unknown)
                 && ArtifactDigest in fields && fields[ArtifactDigest] != ""
                 && Health in fields && fields[Health] != ""
  {
    TransitionIff(current, from, Confirmed, patch, now);
  }

  /** The three moves of a rollback: when each goes through, and what it writes beside the untouched delivery. */
  lemma RollbackIff(current: Record, actor: string, reason: string, outcome: Rollback, now: nat)
    ensures var answer := Attempt(Request(actor, reason), current, now);
            if current.state == Confirmed && Says(current.fields, RecoveryVersion)
               && (current.rollback.None? || current.rollback.value.state == Broken)
            then
              answer == Next(current.(rollback := Some(Rollback(Requested, actor, reason, now, None, None, None))))
            else answer == Refused
    ensures var answer := Attempt(Claim, current, now);
            if current.rollback.Some? && current.rollback.value.state == Requested
            then
              var rb := current.rollback.value;
              answer == Next(current.(rollback := Some(
                  Rollback(Running, rb.actor, rb.reason, rb.requestedAt, Some(now), rb.finishedAt, rb.evidence))))
            else answer == Stands(current)
    ensures Attempt(Finish(outcome), current, now)
            == if current.rollback.Some? && current.rollback.value.state == Running
               then Next(current.(rollback := Some(outcome))) else Stands(current)
  {
  }

  lemma PathUpTo(h: seq<Record>, i: nat)
    requires LegalPath(h) && 0 < i <= |h|
    ensures LegalPath(h[..i])
  {
    var most := h[..i];
    forall j | 0 < j < |most| ensures LegalAt(most, j) {
      assert LegalAt(h, j);
    }
  }

  /**
   Along every committed history each write is a row of the table or a rollback's, which leaves the delivery alone.
   */
  lemma PathOnTable(h: seq<Record>, i: nat)
    requires LegalPath(h) && 0 < i < |h|
    ensures (h[i - 1].state, h[i].state) in TABLE
            || (h[i] == h[i - 1].(rollback := h[i].rollback) && h[i].state == Confirmed)
  {
    assert LegalAt(h, i);
    AllowedIff(h[i - 1].state, h[i].state);
    PathUpTo(h, i);
    PathSound(h[..i]);
    assert h[..i][i - 1] == h[i - 1];
  }

  /** In every run every record carries what its state needs. */
  lemma RecordsCarry(steps: seq<Step>, id: Id)
    requires Possible(Empty, steps) && AllReport(steps) && id in After(Empty, steps).db
    ensures Carries(After(Empty, steps).db[id])
  {
    HistoriesAreLegal(steps, id);
    CompleteIff(After(Empty, steps).db[id]);
  }

  // ---------------------------------------------------------------- whose rollback a finish ends

  /** The rollback is claimed by the write at place `i`. */
  predicate ClaimedAt(h: seq<Record>, i: nat) {
    0 < i < |h| && RollbackIs(h[i], Running) && !RollbackIs(h[i - 1], Running)
  }

  /** The rollback in flight is ended by the write at place `j`. */
  predicate EndedAt(h: seq<Record>, j: nat) {
    0 < j < |h| && RollbackIs(h[j - 1], Running) && !RollbackIs(h[j], Running)
  }

  /** No later claim stands between the claim at `i` and the end at `j`. */
  predicate EndsOwn(h: seq<Record>, i: nat, j: nat) {
    forall k :: i < k < j ==> !ClaimedAt(h, k)
  }

  lemma {:induction false} ReclaimedAfter(h: seq<Record>, i: nat, j: nat)
    requires i < j < |h| && !RollbackIs(h[i], Running) && RollbackIs(h[j], Running)
    ensures exists k :: i < k <= j && ClaimedAt(h, k)
    decreases j
  {
    if RollbackIs(h[j - 1], Running) {
      ReclaimedAfter(h, i, j - 1);
    } else {
      assert ClaimedAt(h, j);
    }
  }

  /**
   Along every committed history, a finish ends the very rollback its worker claimed if and only if no outcome was
   recorded between the two: after one, a request and a claim of somebody else's stand in between, and a late report
   ends that rollback as its own.
   */
  lemma FinishEndsOwnIff(h: seq<Record>, i: nat, j: nat)
    requires LegalPath(h) && i < j && ClaimedAt(h, i) && EndedAt(h, j)
    ensures EndsOwn(h, i, j) <==> forall k :: i < k < j ==> !RollbackIs(h[k], Done) && !RollbackIs(h[k], Broken)
    ensures EndsOwn(h, i, j) <==> Begun(h[..j], Running) == Begun(h[..i + 1], Running)
  {
    ClaimsCounted(h, i, j);
    NoClaims(h, i, j);
    if k :| i < k < j && !RollbackIs(h[k], Running) {
      ReclaimedAfter(h, k, j - 1);
      FirstLeft(h, i, k);
    } else {
      assert forall k :: i < k < j ==> !ClaimedAt(h, k);
    }
  }

  /** A rollback in flight is left only by an outcome. */
  lemma {:induction false} FirstLeft(h: seq<Record>, i: nat, k: nat)
    requires LegalPath(h) && i < k < |h| && RollbackIs(h[i], Running) && !RollbackIs(h[k], Running)
    ensures exists m :: i < m <= k && (RollbackIs(h[m], Done) || RollbackIs(h[m], Broken))
    decreases k
  {
    assert LegalAt(h, k);
    if RollbackIs(h[k - 1], Running) {
      assert RollbackIs(h[k], Done) || RollbackIs(h[k], Broken);
    } else {
      FirstLeft(h, i, k - 1);
    }
  }

  lemma ClaimAdds(h: seq<Record>, j: nat)
    requires LegalPath(h) && 0 < j < |h|
    ensures Begun(h[..j + 1], Running) == Begun(h[..j], Running) + (if ClaimedAt(h, j) then 1 else 0)
  {
    assert LegalAt(h, j);
    assert h[..j + 1][..j] == h[..j];
  }

  /** How many claims stand strictly between the two places. */
  function Claims(h: seq<Record>, i: nat, j: nat): nat
    decreases j
  {
    if j <= i + 1 then 0 else Claims(h, i, j - 1) + (if ClaimedAt(h, j - 1) then 1 else 0)
  }

  lemma NextClaim(h: seq<Record>, i: nat, j: nat)
    requires LegalPath(h) && i + 1 < j <= |h|
    ensures Begun(h[..j], Running) - Claims(h, i, j) == Begun(h[..j - 1], Running) - Claims(h, i, j - 1)
  {
    ClaimAdds(h, j - 1);
  }

  lemma {:induction false} ClaimsCounted(h: seq<Record>, i: nat, j: nat)
    requires LegalPath(h) && i < j <= |h|
    ensures Begun(h[..j], Running) == Begun(h[..i + 1], Running) + Claims(h, i, j)
    decreases j
  {
    if j > i + 1 {
      ClaimsCounted(h, i, j - 1);
      NextClaim(h, i, j);
    }
  }

  lemma {:induction false} NoClaims(h: seq<Record>, i: nat, j: nat)
    ensures Claims(h, i, j) == 0 <==> EndsOwn(h, i, j)
    decreases j
  {
    if j > i + 1 { NoClaims(h, i, j - 1); }
  }

  // ---------------------------------------------------------------- a run in which a late report ends another's
  // rollback

  lemma {:induction false} Joined(s: Store, a: seq<Step>, b: seq<Step>)
    requires Possible(s, a) && Possible(After(s, a), b)
    ensures Possible(s, a + b) && After(s, a + b) == After(After(s, a), b)
    decreases |a|
  {
    if a == [] {
      assert a + b == b;
    } else {
      Joined(Apply(s, a[0]), a[1..], b);
      assert (a + b)[1..] == a[1..] + b;
    }
  }

  lemma Moves(s: Store, move: Move, now: nat)
    requires "d" in s.db && s.db["d"].id == "d" && s.calls == map[] && Attempt(move, s.db["d"], now).Next?
    ensures var steps := [Start(0, "d", move), Look(0, now), Swap(0)];
            Possible(s, steps) && After(s, steps) == Commit(s, Attempt(move, s.db["d"], now).record)
  {
    var s1 := Apply(s, Start(0, "d", move));
    var s2 := Apply(s1, Look(0, now));
    assert s2.calls - {0} == map[];
    Ahead(s2, Swap(0), []);
    Ahead(s1, Look(0, now), [Swap(0)] + []);
    Ahead(s, Start(0, "d", move), [Look(0, now)] + ([Swap(0)] + []));
    assert [Start(0, "d", move)] + ([Look(0, now)] + ([Swap(0)] + [])) == [Start(0, "d", move), Look(0, now), Swap(0)];
  }

  lemma Ahead(s: Store, step: Step, rest: seq<Step>)
    requires Enabled(s, step) && Possible(Apply(s, step), rest)
    ensures Possible(s, [step] + rest) && After(s, [step] + rest) == After(Apply(s, step), rest)
  {
    assert ([step] + rest)[1..] == rest;
  }

  /** A run of one record's moves, one after another, with this history. */
  ghost predicate Wrote(steps: seq<Step>, h: seq<Record>) {
    Possible(Empty, steps) && AllReport(steps) && |h| > 0 && h[|h| - 1].id == "d"
    && After(Empty, steps) == Store(map["d" := h[|h| - 1]], map[], map["d" := h])
  }

  lemma Writes(steps: seq<Step>, h: seq<Record>, move: Move, now: nat) returns (more: seq<Step>, longer: seq<Record>)
    requires Wrote(steps, h) && Reports(move) && Attempt(move, h[|h| - 1], now).Next?
    ensures longer == h + [Attempt(move, h[|h| - 1], now).record] && Wrote(more, longer)
  {
    var last := [Start(0, "d", move), Look(0, now), Swap(0)];
    Moves(After(Empty, steps), move, now);
    Joined(Empty, steps, last);
    more, longer := steps + last, h + [Attempt(move, h[|h| - 1], now).record];
  }

  const APPROVAL := map[Destination := "prod", RecoveryVersion := "v1", Actor := "op"]
  const CONFIRMATION := map[ArtifactDigest := "sha", Health := "healthy"]

  lemma ProposedRun() returns (steps: seq<Step>, h: seq<Record>)
    ensures Wrote(steps, h) && h == [Record("d", Proposed, map[], None, 0)]
  {
    var r := Record("d", Proposed, map[], None, 0);
    steps, h := [Propose("d", map[], 0)], [r];
    assert steps[1..] == [];
    assert Apply(Empty, steps[0]) == Store(map["d" := r], map[], map["d" := [] + [r]]);
    assert [] + [r] == [r];
  }

  /** The move puts a record of this state in place. */
  lemma Reaches(r: Record, to: State, patch: map<Field, string>, now: nat)
    requires Allowed(r.state, to) && forall f <- Required(to) :: f in (r.fields + patch) && (r.fields + patch)[f] != ""
    ensures Attempt(Transition(r.state, to, patch), r, now)
            == Next(r.(state := to, fields := r.fields + patch, updatedAt := now))
  {
  }

  lemma ApprovedRun() returns (steps: seq<Step>, h: seq<Record>)
    ensures Wrote(steps, h) && |h| == 2 && h[1] == Record("d", Approved, APPROVAL, None, 1)
  {
    steps, h := ProposedRun();
    assert map[] + APPROVAL == APPROVAL;
    Reaches(h[0], Approved, APPROVAL, 1);
    steps, h := Writes(steps, h, Transition(Proposed, Approved, APPROVAL), 1);
  }

  lemma ConfirmedRun() returns (steps: seq<Step>, h: seq<Record>)
    ensures Wrote(steps, h) && |h| == 4
    ensures h[3].state.Confirmed? && Has(h[3], RecoveryVersion) && h[3].rollback.None?
  {
    steps, h := ApprovedRun();
    Reaches(h[1], Executing, map[], 2);
    steps, h := Writes(steps, h, Transition(Approved, Executing, map[]), 2);
    Reaches(h[2], Confirmed, CONFIRMATION, 3);
    steps, h := Writes(steps, h, Transition(Executing, Confirmed, CONFIRMATION), 3);
  }

  /**
   From the empty store: a first worker claims a rollback and is slow; a sweep records it failed; a person asks again
   and a second worker claims; the first worker's report then ends the second's rollback, and the record says done by
   the first. By `FinishEndsOwnIff` no history without that recorded failure can do this.
   */
  lemma LateReportEndsTheNextRollback() returns (steps: seq<Step>, h: seq<Record>)
    ensures Wrote(steps, h) && |h| == 10 && ClaimedAt(h, 5) && EndedAt(h, 9) && !EndsOwn(h, 5, 9)
    ensures h[8].rollback.value.actor == "second" && RollbackIs(h[9], Done) && h[9].rollback.value.actor == "first"
  {
    steps, h := ConfirmedRun();
    steps, h := Writes(steps, h, Request("first", "bad"), 4);
    steps, h := Writes(steps, h, Claim, 5);
    var claimed := h[5].rollback.value;
    steps, h := Writes(steps, h, Finish(claimed.(state := Broken)), 6);
    steps, h := Writes(steps, h, Request("second", "again"), 7);
    steps, h := Writes(steps, h, Claim, 8);
    steps, h := Writes(steps, h, Finish(claimed.(state := Done)), 9);
    assert ClaimedAt(h, 8);
  }

  /** Of two movers that read the same record, the one that swaps first makes the other's swap fail. */
  lemma OneWinner(s: Store, a: nat, b: nat)
    requires Inv(s) && a != b && Enabled(s, Swap(a)) && Enabled(s, Swap(b))
    requires s.calls[a].id == s.calls[b].id && s.calls[a].seen == s.calls[b].seen
    requires s.calls[a].id in s.db && s.db[s.calls[a].id] == s.calls[a].seen
    ensures SwapStep(s, a).db != s.db && SwapStep(SwapStep(s, a), b).db == SwapStep(s, a).db
  {
  }
}

/** The file store: every move is one locked read-modify-write of the whole document. */
module DeliveryObject {
  import opened Options
  import opened DeliverySpec
  import opened DeliveryTheorems

  datatype Reply = Winner(record: Record) | Thrown

  function AfterMove(all: map<Id, Record>, id: Id, move: Move, now: nat): map<Id, Record> {
    if id in all && Attempt(move, all[id], now).Next? then all[id := Attempt(move, all[id], now).record] else all
  }

  /** The record that won: the new one, or the one that stands. */
  function Won(all: map<Id, Record>, id: Id, move: Move, now: nat): Reply {
    if id !in all then Thrown
    else match Attempt(move, all[id], now)
      case Next(record) => Winner(record)
      case Stands(record) => Winner(record)
      case Refused => Thrown
  }

  class FileDeliveryStore {
    var all: map<Id, Record>
    ghost var history: map<Id, seq<Record>>

    ghost predicate Valid()
      reads this
    {
      Inv(Store(all, map[], history))
    }

    constructor ()
      ensures Valid() && all == map[]
    {
      all, history := map[], map[];
    }

    method Save(record: Record)
      requires Valid() && (record.id in all ==> Legal(all[record.id], record))
      requires record.id !in all ==> record.state.Proposed? && record.rollback.None?
      modifies this
      ensures Valid() && all == old(all)[record.id := record]
    {
      CommitKeeps(Store(all, map[], history), record);
      history := history[record.id := (if record.id in history then history[record.id] else []) + [record]];
      all := all[record.id := record];
    }

    /** Creates a proposed record; a second proposal for the same run reads back the first. */
    method Propose(id: Id, fields: map<Field, string>, now: nat) returns (record: Record)
      requires Valid()
      modifies this
      ensures Valid() && record == (if id in old(all) then old(all)[id] else Record(id, Proposed, fields, None, now))
      ensures all == old(all)[id := record]
    {
      if id in all { return all[id]; }
      record := Record(id, Proposed, fields, None, now);
      Save(record);
    }

    /** The first required field that is missing, if any. */
    method Missing(record: Record) returns (missing: bool)
      ensures missing <==> !DeliverySpec.Complete(record)
    {
      var left := Required(record.state);
      missing := false;
      while left != {}
        invariant left <= Required(record.state) && (forall f <- Required(record.state) - left :: Has(record, f))
        decreases |left|
      {
        var f :| f in left;
        if !Has(record, f) { return true; }
        left := left - {f};
      }
    }

    method TransitionTo(id: Id, from: State, to: State, patch: map<Field, string>, now: nat) returns (reply: Reply)
      requires Valid()
      modifies this
      ensures Valid() && all == AfterMove(old(all), id, Transition(from, to, patch), now)
      ensures reply == Won(old(all), id, Transition(from, to, patch), now)
    {
      if !Allowed(from, to) || id !in all { return Thrown; }
      var current := all[id];
      if current.state != from { return Winner(current); }
      var next := current.(state := to, fields := current.fields + patch, updatedAt := now);
      var missing := Missing(next);
      if missing { return Thrown; }
      Save(next);
      reply := Winner(next);
    }

    /** Records an operator's approval from whichever approvable state the record is in. */
    method ApproveDelivery(id: Id, a: Approval, now: nat) returns (reply: Reply)
      requires Valid()
      modifies this
      ensures Valid()
      ensures if id in old(all) && Approvable(old(all)[id].state)
              then var move := ApprovalMove(old(all)[id], a).value;
                   all == AfterMove(old(all), id, move, now) && reply == Won(old(all), id, move, now)
              else all == old(all) && reply == if id in old(all) then Winner(old(all)[id]) else Thrown
    {
      if id !in all { return Thrown; }
      var current := all[id];
      if !Approvable(current.state) { return Winner(current); }
      var again := current.state != Proposed;
      var patch := map[Destination := a.destination, RecoveryVersion := a.recoveryVersion, Actor := a.actor];
      patch := patch[Policy := if again then "operator-reapproval" else "operator-approval"];
      var reason := ApprovalReason(current, a);
      if reason.Some? { patch := patch[Reason := reason.value]; }
      reply := TransitionTo(id, current.state, Approved, patch, now);
    }

    method RequestRollback(id: Id, actor: string, reason: string, now: nat) returns (reply: Reply)
      requires Valid()
      modifies this
      ensures Valid() && all == AfterMove(old(all), id, Request(actor, reason), now)
              && reply == Won(old(all), id, Request(actor, reason), now)
    {
      if id !in all || !MayRequest(all[id]) { return Thrown; }
      var next := all[id].(rollback := Some(Rollback(Requested, actor, reason, now, None, None, None)));
      Save(next);
      reply := Winner(next);
    }

    method ClaimRollback(id: Id, now: nat) returns (reply: Reply)
      requires Valid()
      modifies this
      ensures Valid() && all == AfterMove(old(all), id, Claim, now) && reply == Won(old(all), id, Claim, now)
    {
      if id !in all { return Thrown; }
      var current := all[id];
      if !RollbackIs(current, Requested) { return Winner(current); }
      var next := current.(rollback := Some(current.rollback.value.(state := Running, claimedAt := Some(now))));
      Save(next);
      reply := Winner(next);
    }

    method FinishRollback(id: Id, outcome: Rollback, now: nat) returns (reply: Reply)
      requires Valid() && Reports(Finish(outcome))
      modifies this
      ensures Valid() && all == AfterMove(old(all), id, Finish(outcome), now)
              && reply == Won(old(all), id, Finish(outcome), now)
    {
      if id !in all { return Thrown; }
      var current := all[id];
      if !RollbackIs(current, Running) { return Winner(current); }
      var next := current.(rollback := Some(outcome));
      Save(next);
      reply := Winner(next);
    }
  }
}
