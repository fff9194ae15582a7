/** The agent loop's finish gate: a claim to be done is held, a bounded number of times, until it is backed by work. */
module FinishGateSpec {
  import opened Options

  /** Why a finish was held. Only `Verify` leaves the agent's claim usable; the others reject it. */
  datatype Hold = Verify | NoWork | LastFailed | NoEvidence | Disapproved | CleanTree

  datatype Review = Approves | Objects | Skipped
  datatype Tree = Dirty | Clean | NoTree

  datatype Signal = Carry | Nudge | Stop(message: string) | Halt(message: string)

  /** What a turn of the model comes to, with the answers of the critic, the working tree and the recovery tracker. */
  datatype Turn =
    | Cancelled
    | ModelFails
    | Claims(message: string, review: Review, tree: Tree)
    | Idle                                  // searches, looks, malformed or refused actions
    | Runs(succeeds: bool, signal: Signal)
    | RunFails

  datatype Limits = Limits(maxSteps: nat, gate: bool, critic: bool)

  /** What the run leaves on record, one entry a turn. */
  datatype Entry = Held(hold: Hold, claim: string) | Honoured(claim: string, tree: Tree) | Ran(succeeds: bool) | Passed

  datatype Status = Finished | Settled | OutOfSteps | Failed | Aborted
  datatype Result = Result(status: Status, summary: Option<string>, log: seq<Entry>)

  datatype Gate = Gate(nudged: bool, evidence: bool, fails: nat, cleans: nat, reviewed: bool,
                       execs: nat, lastFailed: bool, anySuccess: bool, held: Option<string>)

  const Start := Gate(false, false, 0, 0, false, 0, false, false, None)

  /** The first hold a claim runs into, asking about commands. */
  function CommandHold(g: Gate, limits: Limits, review: Review): (Gate, Option<Hold>) {
    if !g.nudged then (g.(nudged := true, execs := 0), Some(if g.anySuccess then Verify else NoWork))
    else if g.lastFailed && g.fails < 2 then (g.(fails := g.fails + 1), Some(LastFailed))
    else if !g.evidence && g.execs == 0 then (g.(evidence := true), Some(NoEvidence))
    else if limits.critic
        && !g.reviewed then (g.(reviewed := true), if review.Objects? then Some(Disapproved) else None)
    else (g, None)
  }

  /** Last of all, whether the tree has changed. */
  function Judged(g: Gate, limits: Limits, claim: string, review: Review, tree: Tree): (Gate, Option<Hold>) {
    var (after, hold) := CommandHold(g, limits, review);
    var (last, verdict) := if hold.None? && after.cleans < 2
        && tree.Clean? then (after.(cleans := after.cleans + 1), Some(CleanTree)) else (after, hold);
    if verdict.None? then (last, None)
    else (last.(held := if verdict.value.Verify? then Some(claim) else None), verdict)
  }

  // ---------------------------------------------------------------- the run

  /** A claim at this turn: what the gate becomes, and the entry it leaves. The last step is not gated. */
  function Claimed(limits: Limits, g: Gate, index: nat, turn: Turn): (Gate, Entry)
    requires turn.Claims?
  {
    if !limits.gate || index + 1 >= limits.maxSteps then (g, Honoured(turn.message, turn.tree))
    else
      var (after, hold) := Judged(g, limits, turn.message, turn.review, turn.tree);
      (after, if hold.Some? then Held(hold.value, turn.message) else Honoured(turn.message, turn.tree))
  }

  function RanOnce(g: Gate, succeeds: bool): Gate {
    g.(execs := g.execs + 1, lastFailed := !succeeds, anySuccess := g.anySuccess || succeeds)
  }

  /** One turn: the gate, the record, and the result if the run ends with it. */
  function Turned(limits: Limits, turn: Turn, g: Gate, log: seq<Entry>): (Gate, seq<Entry>, Option<Result>) {
    match turn
    case Cancelled => (g, log, Some(Result(Aborted, None, log)))
    case ModelFails => (g, log, Some(Result(Failed, None, log)))
    case RunFails => (g, log, Some(Result(Failed, None, log)))
    case Idle => (g, log + [Passed], None)
    case Claims(message, _, _) =>
      var (after, entry) := Claimed(limits, g, |log|, turn);
      (after, log + [entry], if entry.Honoured? then Some(Result(Finished, Some(message), log + [entry])) else None)
    case Runs(succeeds, signal) =>
      var after, more := RanOnce(g, succeeds), log + [Ran(succeeds)];
      (after, more,
       match signal
       case Halt(message) => Some(Result(Failed, Some(message), more))
       case Stop(message) => Some(Result(Settled, Some(if after.held.Some? then after.held.value else message), more))
       case _ => None)
  }

  /** The rest of a run from its `index`-th turn. */
  function RunFrom(limits: Limits, turns: nat -> Turn, g: Gate, log: seq<Entry>, index: nat): Result
    requires index <= limits.maxSteps
    decreases limits.maxSteps - index
  {
    if index == limits.maxSteps then Result(OutOfSteps, None, log)
    else
      var (after, more, done) := Turned(limits, turns(index), g, log);
      if done.Some? then done.value else RunFrom(limits, turns, after, more, index + 1)
  }

  // ---------------------------------------------------------------- reading the record

  function Count(log: seq<Entry>, hold: Hold): nat
    decreases |log|
  {
    if log == [] then 0
    else
      Count(log[..|log| - 1], hold)
      + (if log[|log| - 1].Held? && log[|log| - 1].hold == hold then 1 else 0)
  }

  function Holds(log: seq<Entry>): nat
    decreases |log|
  {
    if log == [] then 0 else Holds(log[..|log| - 1]) + (if log[|log| - 1].Held? then 1 else 0)
  }

  /** The last command on record failed. */
  predicate LastRunFailed(log: seq<Entry>)
    decreases |log|
  {
    log != [] && (if log[|log| - 1].Ran? then !log[|log| - 1].succeeds else LastRunFailed(log[..|log| - 1]))
  }

  /** Commands run since the first hold, or since the start if nothing was held. */
  function RunsSinceFirstHold(log: seq<Entry>): nat
    decreases |log|
  {
    if log == [] then 0
    else
      var last := log[|log| - 1];
      var before := RunsSinceFirstHold(log[..|log| - 1]);
      if last.Ran? then before + 1 else if last.Held? && (last.hold.Verify? || last.hold.NoWork?) then 0 else before
  }

  /** The claim of the most recent hold, unless that hold rejected it. */
  function UsableClaim(log: seq<Entry>): Option<string>
    decreases |log|
  {
    if log == [] then None
    else
      var last := log[|log| - 1];
      if last.Held? then (if last.hold.Verify? then Some(last.claim) else None) else UsableClaim(log[..|log| - 1])
  }
}

/** The loop, and what every run of it guarantees. */
module FinishGateLoop {
  import opened Options
  import opened FinishGateSpec

  /** The critic has been asked: it objected, or a later hold was about the tree. */
  predicate Reviewed(limits: Limits, log: seq<Entry>) {
    limits.critic && Count(log, Disapproved) + Count(log, CleanTree) > 0
  }

  /** The counters say what the record says. */
  predicate Agrees(limits: Limits, g: Gate, log: seq<Entry>) {
    && Count(log, Verify) + Count(log, NoWork) == (if g.nudged then 1 else 0)
    && Count(log, LastFailed) == g.fails <= 2
    && Count(log, NoEvidence) == (if g.evidence then 1 else 0)
    && Count(log, Disapproved) <= (if g.reviewed then 1 else 0)
    && g.reviewed == Reviewed(limits, log)
    && Count(log, CleanTree) == g.cleans <= 2
    && g.lastFailed == LastRunFailed(log)
    && g.execs == RunsSinceFirstHold(log)
    && g.held == UsableClaim(log)
    && (g.anySuccess <==> Ran(true) in log)
  }

  lemma Grow(log: seq<Entry>, e: Entry)
    ensures (log + [e])[..|log|] == log
  {
  }

  lemma {:induction false} HoldsAddUp(log: seq<Entry>)
    ensures Holds(log) == Count(log, Verify) + Count(log, NoWork) + Count(log, LastFailed) + Count(log, NoEvidence)
                          + Count(log, Disapproved) + Count(log, CleanTree)
    decreases |log|
  {
    if log != [] { HoldsAddUp(log[..|log| - 1]); }
  }

  lemma HeldAgrees(g: Gate, limits: Limits, log: seq<Entry>, claim: string, review: Review, tree: Tree)
    requires Agrees(limits, g, log) && Judged(g, limits, claim, review, tree).1.Some?
    ensures var (after, hold) := Judged(g, limits, claim, review, tree);
            Agrees(limits, after, log + [Held(hold.value, claim)])
  {
    var (after, hold) := Judged(g, limits, claim, review, tree);
    Grow(log, Held(hold.value, claim));
  }

  lemma RanAgrees(limits: Limits, g: Gate, log: seq<Entry>, succeeds: bool)
    requires Agrees(limits, g, log)
    ensures Agrees(limits, g.(execs := g.execs + 1, lastFailed := !succeeds, anySuccess := g.anySuccess || succeeds),
            log + [Ran(succeeds)])
  {
    Grow(log, Ran(succeeds));
  }

  lemma PassedAgrees(limits: Limits, g: Gate, log: seq<Entry>)
    requires Agrees(limits, g, log)
    ensures Agrees(limits, g, log + [Passed])
  {
    Grow(log, Passed);
  }

  // What each hold is called for by, read off the record. A claim is put to them in this order.

  predicate NeverHeld(log: seq<Entry>) {
    Count(log, Verify) + Count(log, NoWork) == 0
  }

  predicate FailureDue(log: seq<Entry>) {
    LastRunFailed(log) && Count(log, LastFailed) < 2
  }

  predicate EvidenceDue(log: seq<Entry>) {
    RunsSinceFirstHold(log) == 0 && Count(log, NoEvidence) == 0
  }

  predicate CommandsPass(log: seq<Entry>) {
    !NeverHeld(log) && !FailureDue(log) && !EvidenceDue(log)
  }

  /** The critic, asked at most once, objects. */
  predicate ReviewDue(limits: Limits, log: seq<Entry>, turn: Turn)
    requires turn.Claims?
  {
    limits.critic && !Reviewed(limits, log) && turn.review.Objects?
  }

  /** A claim is held for this reason: it is called for, and none that comes before it is. */
  predicate CalledFor(limits: Limits, log: seq<Entry>, hold: Hold, turn: Turn)
    requires turn.Claims?
  {
    match hold
    case Verify => NeverHeld(log) && Ran(true) in log
    case NoWork => NeverHeld(log) && Ran(true) !in log
    case LastFailed => !NeverHeld(log) && FailureDue(log)
    case NoEvidence => !NeverHeld(log) && !FailureDue(log) && EvidenceDue(log)
    case Disapproved => CommandsPass(log) && ReviewDue(limits, log, turn)
    case CleanTree =>
      CommandsPass(log) && !ReviewDue(limits, log, turn) && turn.tree.Clean? && Count(log, CleanTree) < 2
  }

  /** Claims are put to the gate: it is on, and this is not the last step. */
  predicate Gated(limits: Limits, log: seq<Entry>) {
    limits.gate && |log| + 1 < limits.maxSteps
  }

  /** The entry records what the turn came to. */
  predicate Records(limits: Limits, log: seq<Entry>, e: Entry, turn: Turn) {
    match e
    case Held(hold, claim) =>
      turn.Claims? && turn.message == claim && Gated(limits, log) && CalledFor(limits, log, hold, turn)
    case Honoured(claim, tree) =>
      && turn.Claims? && turn.message == claim && turn.tree == tree
      && (Gated(limits, log) ==> forall hold :: !CalledFor(limits, log, hold, turn))
    case Ran(succeeds) => turn.Runs? && turn.succeeds == succeeds
    case Passed => turn.Idle?
  }

  predicate RecordsAt(limits: Limits, log: seq<Entry>, turns: nat -> Turn, i: nat)
    requires i < |log|
  {
    Records(limits, log[..i], log[i], turns(i))
  }

  /** Every entry records its own turn: a claim is held exactly when a reason calls for it, and for that one. */
  ghost predicate Recorded(limits: Limits, log: seq<Entry>, turns: nat -> Turn) {
    forall i: nat :: i < |log| ==> RecordsAt(limits, log, turns, i)
  }

  lemma RecordMore(limits: Limits, log: seq<Entry>, e: Entry, turns: nat -> Turn)
    requires Recorded(limits, log, turns) && Records(limits, log, e, turns(|log|))
    ensures Recorded(limits, log + [e], turns)
  {
    var more := log + [e];
    forall i: nat | i < |more| ensures RecordsAt(limits, more, turns, i) {
      assert more[..i] == log[..i];
      if i < |log| { assert RecordsAt(limits, log, turns, i); } else { assert log[..|log|] == log; }
    }
  }

  lemma HeldWarranted(g: Gate, limits: Limits, log: seq<Entry>, turn: Turn)
    requires Agrees(limits, g, log) && turn.Claims? && Judged(g, limits, turn.message, turn.review, turn.tree).1.Some?
    ensures CalledFor(limits, log, Judged(g, limits, turn.message, turn.review, turn.tree).1.value, turn)
  {
  }

  /**
   A finish let through before the last step: held once before, its last command not failing or excused twice, evidence
   run or asked for, the critic content or asked before, the tree changed or excused twice.
   */
  predicate Earned(limits: Limits, log: seq<Entry>, turn: Turn)
    requires turn.Claims?
  {
    && Count(log, Verify) + Count(log, NoWork) == 1
    && (!LastRunFailed(log) || Count(log, LastFailed) == 2)
    && (RunsSinceFirstHold(log) > 0 || Count(log, NoEvidence) == 1)
    && (limits.critic ==> !turn.review.Objects? || Count(log, Disapproved) + Count(log, CleanTree) > 0)
    && (!turn.tree.Clean? || Count(log, CleanTree) == 2)
  }

  lemma LetThrough(g: Gate, limits: Limits, log: seq<Entry>, turn: Turn)
    requires Agrees(limits, g, log) && turn.Claims? && Judged(g, limits, turn.message, turn.review, turn.tree).1.None?
    ensures Earned(limits, log, turn) && forall hold :: !CalledFor(limits, log, hold, turn)
  {
  }

  /** The recovery tracker ends the run with this turn. */
  predicate EndsRun(turn: Turn) {
    turn.Runs? && (turn.signal.Stop? || turn.signal.Halt?)
  }

  /** A run still going: one entry a turn, the counters true to them, nothing honoured. */
  ghost predicate Going(limits: Limits, g: Gate, log: seq<Entry>, turns: nat -> Turn) {
    && Agrees(limits, g, log) && Recorded(limits, log, turns) && (forall e <- log :: !e.Honoured?)
    && forall i: nat :: i < |log| ==> !EndsRun(turns(i))
  }

  /** What is promised of a run that ended. */
  ghost predicate Guaranteed(limits: Limits, turns: nat -> Turn, r: Result) {
    && |r.log| <= limits.maxSteps && Holds(r.log) <= 7 && Recorded(limits, r.log, turns)
    && (r.status.Finished? <==> r.log != [] && r.log[|r.log| - 1].Honoured?)
    && (r.status.Finished? ==> r.summary == Some(r.log[|r.log| - 1].claim))
    && (r.status.Finished? && limits.gate && |r.log| < limits.maxSteps ==>
       turns(|r.log| - 1).Claims? && Earned(limits, r.log[..|r.log| - 1], turns(|r.log| - 1)))
    && (r.status.Settled? ==>
          r.log != [] && turns(|r.log| - 1).Runs? && turns(|r.log| - 1).signal.Stop?
          && r.summary == Some(if UsableClaim(r.log).Some? then UsableClaim(r.log).value
             else turns(|r.log| - 1).signal.message))
    && (r.status.OutOfSteps? ==> |r.log| == limits.maxSteps && r.summary.None?)
    && (r.status.Aborted? ==> |r.log| < limits.maxSteps && turns(|r.log|).Cancelled? && r.summary.None?)
    && (r.status.Failed? ==>
          || (|r.log| < limits.maxSteps && (turns(|r.log|).ModelFails? || turns(|r.log|).RunFails?) && r.summary.None?)
          || (r.log != [] && turns(|r.log| - 1).Runs? && turns(|r.log| - 1).signal.Halt?
              && r.summary == Some(turns(|r.log| - 1).signal.message)))
    && (forall i: nat :: i < |r.log| && EndsRun(turns(i)) ==>
          i == |r.log| - 1 && r.status == (if turns(i).signal.Stop? then Settled else Failed))
  }

  lemma SevenAtMost(limits: Limits, g: Gate, log: seq<Entry>)
    requires Agrees(limits, g, log)
    ensures Holds(log) <= 7
  {
    HoldsAddUp(log);
  }

  /** A claim to be done: held for a reason, or honoured. */
  method TakeClaim(limits: Limits, ghost turns: nat -> Turn, g0: Gate, log0: seq<Entry>, turn: Turn)
    returns (g: Gate, log: seq<Entry>, honoured: bool)
    requires Going(limits, g0, log0, turns) && |log0| < limits.maxSteps && turns(|log0|) == turn && turn.Claims?
    ensures |log| == |log0| + 1 && log[..|log0|] == log0
    ensures var (after, entry) := Claimed(limits, g0, |log0|, turn);
            g == after && log == log0 + [entry] && honoured == entry.Honoured?
    ensures !honoured ==> Going(limits, g, log, turns)
    ensures honoured ==> log[|log0|] == Honoured(turn.message, turn.tree) && Recorded(limits, log, turns)
    ensures honoured && limits.gate && |log| < limits.maxSteps ==> Earned(limits, log0, turn)
  {
    g, honoured := g0, true;
    if limits.gate && |log0| + 1 < limits.maxSteps {
      var (after, hold) := Judged(g0, limits, turn.message, turn.review, turn.tree);
      g := after;
      if hold.Some? {
        HeldAgrees(g0, limits, log0, turn.message, turn.review, turn.tree);
        HeldWarranted(g0, limits, log0, turn);
        RecordMore(limits, log0, Held(hold.value, turn.message), turns);
        log := log0 + [Held(hold.value, turn.message)];
        return g, log, false;
      }
      LetThrough(g0, limits, log0, turn);
    }
    RecordMore(limits, log0, Honoured(turn.message, turn.tree), turns);
    log := log0 + [Honoured(turn.message, turn.tree)];
  }

  method TakeRun(ghost limits: Limits, ghost turns: nat -> Turn, g0: Gate, log0: seq<Entry>, succeeds: bool)
    returns (g: Gate, log: seq<Entry>)
    requires Going(limits, g0, log0, turns) && turns(|log0|).Runs? && turns(|log0|).succeeds == succeeds
    ensures g == RanOnce(g0, succeeds) && log == log0 + [Ran(succeeds)]
    ensures Agrees(limits, g, log) && Recorded(limits, log, turns) && forall e <- log :: !e.Honoured?
  {
    RanAgrees(limits, g0, log0, succeeds);
    RecordMore(limits, log0, Ran(succeeds), turns);
    g := g0.(execs := g0.execs + 1, lastFailed := !succeeds, anySuccess := g0.anySuccess || succeeds);
    log := log0 + [Ran(succeeds)];
  }

  method TakeClaimTurn(limits: Limits, ghost turns: nat -> Turn, g0: Gate, log0: seq<Entry>, turn: Turn)
    returns (g: Gate, log: seq<Entry>, done: Option<Result>)
    requires Going(limits, g0, log0, turns) && |log0| < limits.maxSteps && turns(|log0|) == turn && turn.Claims?
    ensures (g, log, done) == Turned(limits, turn, g0, log0)
    ensures done.Some? ==> Guaranteed(limits, turns, done.value)
    ensures done.None? ==> |log| == |log0| + 1 && Going(limits, g, log, turns)
  {
    SevenAtMost(limits, g0, log0);
    var honoured;
    g, log, honoured := TakeClaim(limits, turns, g0, log0, turn);
    done := if honoured then Some(Result(Finished, Some(turn.message), log)) else None;
  }

  /** The recovery tracker stops a run on its last command, with the best account of it there is, or halts it. */
  lemma TrackerEnds(limits: Limits, turns: nat -> Turn, g: Gate, log: seq<Entry>, turn: Turn, r: Result)
    requires log != [] && |log| <= limits.maxSteps && turns(|log| - 1) == turn && EndsRun(turn)
    requires Agrees(limits, g, log) && Recorded(limits, log, turns) && forall e <- log :: !e.Honoured?
    requires forall i: nat :: i + 1 < |log| ==> !EndsRun(turns(i))
    requires r == if turn.signal.Halt? then Result(Failed, Some(turn.signal.message), log)
             else Result(Settled, Some(if g.held.Some? then g.held.value else turn.signal.message), log)
    ensures Guaranteed(limits, turns, r)
  {
    SevenAtMost(limits, g, log);
  }

  method TakeRunTurn(limits: Limits, ghost turns: nat -> Turn, g0: Gate, log0: seq<Entry>, turn: Turn)
    returns (g: Gate, log: seq<Entry>, done: Option<Result>)
    requires Going(limits, g0, log0, turns) && |log0| < limits.maxSteps && turns(|log0|) == turn && turn.Runs?
    ensures (g, log, done) == Turned(limits, turn, g0, log0)
    ensures done.Some? ==> Guaranteed(limits, turns, done.value)
    ensures done.None? ==> |log| == |log0| + 1 && Going(limits, g, log, turns)
  {
    g, log := TakeRun(limits, turns, g0, log0, turn.succeeds);
    done := None;
    if turn.signal.Halt? { done := Some(Result(Failed, Some(turn.signal.message), log)); }
    if turn.signal.Stop? {
      done := Some(Result(Settled, Some(if g.held.Some? then g.held.value else turn.signal.message), log));
    }
    if done.Some? { TrackerEnds(limits, turns, g, log, turn, done.value); }
  }

  /** One turn: the run goes on, or ends with a result. */
  method TakeTurn(limits: Limits, turns: nat -> Turn, g0: Gate, log0: seq<Entry>)
    returns (g: Gate, log: seq<Entry>, done: Option<Result>)
    requires Going(limits, g0, log0, turns) && |log0| < limits.maxSteps
    ensures (g, log, done) == Turned(limits, turns(|log0|), g0, log0)
    ensures done.Some? ==> Guaranteed(limits, turns, done.value)
    ensures done.None? ==> |log| == |log0| + 1 && Going(limits, g, log, turns)
  {
    g, log, done := g0, log0, None;
    SevenAtMost(limits, g0, log0);
    match turns(|log0|) {
      case Cancelled => done := Some(Result(Aborted, None, log));
      case ModelFails => done := Some(Result(Failed, None, log));
      case RunFails => done := Some(Result(Failed, None, log));
      case Idle =>
        PassedAgrees(limits, g0, log0);
        RecordMore(limits, log0, Passed, turns);
        log := log0 + [Passed];
      case Claims(_, _, _) => g, log, done := TakeClaimTurn(limits, turns, g0, log0, turns(|log0|));
      case Runs(_, _) => g, log, done := TakeRunTurn(limits, turns, g0, log0, turns(|log0|));
    }
  }

  /**
   One run. `turns(i)` is what the i-th model turn comes to. It ends within `maxSteps` turns, with at most seven holds;
   a finish honoured before the last step was earned; a settled summary is the tracker's or a claim whose latest hold
   did not reject it.
   */
  method RunAgent(limits: Limits, turns: nat -> Turn) returns (r: Result)
    ensures |r.log| <= limits.maxSteps && Holds(r.log) <= 7
    ensures Guaranteed(limits, turns, r) && r == RunFrom(limits, turns, Start, [], 0)
  {
    var g := Start;
    var log: seq<Entry> := [];
    for index := 0 to limits.maxSteps
      invariant |log| == index && Going(limits, g, log, turns)
      invariant RunFrom(limits, turns, g, log, index) == RunFrom(limits, turns, Start, [], 0)
    {
      var done;
      g, log, done := TakeTurn(limits, turns, g, log);
      if done.Some? { return done.value; }
    }
    SevenAtMost(limits, g, log);
    r := Result(OutOfSteps, None, log);
  }

  /** Two commands, the second failing, then claims the critic objects to over an unchanged tree. */
  ghost predicate Stubborn(turns: nat -> Turn) {
    && turns(0) == Runs(true, Carry) && turns(1) == Runs(false, Carry)
    && forall i: nat :: 2 <= i ==> turns(i) == Claims("done", Review.Objects, Clean)
  }

  const HELD_SEVEN := [Ran(true), Ran(false), Held(Verify, "done"), Held(LastFailed, "done"), Held(LastFailed, "done"),
                       Held(NoEvidence, "done"), Held(Disapproved, "done"), Held(CleanTree, "done"),
                           Held(CleanTree, "done")]

  lemma FirstFive(limits: Limits, turns: nat -> Turn)
    requires limits.critic && limits.gate && limits.maxSteps > 10 && Stubborn(turns)
    ensures RunFrom(limits, turns, Start, [], 0)
            == RunFrom(limits, turns, Gate(true, false, 2, 0, false, 0, true, true, None), HELD_SEVEN[..5], 5)
  {
    var g2 := Start.(execs := 2, lastFailed := true, anySuccess := true);
    var g3 := g2.(nudged := true, execs := 0, held := Some("done"));
    var g4 := g3.(fails := 1, held := None);
    assert RunFrom(limits, turns, Start, [], 0) == RunFrom(limits, turns, g2, HELD_SEVEN[..2], 2) by {
      assert [] + [Ran(true)] == [Ran(true)];
      assert RunFrom(limits, turns, Start, [], 0) == RunFrom(limits, turns, RanOnce(Start, true), [Ran(true)], 1);
      assert [Ran(true)] + [Ran(false)] == HELD_SEVEN[..2];
    }
    assert HELD_SEVEN[..2] + [Held(Verify, "done")] == HELD_SEVEN[..3];
    assert RunFrom(limits, turns, g2, HELD_SEVEN[..2], 2) == RunFrom(limits, turns, g3, HELD_SEVEN[..3], 3);
    assert HELD_SEVEN[..3] + [Held(LastFailed, "done")] == HELD_SEVEN[..4];
    assert RunFrom(limits, turns, g3, HELD_SEVEN[..3], 3) == RunFrom(limits, turns, g4, HELD_SEVEN[..4], 4);
    assert HELD_SEVEN[..4] + [Held(LastFailed, "done")] == HELD_SEVEN[..5];
  }

  lemma LastFour(limits: Limits, turns: nat -> Turn)
    requires limits.critic && limits.gate && limits.maxSteps > 10 && Stubborn(turns)
    ensures RunFrom(limits, turns, Gate(true, false, 2, 0, false, 0, true, true, None), HELD_SEVEN[..5], 5)
            == RunFrom(limits, turns, Gate(true, true, 2, 2, true, 0, true, true, None), HELD_SEVEN, 9)
  {
    var g5 := Gate(true, false, 2, 0, false, 0, true, true, None);
    var g6, g7, g8 := g5.(evidence := true), g5.(evidence := true, reviewed := true),
        g5.(evidence := true, reviewed := true, cleans := 1);
    assert HELD_SEVEN[..5] + [Held(NoEvidence, "done")] == HELD_SEVEN[..6];
    assert RunFrom(limits, turns, g5, HELD_SEVEN[..5], 5) == RunFrom(limits, turns, g6, HELD_SEVEN[..6], 6);
    assert HELD_SEVEN[..6] + [Held(Disapproved, "done")] == HELD_SEVEN[..7];
    assert RunFrom(limits, turns, g6, HELD_SEVEN[..6], 6) == RunFrom(limits, turns, g7, HELD_SEVEN[..7], 7);
    assert HELD_SEVEN[..7] + [Held(CleanTree, "done")] == HELD_SEVEN[..8];
    assert RunFrom(limits, turns, g7, HELD_SEVEN[..7], 7) == RunFrom(limits, turns, g8, HELD_SEVEN[..8], 8);
    assert HELD_SEVEN[..8] + [Held(CleanTree, "done")] == HELD_SEVEN;
  }

  /**
   The bound of seven is met by a run of the loop, whatever its step limit as long as it leaves room: one hold to
   verify, two for failures, one for evidence, one from the critic, two for a clean tree; the eighth claim finishes it.
   */
  lemma SevenHolds(limits: Limits, turns: nat -> Turn)
    requires limits.critic && limits.gate && limits.maxSteps > 10 && Stubborn(turns)
    ensures RunFrom(limits, turns, Start, [], 0)
            == Result(Finished, Some("done"), HELD_SEVEN + [Honoured("done", Clean)])
    ensures Holds(HELD_SEVEN + [Honoured("done", Clean)]) == 7
  {
    FirstFive(limits, turns);
    LastFour(limits, turns);
    Grow(HELD_SEVEN, Honoured("done", Clean));
    HoldsOfSeven(HELD_SEVEN);
  }

  lemma HoldsOfSeven(log: seq<Entry>)
    requires log == HELD_SEVEN
    ensures Holds(log) == 7
  {
    assert log[..9] == log && log[..0] == [];
    HoldsAt(log, 0);
    HoldsAt(log, 1);
    HoldsAt(log, 2);
    HoldsAt(log, 3);
    HoldsAt(log, 4);
    HoldsAt(log, 5);
    HoldsAt(log, 6);
    HoldsAt(log, 7);
    HoldsAt(log, 8);
  }

  lemma HoldsAt(log: seq<Entry>, k: nat)
    requires k < |log|
    ensures Holds(log[..k + 1]) == Holds(log[..k]) + (if log[k].Held? then 1 else 0)
  {
    assert log[..k + 1][..k] == log[..k];
  }
}
