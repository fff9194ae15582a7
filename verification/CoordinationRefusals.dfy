/**
 What holds in every run, however late a refusal is written back, and exactly when a late one does harm. A refused
 launch is given back without a look at what the record has become, so a caller that stalled between its claim and its
 enqueue can overwrite whatever happened meanwhile.
 */
module CoordinationRefusals {
  import opened Options
  import opened CoordinationSpec
  import opened CoordinationTheorems
  import opened Sets

  /** The three sequences of attempts. */
  datatype Line = ChildLine(side: Side) | CheckLine

  function Id(line: Line, k: nat): RunId {
    match line
    case ChildLine(side) => ChildRun(side, k)
    case CheckLine => CheckRun(k)
  }

  function LineOf(id: RunId): Line {
    match id
    case ChildRun(side, _) => ChildLine(side)
    case CheckRun(_) => CheckLine
  }

  function Present(r: Record, line: Line): nat {
    match line
    case ChildLine(side) => Current(Get(r, side))
    case CheckLine => CurrentCheck(r.client)
  }

  predicate Claimant(l: Launch) {
    l.Holding? || l.HoldingCheck?
  }

  /** Some journal entry or launch in progress has the id. */
  ghost predicate Used(s: Sys, id: RunId) {
    id in s.accepted || exists w <- s.workers :: Claimant(s.workers[w]) && IdOf(s.workers[w]) == id
  }

  // ---------------------------------------------------------------- counting, in every run

  /** Every earlier attempt was started. */
  ghost predicate Below(accepted: set<RunId>, line: Line, k: nat) {
    forall i: nat :: 1 <= i < k ==> Id(line, i) in accepted
  }

  ghost predicate Started(accepted: set<RunId>, id: RunId) {
    id.attempt >= 1 && Below(accepted, LineOf(id), id.attempt)
  }

  predicate Settled(s: Sys) {
    && (s.rec.api.state.Failed? || Landed(s.rec.api) ==> ChildRun(Api, s.rec.api.attempts) in s.accepted)
    && (s.rec.client.state.Failed? || Landed(s.rec.client) ==> ChildRun(Client, s.rec.client.attempts) in s.accepted)
    && (s.rec.client.check.Graded? && s.rec.client.checkAttempts > 0 ==>
       CheckRun(s.rec.client.checkAttempts) in s.accepted)
  }

  ghost predicate Frontier(r: Record, accepted: set<RunId>) {
    && Below(accepted, ChildLine(Api), Current(r.api))
    && Below(accepted, ChildLine(Client), Current(r.client))
    && Below(accepted, CheckLine, CurrentCheck(r.client))
  }

  /** Ids by derivation, and no attempt begun before the earlier ones were started. */
  ghost predicate Counted(s: Sys) {
    && Derived(s.rec) && Settled(s) && s.landed <= s.accepted && Frontier(s.rec, s.accepted)
    && (forall w <- s.workers :: Claimant(s.workers[w]) ==> Started(s.accepted, IdOf(s.workers[w])))
    && (forall id <- s.accepted :: Started(s.accepted, id))
  }

  lemma CountedClaim(s: Sys, w: nat)
    requires Counted(s) && Enabled(s, Claim(w))
    ensures Counted(ClaimStep(s, w))
  {
  }

  lemma CountedRefuse(s: Sys, w: nat)
    requires Counted(s) && Enabled(s, Refuse(w))
    ensures Counted(RefuseStep(s, w))
  {
    assert Started(s.accepted, IdOf(s.workers[w]));
  }

  lemma CountedRetry(s: Sys, side: Side)
    requires Counted(s) && Retried(s.rec, side).Some?
    ensures Counted(s.(rec := Retried(s.rec, side).value))
  {
  }

  lemma CountedObserve(s: Sys, side: Side, seen: Seen, confirmed: bool)
    requires Counted(s) && Enabled(s, Observe(side, seen, confirmed))
    ensures Counted(Apply(s, Observe(side, seen, confirmed)))
  {
  }

  lemma CountedEnqueue(s: Sys, w: nat)
    requires Counted(s) && Enabled(s, Enqueue(w))
    ensures Counted(EnqueueStep(s, w))
  {
    assert Started(s.accepted, IdOf(s.workers[w]));
  }

  lemma CountedCheck(s: Sys, step: Step)
    requires Counted(s) && Enabled(s, step)
    requires step.ObserveCheck? || step.RepairCheck? || step.Park? || step.RetryCheck? || step.AcceptRisk?
    ensures Counted(Apply(s, step))
  {
    assert s.rec.client.checkAttempts > 0 && (step.Park? || step.RetryCheck?) ==>
             Id(CheckLine, s.rec.client.checkAttempts) in s.accepted;
  }

  lemma CountedRepair(s: Sys, step: Step)
    requires Counted(s) && Enabled(s, step) && (step.Repair? || step.Hold?)
    ensures Counted(Apply(s, step))
  {
  }

  lemma CountedStep(s: Sys, step: Step)
    requires Counted(s) && Enabled(s, step)
    ensures Counted(Apply(s, step))
  {
    match step
    case Claim(w) => CountedClaim(s, w);
    case Refuse(w) => CountedRefuse(s, w);
    case Enqueue(w) => CountedEnqueue(s, w);
    case Observe(side, seen, confirmed) => CountedObserve(s, side, seen, confirmed);
    case RetryChild(side) => CountedRetry(s, side);
    case ObserveCheck(_) => CountedCheck(s, step);
    case RepairCheck => CountedCheck(s, step);
    case Park => CountedCheck(s, step);
    case RetryCheck => CountedCheck(s, step);
    case AcceptRisk => CountedCheck(s, step);
    case Repair(_) => CountedRepair(s, step);
    case Hold => CountedRepair(s, step);
    case _ =>
  }

  lemma {:induction false} CountedRun(s: Sys, steps: seq<Step>)
    requires Counted(s) && Possible(s, steps)
    ensures Counted(After(s, steps))
    decreases |steps|
  {
    if steps != [] {
      CountedStep(s, steps[0]);
      CountedRun(Apply(s, steps[0]), steps[1..]);
    }
  }

  /** In every run, late refusals included, the counters and run ids match by derivation. */
  lemma IdsAreDerived(steps: seq<Step>)
    requires Possible(Init, steps)
    ensures var r := After(Init, steps).rec;
            && r.api.runId == RunOf(Api, r.api.attempts) && r.client.runId == RunOf(Client, r.client.attempts)
            && r.client.checkRunId == CheckRunOf(r.client.checkAttempts)
  {
    CountedRun(Init, steps);
  }

  // ---------------------------------------------------------------- at most three starts, in every run

  /** Nothing of the line stands beyond attempt `k`. */
  ghost predicate Capped(s: Sys, line: Line, k: nat) {
    && Present(s.rec, line) <= k
    && forall w <- s.workers :: Claimant(s.workers[w]) && LineOf(IdOf(s.workers[w])) == line ==>
       IdOf(s.workers[w]).attempt <= k
  }

  lemma CappedByWorker(s: Sys, step: Step, line: Line, k: nat)
    requires Counted(s) && Capped(s, line, k) && Enabled(s, step) && (step.Claim? || step.Refuse?)
    ensures Capped(Apply(s, step), line, k)
  {
    assert step.Refuse? ==> Started(s.accepted, IdOf(s.workers[step.w]));
  }

  lemma CappedByRecord(s: Sys, step: Step, line: Line, k: nat)
    requires Counted(s) && Capped(s, line, k) && Enabled(s, step) && !Human(step) && !step.Claim? && !step.Refuse?
    ensures Capped(Apply(s, step), line, k)
  {
  }

  lemma StartedUnderCap(s: Sys, step: Step, line: Line, k: nat)
    requires Capped(s, line, k) && Enabled(s, step)
    ensures forall id <- Apply(s, step).accepted :: LineOf(id) == line && id !in s.accepted ==> id.attempt <= k
  {
  }

  lemma CappedStep(s: Sys, step: Step, line: Line, k: nat)
    requires Counted(s) && Capped(s, line, k) && Enabled(s, step) && !Human(step)
    ensures Capped(Apply(s, step), line, k)
    ensures forall id <- Apply(s, step).accepted :: LineOf(id) == line && id !in s.accepted ==> id.attempt <= k
  {
    StartedUnderCap(s, step, line, k);
    if step.Claim? || step.Refuse? { CappedByWorker(s, step, line, k); } else { CappedByRecord(s, step, line, k); }
  }

  lemma {:induction false} CappedRun(s: Sys, steps: seq<Step>, line: Line, k: nat)
    requires Counted(s) && Capped(s, line, k) && Possible(s, steps) && NoHuman(steps)
    ensures forall id <- After(s, steps).accepted :: LineOf(id) == line && id !in s.accepted ==> id.attempt <= k
    decreases |steps|
  {
    if steps != [] {
      CountedStep(s, steps[0]);
      CappedStep(s, steps[0], line, k);
      CappedRun(Apply(s, steps[0]), steps[1..], line, k);
    }
  }

  lemma FreeIsCap(s: Sys, id: RunId)
    requires Counted(s) && id.attempt >= 1 && id !in s.accepted
    ensures Capped(s, LineOf(id), id.attempt)
  {
    assert Id(LineOf(id), id.attempt) == id;
    forall w | w in s.workers && Claimant(s.workers[w]) && LineOf(IdOf(s.workers[w])) == LineOf(id)
      ensures IdOf(s.workers[w]).attempt <= id.attempt
    {
      assert Started(s.accepted, IdOf(s.workers[w]));
    }
  }

  /** The newly started runs of a run: those the journal took since. */
  ghost function NewOf(s: Sys, steps: seq<Step>, line: Line): set<RunId>
    requires Possible(s, steps)
  {
    set id | id in After(s, steps).accepted && id !in s.accepted && LineOf(id) == line
  }

  lemma OneOfEach(s: Sys, steps: seq<Step>, a: RunId, b: RunId)
    requires Counted(s) && Possible(s, steps) && NoHuman(steps) && LineOf(a) == LineOf(b)
    requires a in NewOf(s, steps, LineOf(a)) && b in NewOf(s, steps, LineOf(b))
    ensures a == b
  {
    CountedRun(s, steps);
    FreeIsCap(s, a);
    FreeIsCap(s, b);
    CappedRun(s, steps, LineOf(a), a.attempt);
    CappedRun(s, steps, LineOf(b), b.attempt);
  }

  lemma OneOfLine(s: Sys, steps: seq<Step>, line: Line)
    requires Counted(s) && Possible(s, steps) && NoHuman(steps)
    ensures |NewOf(s, steps, line)| <= 1
  {
    var begun := NewOf(s, steps, line);
    if a :| a in begun {
      forall b | b in begun ensures b == a { OneOfEach(s, steps, a, b); }
      assert begun == {a};
    }
  }

  lemma ThreeLines(s: Sys, steps: seq<Step>)
    requires Possible(s, steps) && forall line :: |NewOf(s, steps, line)| <= 1
    ensures |After(s, steps).accepted - s.accepted| <= 3
  {
    var api, client, check := NewOf(s, steps, ChildLine(Api)), NewOf(s, steps, ChildLine(Client)),
        NewOf(s, steps, CheckLine);
    var all := After(s, steps).accepted - s.accepted;
    forall id | id in all ensures id in api + client + check {
      match id
      case ChildRun(side, _) => if side == Api { assert id in api; } else { assert id in client; }
      case CheckRun(_) => assert id in check;
    }
    SubsetSize(all, api + client + check);
  }

  /**
   Between human actions at most three distinct runs start, one of each child and one check, in every run there is:
   refusals may come at any time, callers may stall and crash anywhere.
   */
  lemma AtMostThreeStarts(before: seq<Step>, steps: seq<Step>)
    requires Possible(Init, before) && Possible(After(Init, before), steps) && NoHuman(steps)
    ensures var s := After(Init, before);
            && (forall line :: |NewOf(s, steps, line)| <= 1)
            && |After(s, steps).accepted - s.accepted| <= 3
  {
    CountedRun(Init, before);
    var s := After(Init, before);
    forall line ensures |NewOf(s, steps, line)| <= 1 { OneOfLine(s, steps, line); }
    ThreeLines(s, steps);
  }

  // ---------------------------------------------------------------- the same id again

  /** The refusal, if the step is one that writes: its line and attempt. */
  function Back(s: Sys, step: Step): Option<RunId> {
    if step.Refuse? && step.w in s.workers && Claimant(s.workers[step.w]) && IdOf(s.workers[step.w]).attempt > 0
    then Some(IdOf(s.workers[step.w])) else None
  }

  /** A refusal or a repair that gives this attempt back. */
  predicate GivesBack(s: Sys, step: Step, id: RunId) {
    || Back(s, step) == Some(id)
    || (step.Repair? && id == ChildRun(step.side, Get(s.rec, step.side).attempts))
    || (step.RepairCheck? && id == CheckRun(s.rec.client.checkAttempts))
  }

  /** Whatever is claimed next of the line is attempt `k`; a graded check is not claimed until a person asks. */
  predicate At(r: Record, line: Line, k: nat) {
    (line == CheckLine && r.client.check.Graded?) || Present(r, line) == k
  }

  predicate AlwaysAt(s: Sys, steps: seq<Step>, line: Line, k: nat)
    requires Possible(s, steps)
    decreases |steps|
  {
    At(s.rec, line, k) && (steps == [] || AlwaysAt(Apply(s, steps[0]), steps[1..], line, k))
  }

  predicate GoesBackTo(s: Sys, step: Step, line: Line, k: nat) {
    var back := Back(s, step);
    back.Some? && LineOf(back.value) == line ==> back.value.attempt == k
  }

  /** Every refusal of the line gives back attempt `k`. */
  predicate OnlyBackTo(s: Sys, steps: seq<Step>, line: Line, k: nat)
    requires Possible(s, steps)
    decreases |steps|
  {
    steps == [] || (GoesBackTo(s, steps[0], line, k) && OnlyBackTo(Apply(s, steps[0]), steps[1..], line, k))
  }

  lemma AtStep(s: Sys, step: Step, line: Line, k: nat)
    requires At(s.rec, line, k) && Enabled(s, step) && !Human(step)
    ensures At(Apply(s, step).rec, line, k) <==> GoesBackTo(s, step, line, k)
  {
  }

  /** Without a person, the attempt due stays the same if and only if no refusal gives back another. */
  lemma {:induction false} AttemptKeptIff(s: Sys, steps: seq<Step>, line: Line, k: nat)
    requires At(s.rec, line, k) && Possible(s, steps) && NoHuman(steps)
    ensures AlwaysAt(s, steps, line, k) <==> OnlyBackTo(s, steps, line, k)
    decreases |steps|
  {
    if steps != [] {
      AtStep(s, steps[0], line, k);
      if GoesBackTo(s, steps[0], line, k) {
        AttemptKeptIff(Apply(s, steps[0]), steps[1..], line, k);
      } else {
        NotAt(Apply(s, steps[0]), steps[1..], line, k);
      }
    }
  }

  lemma NotAt(s: Sys, steps: seq<Step>, line: Line, k: nat)
    requires Possible(s, steps) && !At(s.rec, line, k)
    ensures !AlwaysAt(s, steps, line, k)
  {
  }

  lemma {:induction false} AtTheEnd(s: Sys, steps: seq<Step>, line: Line, k: nat)
    requires Possible(s, steps) && AlwaysAt(s, steps, line, k)
    ensures At(After(s, steps).rec, line, k)
    decreases |steps|
  {
    if steps != [] { AtTheEnd(Apply(s, steps[0]), steps[1..], line, k); }
  }

  lemma BackIsAt(s: Sys, back: Step, id: RunId)
    requires Enabled(s, back) && GivesBack(s, back, id)
    ensures At(Apply(s, back).rec, LineOf(id), id.attempt)
  {
  }

  lemma ClaimTakes(s: Sys, w: nat, line: Line, k: nat)
    requires At(s.rec, line, k) && Enabled(s, Claim(w)) && w in ClaimStep(s, w).workers
    requires s.workers[w] == GoingCheck <==> line == CheckLine
    requires line.ChildLine? ==> s.workers[w].side == line.side
    ensures Claimant(ClaimStep(s, w).workers[w]) && IdOf(ClaimStep(s, w).workers[w]) == Id(line, k)
    ensures var r := ClaimStep(s, w).rec;
            (if line == CheckLine then r.client.checkRunId == CheckRunOf(k)
                else Get(r, line.side).runId == RunOf(line.side, k))
  {
  }

  /**
   A launch given back, refused or lost, is retried under the very same run id: whatever happens in between short of a
   person and of a refusal that gives back some other attempt, the next claim of that child or of the check takes it.
   */
  lemma SameIdAgain(s: Sys, back: Step, id: RunId, steps: seq<Step>, w: nat)
    requires Enabled(s, back) && GivesBack(s, back, id)
    requires Possible(Apply(s, back), steps) && NoHuman(steps)
             && OnlyBackTo(Apply(s, back), steps, LineOf(id), id.attempt)
    requires var t := After(Apply(s, back), steps);
             Enabled(t, Claim(w)) && w in ClaimStep(t, w).workers
             && (if id.CheckRun? then t.workers[w].GoingCheck? else t.workers[w].Going? && t.workers[w].side == id.side)
    ensures var after := ClaimStep(After(Apply(s, back), steps), w);
            && Claimant(after.workers[w]) && IdOf(after.workers[w]) == id
            && (if id.CheckRun? then after.rec.client.checkRunId == CheckRunOf(id.attempt)
                else Get(after.rec, id.side).runId == RunOf(id.side, id.attempt))
  {
    var t := Apply(s, back);
    BackIsAt(s, back, id);
    AttemptKeptIff(t, steps, LineOf(id), id.attempt);
    AtTheEnd(t, steps, LineOf(id), id.attempt);
    ClaimTakes(After(t, steps), w, LineOf(id), id.attempt);
  }

  /** Timely refusals give back nothing but the attempt due. */
  lemma {:induction false} TimelyOnlyBackTo(s: Sys, steps: seq<Step>, line: Line, k: nat)
    requires At(s.rec, line, k) && Possible(s, steps) && AllTimely(s, steps) && NoHuman(steps)
    ensures OnlyBackTo(s, steps, line, k)
    decreases |steps|
  {
    if steps != [] {
      assert GoesBackTo(s, steps[0], line, k);
      AtStep(s, steps[0], line, k);
      TimelyOnlyBackTo(Apply(s, steps[0]), steps[1..], line, k);
    }
  }

  // ---------------------------------------------------------------- the ordering, and what a late refusal does to it

  /** A caller has decided to start the client and has not claimed it yet. */
  predicate ClientComing(s: Sys) {
    exists w <- s.workers :: s.workers[w].Going? && s.workers[w].side == Client
  }

  predicate Guarded(s: Sys) {
    Launched(s.rec.client) || ClientComing(s) ==> Landed(s.rec.api)
  }

  predicate BacksApi(s: Sys, step: Step) {
    var back := Back(s, step);
    back.Some? && LineOf(back.value) == ChildLine(Api)
  }

  /** An API refusal does no harm while it is timely, or while no client has been launched or is about to be. */
  predicate Mild(s: Sys, step: Step) {
    Timely(s, step) || (BacksApi(s, step) ==> !Launched(s.rec.client) && !ClientComing(s))
  }

  predicate AllMild(s: Sys, steps: seq<Step>)
    requires Possible(s, steps)
    decreases |steps|
  {
    steps == [] || (Mild(s, steps[0]) && AllMild(Apply(s, steps[0]), steps[1..]))
  }

  lemma GuardedStep(s: Sys, step: Step)
    requires Guarded(s) && Enabled(s, step) && Mild(s, step)
    ensures Guarded(Apply(s, step))
  {
  }

  /** In a run whose API refusals are timely or come before any client, a launched client means a landed API. */
  lemma {:induction false} OrderedUnlessHarmed(s: Sys, steps: seq<Step>)
    requires Guarded(s) && Possible(s, steps) && AllMild(s, steps)
    ensures Guarded(After(s, steps)) && Ordering(After(s, steps).rec)
    decreases |steps|
  {
    if steps != [] {
      GuardedStep(s, steps[0]);
      OrderedUnlessHarmed(Apply(s, steps[0]), steps[1..]);
    }
  }

  lemma NoSteps(s: Sys) returns (steps: seq<Step>)
    ensures steps == [] && Possible(s, steps) && AllMild(s, steps) && After(s, steps) == s
  {
    steps := [];
  }

  lemma Once(s: Sys, a: Step)
    requires Enabled(s, a)
    ensures Possible(s, [a]) && After(s, [a]) == Apply(s, a)
    ensures !a.Refuse? ==> AllTimely(s, [a]) && AllMild(s, [a])
  {
    assert [a][1..] == [];
  }

  lemma Twice(s: Sys, a: Step, b: Step)
    requires Enabled(s, a) && Enabled(Apply(s, a), b)
    ensures Possible(s, [a, b]) && After(s, [a, b]) == Apply(Apply(s, a), b)
    ensures !a.Refuse? && !b.Refuse? ==> AllTimely(s, [a, b]) && AllMild(s, [a, b])
  {
    Once(Apply(s, a), b);
    assert [a, b][1..] == [b];
  }

  /** The client as some later call may start it: released by a person first if it failed or is held. */
  lemma ComesAnyway(s: Sys, w: nat) returns (steps: seq<Step>)
    requires w in s.workers && s.workers[w].Going? && s.workers[w].side == Client && !Launched(s.rec.client)
    requires s.rec.api.state.Pending?
    ensures Possible(s, steps) && AllTimely(s, steps) && AllMild(s, steps) && !Ordering(After(s, steps).rec)
  {
    if s.rec.client.state.Pending? {
      steps := [Claim(w)];
      Once(s, Claim(w));
    } else {
      steps := [RetryChild(Client), Claim(w)];
      Twice(s, RetryChild(Client), Claim(w));
    }
  }

  /**
   An API launch written back at any moment, in any state, leaves every continuation whose own API refusals are mild in
   order if and only if no client has been launched and no caller is about to launch one.
   */
  lemma RefusalSafeIff(s: Sys, w: nat)
    requires Enabled(s, Refuse(w)) && s.workers[w].Holding? && s.workers[w].side == Api && s.workers[w].attempt > 0
    ensures var t := Apply(s, Refuse(w));
            (forall steps :: Possible(t, steps) && AllMild(t, steps) ==> Ordering(After(t, steps).rec))
            <==> !Launched(s.rec.client) && !ClientComing(s)
  {
    var t := Apply(s, Refuse(w));
    if Launched(s.rec.client) {
      var none := NoSteps(t);
    } else if ClientComing(s) {
      var v :| v in s.workers && s.workers[v].Going? && s.workers[v].side == Client;
      assert v in t.workers && t.workers[v] == s.workers[v];
      var steps := ComesAnyway(t, v);
    } else {
      assert forall v <- t.workers :: v in s.workers && t.workers[v] == s.workers[v];
      forall steps | Possible(t, steps) && AllMild(t, steps) ensures Ordering(After(t, steps).rec) {
        OrderedUnlessHarmed(t, steps);
      }
    }
  }

  // ---------------------------------------------------------------- what a landed and a failed API keep

  /** Some caller stands between its claim of the API and its enqueue. */
  predicate ApiHeld(s: Sys) {
    exists w <- s.workers :: s.workers[w].Holding? && s.workers[w].side == Api && s.workers[w].attempt > 0
  }

  predicate LandedOn(r: Record, anchor: Option<Sha>) {
    Landed(r.api) && r.api.anchorSha == anchor
  }

  lemma LandedStep(s: Sys, step: Step, anchor: Option<Sha>)
    requires LandedOn(s.rec, anchor) && !ApiHeld(s) && Enabled(s, step)
    ensures LandedOn(Apply(s, step).rec, anchor) && !ApiHeld(Apply(s, step))
  {
  }

  lemma {:induction false} LandedRun(s: Sys, steps: seq<Step>, anchor: Option<Sha>)
    requires LandedOn(s.rec, anchor) && !ApiHeld(s) && Possible(s, steps)
    ensures LandedOn(After(s, steps).rec, anchor)
    decreases |steps|
  {
    if steps != [] {
      LandedStep(s, steps[0], anchor);
      LandedRun(Apply(s, steps[0]), steps[1..], anchor);
    }
  }

  /**
   A landed API stays landed on its anchor whatever follows, people and late refusals included, if and only if no caller
   still stands between a claim of the API and its enqueue.
   */
  lemma AnchorIsFixedIff(s: Sys)
    requires Landed(s.rec.api)
    ensures (forall steps :: Possible(s, steps) ==> LandedOn(After(s, steps).rec, s.rec.api.anchorSha)) <==> !ApiHeld(s)
  {
    if ApiHeld(s) {
      var w :| w in s.workers && s.workers[w].Holding? && s.workers[w].side == Api && s.workers[w].attempt > 0;
      Once(s, Refuse(w));
      assert !LandedOn(After(s, [Refuse(w)]).rec, s.rec.api.anchorSha);
    } else {
      forall steps | Possible(s, steps) ensures LandedOn(After(s, steps).rec, s.rec.api.anchorSha) {
        LandedRun(s, steps, s.rec.api.anchorSha);
      }
    }
  }

  predicate Stuck(r: Record) {
    r.api.state.Failed? && (r.client.state.Pending? || r.client.state.Held?)
  }

  predicate ClientHeldBack(s: Sys) {
    exists w <- s.workers :: s.workers[w].Holding? && s.workers[w].side == Client && s.workers[w].attempt > 0
  }

  /** A caller about to start the client still can: it is pending, or a refusal can make it so. */
  predicate ClientMayStart(s: Sys) {
    ClientComing(s) && (s.rec.client.state.Pending? || ClientHeldBack(s))
  }

  lemma StuckForGood(s: Sys, step: Step)
    requires Stuck(s.rec) && !ApiHeld(s) && !ClientMayStart(s) && Enabled(s, step) && !Human(step)
    ensures var t := Apply(s, step); Stuck(t.rec) && !ApiHeld(t) && !ClientMayStart(t)
  {
  }

  lemma {:induction false} StuckRun(s: Sys, steps: seq<Step>)
    requires Stuck(s.rec) && !ApiHeld(s) && !ClientMayStart(s) && Possible(s, steps) && NoHuman(steps)
    ensures Stuck(After(s, steps).rec)
    decreases |steps|
  {
    if steps != [] {
      StuckForGood(s, steps[0]);
      StuckRun(Apply(s, steps[0]), steps[1..]);
    }
  }

  lemma Unstuck(s: Sys) returns (steps: seq<Step>)
    requires Stuck(s.rec) && (ApiHeld(s) || ClientMayStart(s))
    ensures Possible(s, steps) && NoHuman(steps) && !Stuck(After(s, steps).rec)
  {
    if ApiHeld(s) {
      var w :| w in s.workers && s.workers[w].Holding? && s.workers[w].side == Api && s.workers[w].attempt > 0;
      Once(s, Refuse(w));
      steps := [Refuse(w)];
    } else {
      var v :| v in s.workers && s.workers[v].Going? && s.workers[v].side == Client;
      if s.rec.client.state.Pending? {
        steps := [Claim(v)];
        Once(s, Claim(v));
      } else {
        var w :| w in s.workers && s.workers[w].Holding? && s.workers[w].side == Client && s.workers[w].attempt > 0;
        steps := [Refuse(w), Claim(v)];
        Twice(s, Refuse(w), Claim(v));
      }
    }
  }

  /**
   A failed API with a client not started goes nowhere but to a held client until a person acts, whatever the callers
   do, if and only if none of them still holds a claim of the API or can still start the client it had decided on.
   */
  lemma FailedApiOnlyHoldsIff(s: Sys)
    requires Stuck(s.rec)
    ensures (forall steps :: Possible(s, steps) && NoHuman(steps) ==> Stuck(After(s, steps).rec))
            <==> !ApiHeld(s) && !ClientMayStart(s)
  {
    if ApiHeld(s) || ClientMayStart(s) {
      var steps := Unstuck(s);
    } else {
      forall steps | Possible(s, steps) && NoHuman(steps) ensures Stuck(After(s, steps).rec) { StuckRun(s, steps); }
    }
  }
}
