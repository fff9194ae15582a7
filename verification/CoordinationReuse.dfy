/** When a person's retry takes an id of its own, and when a late refusal makes it take a used one. */
module CoordinationReuse {
  import opened Options
  import opened CoordinationSpec
  import opened CoordinationTheorems
  import opened CoordinationRefusals

  /** Some attempt of the line after `k` was started or is being started. */
  ghost predicate Newer(s: Sys, line: Line, k: nat) {
    || (exists id <- s.accepted :: LineOf(id) == line && id.attempt > k)
    || (exists w <- s.workers :: Claimant(s.workers[w]) && LineOf(IdOf(s.workers[w])) == line
                                 && IdOf(s.workers[w]).attempt > k)
  }

  /** A refusal of the line comes while no newer attempt exists. */
  ghost predicate Latest(s: Sys, step: Step, line: Line) {
    var back := Back(s, step);
    back.Some? && LineOf(back.value) == line ==> !Newer(s, line, back.value.attempt)
  }

  ghost predicate AllLatest(s: Sys, steps: seq<Step>, line: Line)
    requires Possible(s, steps)
    decreases |steps|
  {
    steps == [] || (Latest(s, steps[0], line) && AllLatest(Apply(s, steps[0]), steps[1..], line))
  }

  // ---------------------------------------------------------------- a child

  ghost predicate Numbered(s: Sys, side: Side) {
    !Newer(s, ChildLine(side), Current(Get(s.rec, side)))
  }

  /** What a person's retry of a failed child would start is new. */
  ghost predicate RetryGetsNew(s: Sys, side: Side) {
    Get(s.rec, side).state.Failed? ==>
      var after := Apply(s, RetryChild(side)); !Used(after, NextRun(side, Get(after.rec, side)))
  }

  lemma NumberedClaim(s: Sys, w: nat, side: Side)
    requires Counted(s) && Numbered(s, side) && Enabled(s, Claim(w))
    ensures Numbered(ClaimStep(s, w), side)
  {
  }

  lemma NumberedRefuse(s: Sys, w: nat, side: Side)
    requires Counted(s) && Enabled(s, Refuse(w)) && Back(s, Refuse(w)).Some?
    requires if LineOf(Back(s, Refuse(w)).value) == ChildLine(side) then Latest(s, Refuse(w), ChildLine(side))
             else Numbered(s, side)
    ensures Numbered(RefuseStep(s, w), side)
  {
  }

  lemma NumberedRetry(s: Sys, retried: Side, side: Side)
    requires Counted(s) && Numbered(s, side) && Retried(s.rec, retried).Some?
    ensures Numbered(s.(rec := Retried(s.rec, retried).value), side)
  {
  }

  lemma NumberedEnqueue(s: Sys, w: nat, side: Side)
    requires Numbered(s, side) && Enabled(s, Enqueue(w))
    ensures Numbered(EnqueueStep(s, w), side)
  {
  }

  lemma NumberedObserve(s: Sys, step: Step, side: Side)
    requires Counted(s) && Numbered(s, side) && Enabled(s, step) && step.Observe?
    ensures Numbered(Apply(s, step), side)
  {
  }

  lemma NumberedRepair(s: Sys, step: Step, side: Side)
    requires Numbered(s, side) && Enabled(s, step) && (step.Repair? || step.Hold?)
    ensures Numbered(Apply(s, step), side)
  {
  }

  lemma NumberedCheck(s: Sys, step: Step, side: Side)
    requires Numbered(s, side) && Enabled(s, step)
    requires step.ObserveCheck? || step.RepairCheck? || step.Park? || step.RetryCheck? || step.AcceptRisk?
    ensures Numbered(Apply(s, step), side)
  {
  }

  lemma NumberedStep(s: Sys, step: Step, side: Side)
    requires Counted(s) && Numbered(s, side) && Enabled(s, step) && Latest(s, step, ChildLine(side))
    ensures Numbered(Apply(s, step), side)
  {
    match step
    case Claim(w) => NumberedClaim(s, w, side);
    case Enqueue(w) => NumberedEnqueue(s, w, side);
    case RetryChild(_) => NumberedRetry(s, step.side, side);
    case Observe(_, _, _) => NumberedObserve(s, step, side);
    case Refuse(w) => assert Started(s.accepted, IdOf(s.workers[w])); NumberedRefuse(s, w, side);
    case Repair(_) => NumberedRepair(s, step, side);
    case Hold => NumberedRepair(s, step, side);
    case Look(_) =>
    case Crash(_) =>
    case Land(_) =>
    case _ => NumberedCheck(s, step, side);
  }

  lemma {:induction false} NumberedRun(s: Sys, steps: seq<Step>, side: Side)
    requires Counted(s) && Numbered(s, side) && Possible(s, steps) && AllLatest(s, steps, ChildLine(side))
    ensures Counted(After(s, steps)) && Numbered(After(s, steps), side)
    decreases |steps|
  {
    if steps != [] {
      NumberedStep(s, steps[0], side);
      CountedStep(s, steps[0]);
      NumberedRun(Apply(s, steps[0]), steps[1..], side);
    }
  }

  lemma NumberedIsNew(s: Sys, side: Side)
    requires Numbered(s, side)
    ensures RetryGetsNew(s, side)
  {
  }

  /**
   In every run whose refusals of the child come while no newer attempt of it exists, a human retry after a failure gets
   an id that no run, journal entry or launch in progress has used. Everything else may be as late as it likes.
   */
  lemma RetryIsNew(steps: seq<Step>, side: Side)
    requires Possible(Init, steps) && AllLatest(Init, steps, ChildLine(side))
    requires Get(After(Init, steps).rec, side).state.Failed?
    ensures var after := Apply(After(Init, steps), RetryChild(side)); var id := NextRun(side, Get(after.rec, side));
            !Used(after, id) && id !in after.landed
  {
    NumberedRun(Init, steps, side);
    NumberedIsNew(After(Init, steps), side);
  }

  lemma {:induction false} TimelyIsLatest(s: Sys, steps: seq<Step>, side: Side)
    requires Counted(s) && Numbered(s, side) && Possible(s, steps) && AllTimely(s, steps)
    ensures AllLatest(s, steps, ChildLine(side))
    decreases |steps|
  {
    if steps != [] {
      NumberedStep(s, steps[0], side);
      CountedStep(s, steps[0]);
      TimelyIsLatest(Apply(s, steps[0]), steps[1..], side);
    }
  }

  predicate NoRefusal(steps: seq<Step>) {
    forall step <- steps :: !step.Refuse?
  }

  lemma {:induction false} NothingRefused(s: Sys, steps: seq<Step>, line: Line)
    requires Possible(s, steps) && NoRefusal(steps)
    ensures AllLatest(s, steps, line) && AllSteady(s, steps)
    decreases |steps|
  {
    if steps != [] { NothingRefused(Apply(s, steps[0]), steps[1..], line); }
  }

  lemma Ahead(s: Sys, step: Step, rest: seq<Step>)
    requires Enabled(s, step) && Possible(Apply(s, step), rest)
    ensures Possible(s, [step] + rest) && After(s, [step] + rest) == After(Apply(s, step), rest)
  {
    assert ([step] + rest)[1..] == rest;
  }

  lemma Five(s: Sys, a: Step, b: Step, c: Step, d: Step, e: Step)
    requires Enabled(s, a) && Enabled(Apply(s, a), b) && Enabled(Apply(Apply(s, a), b), c)
    requires Enabled(Apply(Apply(Apply(s, a), b), c), d) && Enabled(Apply(Apply(Apply(Apply(s, a), b), c), d), e)
    ensures Possible(s, [a, b, c, d, e])
    ensures After(s, [a, b, c, d, e]) == Apply(Apply(Apply(Apply(Apply(s, a), b), c), d), e)
  {
    var t := Apply(Apply(s, a), b);
    Twice(Apply(t, c), d, e);
    Ahead(t, c, [d, e]);
    Ahead(Apply(s, a), b, [c] + [d, e]);
    Ahead(s, a, [b] + ([c] + [d, e]));
    assert [a] + ([b] + ([c] + [d, e])) == [a, b, c, d, e];
  }

  /** The attempt given back is launched again and fails. */
  lemma FailsAgain(t: Sys, w: nat, side: Side, k: nat, anchor: Option<Sha>) returns (steps: seq<Step>)
    requires k > 0 && w !in t.workers && Get(t.rec, side).state.Pending? && Get(t.rec, side).attempts == k - 1
    requires (side == Client <==> anchor.Some?)
             && Decide(t.rec) == (if anchor.Some? then StartClient(anchor.value) else StartApi)
    requires t.rec.api.runId == RunOf(Api, t.rec.api.attempts)
    ensures Possible(t, steps) && (forall line :: AllLatest(t, steps, line))
    ensures var s := After(t, steps);
            && Get(s.rec, side).state.Failed? && Get(s.rec, side).attempts == k
            && s.accepted == t.accepted + {ChildRun(side, k)} && s.workers == t.workers
  {
    var claimed := Claimed(side, Get(t.rec, side), anchor);
    var rec := Set(t.rec, side, claimed);
    var t1 := Apply(t, Look(w));
    assert t1 == t.(workers := t.workers[w := Going(side, anchor)]);
    var t2 := Apply(t1, Claim(w));
    assert t2 == t.(rec := rec, workers := t1.workers[w := Holding(side, k, anchor)]);
    var t3 := Apply(t2, Enqueue(w));
    assert t3.workers == t.workers && t3.rec == rec;
    var t4 := Apply(t3, Land(ChildRun(side, k)));
    steps := [Look(w), Claim(w), Enqueue(w), Land(ChildRun(side, k)), Observe(side, SeenFailed, false)];
    Five(t, Look(w), Claim(w), Enqueue(w), Land(ChildRun(side, k)), Observe(side, SeenFailed, false));
    forall line ensures AllLatest(t, steps, line) { NothingRefused(t, steps, line); }
  }

  lemma NextIsUsed(s: Sys, line: Line, k: nat, w: nat)
    requires Counted(s) && Newer(s, line, k) && w in s.workers && Claimant(s.workers[w])
             && IdOf(s.workers[w]) == Id(line, k)
    ensures Id(line, k + 1) in s.accepted
            || exists v <- s.workers :: v != w && Claimant(s.workers[v]) && IdOf(s.workers[v]) == Id(line, k + 1)
  {
    if id :| id in s.accepted && LineOf(id) == line && id.attempt > k {
      assert Started(s.accepted, id) && Id(line, id.attempt) == id;
    } else {
      var v :| v in s.workers && Claimant(s.workers[v]) && LineOf(IdOf(s.workers[v])) == line
          && IdOf(s.workers[v]).attempt > k;
      assert Started(s.accepted, IdOf(s.workers[v])) && Id(line, IdOf(s.workers[v]).attempt) == IdOf(s.workers[v]);
    }
  }

  /**
   In any state a run can reach: a refused launch of attempt `k` leaves every later human retry of that child an id of
   its own, in every continuation whose own refusals find no newer attempt, if and only if no attempt after `k` was
   started or is being started. For the client this is asked where its launch can be repeated at all: on a landed, named
   API.
   */
  lemma RetryIsNewIff(s: Sys, w: nat, side: Side, k: nat)
    requires Counted(s) && Enabled(s, Refuse(w)) && s.workers[w].Holding? && IdOf(s.workers[w]) == ChildRun(side, k)
    requires side == Client ==> Landed(s.rec.api) && s.rec.api.anchorSha.Some?
    ensures var t := Apply(s, Refuse(w)); var line := ChildLine(side);
            (forall steps :: Possible(t, steps) && AllLatest(t, steps, line) ==> RetryGetsNew(After(t, steps), side))
            <==> !Newer(s, line, k)
  {
    var t := Apply(s, Refuse(w));
    var line := ChildLine(side);
    assert Started(s.accepted, IdOf(s.workers[w]));
    CountedStep(s, Refuse(w));
    if Newer(s, line, k) {
      NextIsUsed(s, line, k, w);
      var steps := FailsAgain(t, w, side, k, if side == Api then None else t.rec.api.anchorSha);
      assert AllLatest(t, steps, line);
      UsedStays(s, t, After(t, steps), w, Id(line, k + 1));
      assert !RetryGetsNew(After(t, steps), side);
    } else {
      NumberedRefuse(s, w, side);
      forall steps | Possible(t, steps) && AllLatest(t, steps, line) ensures RetryGetsNew(After(t, steps), side) {
        NumberedRun(t, steps, side);
        NumberedIsNew(After(t, steps), side);
      }
    }
  }

  lemma UsedStays(s: Sys, t: Sys, after: Sys, w: nat, id: RunId)
    requires id in s.accepted || exists v <- s.workers :: v != w && Claimant(s.workers[v]) && IdOf(s.workers[v]) == id
    requires t.workers == s.workers - {w} && after.workers == t.workers && after.accepted >= t.accepted == s.accepted
    ensures Used(after, id)
  {
    if id !in s.accepted {
      var v :| v in s.workers && v != w && Claimant(s.workers[v]) && IdOf(s.workers[v]) == id;
      assert v in after.workers && after.workers[v] == s.workers[v];
    }
  }

  // ---------------------------------------------------------------- the check

  /** The children's refusals are timely, and a check's comes while no newer check exists. */
  ghost predicate Steady(s: Sys, step: Step) {
    && (step.Refuse? && step.w in s.workers && s.workers[step.w].Holding? ==> Timely(s, step))
    && Latest(s, step, CheckLine)
  }

  ghost predicate AllSteady(s: Sys, steps: seq<Step>)
    requires Possible(s, steps)
    decreases |steps|
  {
    steps == [] || (Steady(s, steps[0]) && AllSteady(Apply(s, steps[0]), steps[1..]))
  }

  /** No check was ever begun. */
  ghost predicate Unchecked(s: Sys) {
    && s.rec.client.checkAttempts == 0 && !s.rec.client.check.InFlight?
    && (forall id <- s.accepted :: !id.CheckRun?)
    && (forall w <- s.workers :: !s.workers[w].GoingCheck? && !s.workers[w].HoldingCheck?)
  }

  /** A pair that can never be checked: both landed, a commit missing. */
  predicate Uncheckable(r: Record) {
    Landed(r.api) && Landed(r.client) && !Checkable(r)
  }

  ghost predicate CheckNumbered(s: Sys) {
    && (Unchecked(s) || (Checkable(s.rec) && !Newer(s, CheckLine, CurrentCheck(s.rec.client))))
    && (s.rec.client.check.Graded? && s.rec.client.checkAttempts == 0 ==> Uncheckable(s.rec))
  }

  lemma CheckableStays(s: Sys, step: Step)
    requires Enabled(s, step) && Steady(s, step)
    ensures Checkable(s.rec) ==> Checkable(Apply(s, step).rec)
    ensures Uncheckable(s.rec) ==> Uncheckable(Apply(s, step).rec)
  {
  }

  lemma UncheckedStep(s: Sys, step: Step)
    requires Unchecked(s) && Enabled(s, step) && Steady(s, step)
    requires s.rec.client.check.Graded? ==> Uncheckable(s.rec)
    ensures Unchecked(Apply(s, step)) || (Checkable(Apply(s, step).rec)
            && !Newer(Apply(s, step), CheckLine, CurrentCheck(Apply(s, step).rec.client)))
    ensures Apply(s, step).rec.client.check.Graded? ==> Uncheckable(Apply(s, step).rec)
  {
    CheckableStays(s, step);
  }

  lemma NumberedByWorker(s: Sys, step: Step)
    requires Counted(s) && Checkable(s.rec) && !Newer(s, CheckLine, CurrentCheck(s.rec.client)) && Enabled(s, step)
             && Steady(s, step)
    requires step.Claim? || step.Refuse? || step.Enqueue?
    ensures var t := Apply(s, step); !Newer(t, CheckLine, CurrentCheck(t.rec.client))
  {
  }

  lemma NumberedByRecord(s: Sys, step: Step)
    requires Counted(s) && Checkable(s.rec) && !Newer(s, CheckLine, CurrentCheck(s.rec.client)) && Enabled(s, step)
             && Steady(s, step)
    requires !step.Claim? && !step.Refuse? && !step.Enqueue?
    ensures var t := Apply(s, step); !Newer(t, CheckLine, CurrentCheck(t.rec.client))
  {
  }

  lemma CheckableStep(s: Sys, step: Step)
    requires Counted(s) && Checkable(s.rec) && CheckNumbered(s) && !Unchecked(s) && Enabled(s, step) && Steady(s, step)
    ensures CheckNumbered(Apply(s, step))
  {
    CheckableStays(s, step);
    if step.Claim? || step.Refuse? || step.Enqueue? { NumberedByWorker(s, step); } else { NumberedByRecord(s, step); }
  }

  lemma CheckNumberedStep(s: Sys, step: Step)
    requires Counted(s) && CheckNumbered(s) && Enabled(s, step) && Steady(s, step)
    ensures CheckNumbered(Apply(s, step))
  {
    if Unchecked(s) { UncheckedStep(s, step); } else { CheckableStep(s, step); }
  }

  lemma {:induction false} CheckNumberedRun(s: Sys, steps: seq<Step>)
    requires Counted(s) && CheckNumbered(s) && Possible(s, steps) && AllSteady(s, steps)
    ensures CheckNumbered(After(s, steps))
    decreases |steps|
  {
    if steps != [] {
      CheckNumberedStep(s, steps[0]);
      CountedStep(s, steps[0]);
      CheckNumberedRun(Apply(s, steps[0]), steps[1..]);
    }
  }

  /** What a person's re-run of the check would start is new. */
  ghost predicate RerunGetsNew(s: Sys) {
    Imperfect(s.rec.client) ==>
      var after := Apply(s, RetryCheck); !Used(after, CheckRun(after.rec.client.checkAttempts + 1))
  }

  lemma CheckNumberedIsNew(s: Sys)
    requires CheckNumbered(s)
    ensures RerunGetsNew(s)
  {
  }

  /**
   A human re-run of the check gets an id that no run, journal entry or launch in progress has used, in every run whose
   child refusals are timely and whose check refusals come while no newer check exists; parked verdicts included.
   */
  lemma CheckRerunIsNew(steps: seq<Step>)
    requires Possible(Init, steps) && AllSteady(Init, steps) && Imperfect(After(Init, steps).rec.client)
    ensures var after := Apply(After(Init, steps), RetryCheck); var id := CheckRun(after.rec.client.checkAttempts + 1);
            !Used(after, id) && id !in after.landed
  {
    CheckNumberedRun(Init, steps);
    CountedRun(Init, steps);
    CheckNumberedIsNew(After(Init, steps));
  }

  function Drifted(t: Sys, k: nat): Sys {
    t.(rec := t.rec.(client := t.rec.client.(check := Graded(Incompatible), checkAttempts := k,
        checkRunId := CheckRunOf(k))),
       accepted := t.accepted + {CheckRun(k)}, landed := t.landed + {CheckRun(k)})
  }

  /** The check given back is launched again and finds drift. */
  lemma DriftsAgain(t: Sys, w: nat, k: nat) returns (steps: seq<Step>)
    requires k > 0 && w !in t.workers && Checkable(t.rec) && t.rec.client.check.Due?
             && t.rec.client.checkAttempts == k - 1
    ensures Possible(t, steps) && AllSteady(t, steps) && NoHuman(steps)
    ensures After(t, steps) == Drifted(t, k)
  {
    var rec := t.rec.(client := CheckClaimed(t.rec.client));
    var t1 := Apply(t, Look(w));
    assert t1 == t.(workers := t.workers[w := GoingCheck]);
    var t2 := Apply(t1, Claim(w));
    assert t2 == t.(rec := rec, workers := t1.workers[w := HoldingCheck(k)]);
    var t3 := Apply(t2, Enqueue(w));
    assert t3.workers == t.workers && t3.rec == rec;
    var t4 := Apply(t3, Land(CheckRun(k)));
    steps := [Look(w), Claim(w), Enqueue(w), Land(CheckRun(k)), ObserveCheck(Some(Incompatible))];
    Five(t, Look(w), Claim(w), Enqueue(w), Land(CheckRun(k)), ObserveCheck(Some(Incompatible)));
    NothingRefused(t, steps, CheckLine);
  }

  /**
   In any state a run can reach with the pair still checkable: a refused check launch of attempt `k` leaves every later
   re-run an id of its own, in every steady continuation, if and only if no newer check was started or is being started.
   */
  lemma CheckRerunIsNewIff(s: Sys, w: nat, k: nat)
    requires Counted(s) && Checkable(s.rec) && Enabled(s, Refuse(w)) && s.workers[w] == HoldingCheck(k)
    ensures var t := Apply(s, Refuse(w));
            (forall steps :: Possible(t, steps) && AllSteady(t, steps) ==> RerunGetsNew(After(t, steps)))
            <==> !Newer(s, CheckLine, k)
  {
    var t := Apply(s, Refuse(w));
    assert Started(s.accepted, IdOf(s.workers[w]));
    CountedStep(s, Refuse(w));
    if Newer(s, CheckLine, k) {
      NextIsUsed(s, CheckLine, k, w);
      var steps := DriftsAgain(t, w, k);
      UsedStays(s, t, After(t, steps), w, Id(CheckLine, k + 1));
      assert !RerunGetsNew(After(t, steps));
    } else {
      forall steps | Possible(t, steps) && AllSteady(t, steps) ensures RerunGetsNew(After(t, steps)) {
        CheckNumberedRun(t, steps);
        CheckNumberedIsNew(After(t, steps));
      }
    }
  }

  // ---------------------------------------------------------------- an acceptance and a late check refusal

  /** Complete over a verdict that is not good. */
  predicate WavedThrough(r: Record) {
    Complete(r, false) && Imperfect(r.client)
  }

  ghost predicate NobodyAccepts(steps: seq<Step>) {
    forall step <- steps :: !step.AcceptRisk?
  }

  /**
   A refused check launch, written back to a checkable pair, makes the check run again. It leaves no way for a bad new
   verdict to pass without a person accepting it if and only if no acceptance stood on the old one: a late refusal does
   not clear the acceptance, a human re-run does.
   */
  lemma RefusedCheckAcceptanceIff(s: Sys, w: nat, k: nat)
    requires Checkable(s.rec) && Enabled(s, Refuse(w)) && s.workers[w] == HoldingCheck(k) && k > 0
    ensures var t := Apply(s, Refuse(w));
            (forall steps :: Possible(t, steps) && NobodyAccepts(steps) ==> !WavedThrough(After(t, steps).rec))
            <==> !s.rec.client.checkAccepted
  {
    var t := Apply(s, Refuse(w));
    if s.rec.client.checkAccepted {
      var steps := DriftsAgain(t, w, k);
      assert NobodyAccepts(steps) by {
        forall step | step in steps ensures !step.AcceptRisk? { assert !Human(step); }
      }
      assert WavedThrough(After(t, steps).rec);
    } else {
      forall steps | Possible(t, steps) && NobodyAccepts(steps) ensures !WavedThrough(After(t, steps).rec) {
        RiskStaysUnaccepted(t, steps);
      }
    }
  }

  // ---------------------------------------------------------------- runs that reach these states

  const RUN := NewChild.(state := Running, attempts := 1, runId := Some(ChildRun(Api, 1)))

  lemma ThenTo(steps: seq<Step>, step: Step, s: Sys, t: Sys)
    requires Possible(Init, steps) && After(Init, steps) == s && Enabled(s, step) && Apply(s, step) == t
    ensures Possible(Init, steps + [step]) && After(Init, steps + [step]) == t
  {
    Then(Init, steps, step);
  }

  /** The API's first attempt fails while the caller that stalled still holds its claim of it. */
  lemma StalledThenFailed() returns (steps: seq<Step>)
    ensures Possible(Init, steps)
    ensures After(Init, steps) == Sys(NewRecord.(api := RUN.(state := Failed)), map[1 := Holding(Api, 1, None)],
                                      {ChildRun(Api, 1)}, {ChildRun(Api, 1)}, map[])
  {
    steps := StalledClaim();
    var s := After(Init, steps);
    var landed := s.(landed := {ChildRun(Api, 1)});
    ThenTo(steps, Land(ChildRun(Api, 1)), s, landed);
    steps := steps + [Land(ChildRun(Api, 1))];
    ThenTo(steps, Observe(Api, SeenFailed, false), landed, landed.(rec := NewRecord.(api := RUN.(state := Failed))));
    steps := steps + [Observe(Api, SeenFailed, false)];
  }

  /** A late refusal restarts a failed API under the same id, with no human step. */
  lemma LateRefusalRestartsFailedApi() returns (before: seq<Step>, step: Step)
    ensures Possible(Init, before) && Stuck(After(Init, before).rec) && Decide(After(Init, before).rec) == HoldClient
    ensures Enabled(After(Init, before), step) && !Human(step)
            && Decide(Apply(After(Init, before), step).rec) == StartApi
  {
    before := StalledThenFailed();
    step := Refuse(1);
  }

  /** A person retries, and the second attempt starts. */
  lemma StalledThenRetried() returns (steps: seq<Step>)
    ensures Possible(Init, steps)
    ensures var s := After(Init, steps);
            s.workers == map[1 := Holding(Api, 1, None)] && ChildRun(Api, 2) in s.accepted
  {
    steps := StalledThenFailed();
    var s := After(Init, steps);
    var pending := s.(rec := NewRecord.(api := RUN.(state := Pending)));
    ThenTo(steps, RetryChild(Api), s, pending);
    steps := steps + [RetryChild(Api)];
    var going := pending.(workers := pending.workers[4 := Going(Api, None)]);
    ThenTo(steps, Look(4), pending, going);
    steps := steps + [Look(4)];
    ThenTo(steps, Claim(4), going, ClaimStep(going, 4));
    steps := steps + [Claim(4)];
    var claimed := ClaimStep(going, 4);
    assert claimed.workers == map[1 := Holding(Api, 1, None), 4 := Holding(Api, 2, None)];
    ThenTo(steps, Enqueue(4), claimed, EnqueueStep(claimed, 4));
    steps := steps + [Enqueue(4)];
  }

  lemma {:induction false} Joined(s: Sys, a: seq<Step>, b: seq<Step>)
    requires Possible(s, a) && Possible(After(s, a), b)
    ensures Possible(s, a + b) && After(s, a + b) == After(After(s, a), b)
    decreases |a|
  {
    if a == [] {
      assert a + b == b;
    } else {
      Joined(Apply(s, a[0]), a[1..], b);
      assert (a + b)[1..] == a[1..] + b;
    }
  }

  /** The stalled caller's refusal then makes the next human retry take an id already used. */
  lemma LateRefusalReusesAnId() returns (steps: seq<Step>)
    ensures Possible(Init, steps) && !RetryGetsNew(After(Init, steps), Api)
  {
    steps := StalledThenRetried();
    var s := After(Init, steps);
    CountedRun(Init, steps);
    RetryIsNewIff(s, 1, Api, 1);
    assert Newer(s, ChildLine(Api), 1);
    var t := Apply(s, Refuse(1));
    var more :| Possible(t, more) && AllLatest(t, more, ChildLine(Api)) && !RetryGetsNew(After(t, more), Api);
    ThenTo(steps, Refuse(1), s, t);
    Joined(Init, steps + [Refuse(1)], more);
    steps := steps + [Refuse(1)] + more;
  }

  /** The caller about to start the client when the stalled refusal arrives starts it nonetheless. */
  lemma DecidedClientStartsAnyway() returns (steps: seq<Step>)
    ensures Possible(Init, steps) && !Ordering(After(Init, steps).rec)
  {
    steps := StalledClaim();
    var s := After(Init, steps);
    var landed := s.(landed := {ChildRun(Api, 1)});
    ThenTo(steps, Land(ChildRun(Api, 1)), s, landed);
    steps := steps + [Land(ChildRun(Api, 1))];
    var seen := Observe(Api, SeenMerged(Some("c0ffee")), false);
    ThenTo(steps, seen, landed, Apply(landed, seen));
    steps := steps + [seen];
    var merged := Apply(landed, seen);
    ThenTo(steps, Look(3), merged, Apply(merged, Look(3)));
    steps := steps + [Look(3)];
    var coming := Apply(merged, Look(3));
    assert coming.workers[3] == Going(Client, Some("c0ffee"));
    RefusalSafeIff(coming, 1);
    var t := Apply(coming, Refuse(1));
    var more :| Possible(t, more) && AllMild(t, more) && !Ordering(After(t, more).rec);
    ThenTo(steps, Refuse(1), coming, t);
    Joined(Init, steps + [Refuse(1)], more);
    steps := steps + [Refuse(1)] + more;
  }

  const MERGED_API := RUN.(state := Merged, anchorSha := Some("a"), mergedSha := Some("a"))
  const RUN_CLIENT := NewChild.(state := Running, attempts := 1, runId := Some(ChildRun(Client, 1)),
      anchorSha := Some("a"))
  const MERGED_CLIENT := RUN_CLIENT.(state := Merged, anchorSha := Some("b"), mergedSha := Some("b"))
  const RUNS := {ChildRun(Api, 1), ChildRun(Client, 1)}
  const BUILT := map[ChildRun(Client, 1) := "a"]

  /** Both sides merged, nothing outstanding. */
  const BothMerged := Sys(Record(MERGED_API, MERGED_CLIENT), map[], RUNS, RUNS, BUILT)

  lemma ApiMerged() returns (steps: seq<Step>)
    ensures Possible(Init, steps)
    ensures After(Init, steps)
            == Sys(Record(MERGED_API, NewChild), map[], {ChildRun(Api, 1)}, {ChildRun(Api, 1)}, map[])
  {
    var going := Init.(workers := map[1 := Going(Api, None)]);
    ThenTo([], Look(1), Init, going);
    var claimed := Sys(Record(RUN, NewChild), map[1 := Holding(Api, 1, None)], {}, {}, map[]);
    ThenTo([] + [Look(1)], Claim(1), going, claimed);
    var accepted := Sys(Record(RUN, NewChild), map[], {ChildRun(Api, 1)}, {}, map[]);
    ThenTo([] + [Look(1)] + [Claim(1)], Enqueue(1), claimed, accepted);
    var landed := accepted.(landed := {ChildRun(Api, 1)});
    ThenTo([] + [Look(1)] + [Claim(1)] + [Enqueue(1)], Land(ChildRun(Api, 1)), accepted, landed);
    steps := [] + [Look(1)] + [Claim(1)] + [Enqueue(1)] + [Land(ChildRun(Api, 1))];
    var seen := Observe(Api, SeenMerged(Some("a")), false);
    ThenTo(steps, seen, landed, landed.(rec := Record(MERGED_API, NewChild)));
    steps := steps + [seen];
  }

  lemma BothSidesMerged() returns (steps: seq<Step>)
    ensures Possible(Init, steps) && After(Init, steps) == BothMerged
  {
    steps := ApiMerged();
    var s := After(Init, steps);
    var going := s.(workers := map[1 := Going(Client, Some("a"))]);
    ThenTo(steps, Look(1), s, going);
    steps := steps + [Look(1)];
    var claimed := s.(rec := Record(MERGED_API, RUN_CLIENT), workers := map[1 := Holding(Client, 1, Some("a"))]);
    ThenTo(steps, Claim(1), going, claimed);
    steps := steps + [Claim(1)];
    var accepted := Sys(Record(MERGED_API, RUN_CLIENT), map[], RUNS, {ChildRun(Api, 1)}, BUILT);
    ThenTo(steps, Enqueue(1), claimed, accepted);
    steps := steps + [Enqueue(1)];
    ThenTo(steps, Land(ChildRun(Client, 1)), accepted, accepted.(landed := RUNS));
    steps := steps + [Land(ChildRun(Client, 1))];
    var seen := Observe(Client, SeenMerged(Some("b")), false);
    ThenTo(steps, seen, accepted.(landed := RUNS), BothMerged);
    steps := steps + [seen];
  }

  const STALLED := map[9 := HoldingCheck(1)]

  /** Checked and found drifting, while the caller that first claimed the check and stalled still holds its claim. */
  const Drifting := Sys(
    Record(MERGED_API, MERGED_CLIENT.(check := Graded(Incompatible), checkAttempts := 1,
        checkRunId := Some(CheckRun(1)))),
    STALLED, RUNS + {CheckRun(1)}, RUNS + {CheckRun(1)}, BUILT)

  lemma StalledCheckClaim() returns (steps: seq<Step>)
    ensures Possible(Init, steps)
    ensures After(Init, steps)
            == BothMerged.(rec := Record(MERGED_API, MERGED_CLIENT.(check := Due)), workers := STALLED)
  {
    steps := BothSidesMerged();
    var going := BothMerged.(workers := map[9 := GoingCheck]);
    ThenTo(steps, Look(9), BothMerged, going);
    steps := steps + [Look(9)];
    var claimed := BothMerged.(rec := Record(MERGED_API, CheckClaimed(MERGED_CLIENT)), workers := STALLED);
    ThenTo(steps, Claim(9), going, claimed);
    steps := steps + [Claim(9)];
    ThenTo(steps, RepairCheck, claimed, claimed.(rec := Record(MERGED_API, MERGED_CLIENT.(check := Due))));
    steps := steps + [RepairCheck];
  }

  lemma StalledThenDrifting() returns (steps: seq<Step>)
    ensures Possible(Init, steps) && After(Init, steps) == Drifting
  {
    steps := StalledCheckClaim();
    var s := After(Init, steps);
    var more := DriftsAgain(s, 1, 1);
    Joined(Init, steps, more);
    steps := steps + more;
  }

  /** A late check refusal reuses an id. */
  lemma LateRefusalReusesACheckId() returns (steps: seq<Step>)
    ensures Possible(Init, steps) && !RerunGetsNew(After(Init, steps))
  {
    steps := StalledThenDrifting();
    var rerun := Apply(Drifting, RetryCheck);
    ThenTo(steps, RetryCheck, Drifting, rerun);
    steps := steps + [RetryCheck];
    var more := DriftsAgain(rerun, 1, 2);
    Joined(Init, steps, more);
    steps := steps + more;
    var s := Drifted(rerun, 2);
    CountedRun(Init, steps);
    CheckRerunIsNewIff(s, 9, 1);
    assert Newer(s, CheckLine, 1);
    var t := Apply(s, Refuse(9));
    var last :| Possible(t, last) && AllSteady(t, last) && !RerunGetsNew(After(t, last));
    ThenTo(steps, Refuse(9), s, t);
    Joined(Init, steps + [Refuse(9)], last);
    steps := steps + [Refuse(9)] + last;
  }

  /** A late check refusal lets a second bad verdict pass on the acceptance of the first. */
  lemma LateRefusalKeepsAnAcceptance() returns (before: seq<Step>, after: seq<Step>)
    ensures Possible(Init, before) && CheckRun(1) in After(Init, before).landed
            && After(Init, before).rec.client.checkAccepted
    ensures Possible(After(Init, before), after) && NobodyAccepts(after) && |after| > 0 && after[0] == Refuse(9)
    ensures WavedThrough(After(After(Init, before), after).rec)
  {
    before := StalledThenDrifting();
    var s := Apply(Drifting, AcceptRisk);
    ThenTo(before, AcceptRisk, Drifting, s);
    before := before + [AcceptRisk];
    RefusedCheckAcceptanceIff(s, 9, 1);
    var t := Apply(s, Refuse(9));
    var more :| Possible(t, more) && NobodyAccepts(more) && WavedThrough(After(t, more).rec);
    Ahead(s, Refuse(9), more);
    after := [Refuse(9)] + more;
  }
}
