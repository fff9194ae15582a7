/** The ordering of coordinated launches, in runs whose refusals are timely. */
module CoordinationTheorems {
  import opened Options
  import opened CoordinationSpec

  predicate Launched(c: Child) {
    c.state.Running? || Landed(c)
  }

  // ---------------------------------------------------------------- the invariant

  /** The attempt counter and the run id always match by derivation. */
  predicate Derived(r: Record) {
    && r.api.runId == RunOf(Api, r.api.attempts)
    && r.client.runId == RunOf(Client, r.client.attempts)
    && r.client.checkRunId == CheckRunOf(r.client.checkAttempts)
    && (r.api.state.Running? || r.api.state.Failed? || Landed(r.api) ==> r.api.attempts > 0)
    && (r.client.state.Running? || r.client.state.Failed? || Landed(r.client) ==> r.client.attempts > 0)
    && (r.client.check.InFlight? ==> r.client.checkAttempts > 0)
  }

  /** A client that was ever launched stands on a landed API with a recorded anchor. */
  predicate Ordered(r: Record) {
    && !r.api.state.Held?
    && (Launched(r.client) || r.client.state.Failed? ==> Landed(r.api) && r.api.anchorSha.Some?)
    && (r.client.state.Running? ==> r.client.anchorSha == r.api.anchorSha)
    && (!r.client.check.NotDue? ==> Landed(r.client))
    && (r.client.checkAttempts > 0 ==> MergedCommit(r.client).Some? && Landed(r.client))
    && (r.client.checkAccepted ==> Imperfect(r.client))
  }

  predicate OnAnchor(r: Record, anchor: Option<Sha>) {
    Landed(r.api) && r.api.anchorSha.Some? && r.api.anchorSha == anchor
  }

  predicate Checkable(r: Record) {
    Landed(r.api) && r.api.anchorSha.Some? && Landed(r.client) && MergedCommit(r.client).Some?
  }

  /** The run id the child's present attempt has or will get. */
  function Current(c: Child): nat {
    if c.state.Pending? || c.state.Held? then c.attempts + 1 else c.attempts
  }

  function CurrentCheck(c: Child): nat {
    match c.check
    case NotDue => c.checkAttempts + 1
    case Due => c.checkAttempts + 1
    case InFlight => c.checkAttempts
    case Graded(_) => if c.checkAttempts == 0 then 1 else c.checkAttempts
  }

  function Newest(r: Record, id: RunId): nat {
    match id
    case ChildRun(side, _) => Current(Get(r, side))
    case CheckRun(_) => CurrentCheck(r.client)
  }

  predicate WorkerOk(r: Record, l: Launch) {
    match l
    case Going(side, anchor) => side == Client ==> OnAnchor(r, anchor)
    case Holding(side, k, anchor) => 1 <= k <= Current(Get(r, side)) && (side == Client ==> OnAnchor(r, anchor))
    case GoingCheck => Checkable(r)
    case HoldingCheck(k) => 1 <= k <= CurrentCheck(r.client) && Checkable(r)
  }

  predicate AcceptedOk(s: Sys, id: RunId) {
    && 1 <= id.attempt <= Newest(s.rec, id)
    && (id.ChildRun? && id.side == Client ==> id in s.builtOn && OnAnchor(s.rec, Some(s.builtOn[id])))
    && (id.CheckRun? ==> Checkable(s.rec))
  }

  /** Every attempt before the present one was really started. */
  ghost predicate PastStarted(s: Sys) {
    forall id: RunId {:trigger id in s.landed} {:trigger Newest(s.rec, id)} ::
      1 <= id.attempt < Newest(s.rec, id) ==> id in s.landed
  }

  predicate SettledStarted(s: Sys) {
    && (s.rec.api.state.Failed? || Landed(s.rec.api) ==> ChildRun(Api, s.rec.api.attempts) in s.landed)
    && (s.rec.client.state.Failed? || Landed(s.rec.client) ==> ChildRun(Client, s.rec.client.attempts) in s.landed)
    && (s.rec.client.check.Graded? && s.rec.client.checkAttempts > 0 ==>
       CheckRun(s.rec.client.checkAttempts) in s.landed)
  }

  ghost predicate Inv(s: Sys) {
    && Derived(s.rec) && Ordered(s.rec)
    && (forall w <- s.workers :: WorkerOk(s.rec, s.workers[w]))
    && (forall id <- s.accepted :: AcceptedOk(s, id))
    && s.landed <= s.accepted
    && PastStarted(s) && SettledStarted(s)
  }

  // ---------------------------------------------------------------- what a step may do to the record

  /** Landed children stay landed on the same anchor, and present attempts only move forward. */
  predicate Forward(r: Record, after: Record) {
    && (Landed(r.api) ==> Landed(after.api) && after.api.anchorSha == r.api.anchorSha)
    && (Landed(r.client) ==> Landed(after.client) && MergedCommit(after.client) == MergedCommit(r.client))
    && Current(r.api) <= Current(after.api)
    && Current(r.client) <= Current(after.client)
    && CurrentCheck(r.client) <= CurrentCheck(after.client)
  }

  lemma WorkersFollow(s: Sys, after: Record)
    requires Inv(s) && Forward(s.rec, after)
    ensures forall w <- s.workers :: WorkerOk(after, s.workers[w])
    ensures forall id <- s.accepted :: AcceptedOk(s.(rec := after), id)
  {
  }

  predicate GoodWrite(r: Record, after: Record) {
    Forward(r, after) && Derived(after) && Ordered(after)
  }

  /** No present attempt moves: whatever starts next starts under an id already in use. */
  predicate Still(r: Record, after: Record) {
    Current(after.api) == Current(r.api) && Current(after.client) == Current(r.client)
    && CurrentCheck(after.client) == CurrentCheck(r.client)
  }

  lemma ClaimWrites(s: Sys, w: nat)
    requires Inv(s) && Enabled(s, Claim(w))
    ensures GoodWrite(s.rec, ClaimStep(s, w).rec) && Still(s.rec, ClaimStep(s, w).rec)
  {
    assert WorkerOk(s.rec, s.workers[w]);
  }

  lemma GiveBackWrites(r: Record, side: Side, k: nat)
    requires Derived(r) && Ordered(r) && k > 0 && Get(r, side).state.Running? && Get(r, side).attempts == k
    ensures GoodWrite(r, Set(r, side, GivenBack(side, Get(r, side), k)))
    ensures Still(r, Set(r, side, GivenBack(side, Get(r, side), k)))
  {
  }

  lemma CheckGiveBackWrites(r: Record, k: nat)
    requires Derived(r) && Ordered(r) && k > 0 && r.client.check.InFlight? && r.client.checkAttempts == k
    ensures GoodWrite(r, r.(client := CheckGivenBack(r.client, k)))
            && Still(r, r.(client := CheckGivenBack(r.client, k)))
  {
  }

  lemma ObserveWrites(r: Record, side: Side, seen: Seen, confirmed: bool)
    requires Derived(r) && Ordered(r)
    ensures GoodWrite(r, Set(r, side, Observed(side, Get(r, side), seen, confirmed)))
    ensures Still(r, Set(r, side, Observed(side, Get(r, side), seen, confirmed)))
  {
  }

  lemma RetryWrites(r: Record, side: Side)
    requires Derived(r) && Ordered(r) && Retried(r, side).Some?
    ensures GoodWrite(r, Retried(r, side).value)
    ensures forall id :: Newest(r, id) < Newest(Retried(r, side).value, id) ==>
              id.ChildRun? && id.side == side && Get(r, side).state.Failed?
                  && Newest(Retried(r, side).value, id) == Newest(r, id) + 1
  {
  }

  lemma CheckMovesWrite(r: Record, verdict: Option<Verdict>)
    requires Derived(r) && Ordered(r)
    ensures var after := r.(client := CheckObserved(r.client, verdict)); GoodWrite(r, after) && Still(r, after)
    ensures Decide(r).ParkCheck? ==>
              var after := r.(client := r.client.(check := Graded(Uncertain))); GoodWrite(r, after) && Still(r, after)
    ensures RiskAccepted(r).Some? ==> GoodWrite(r, RiskAccepted(r).value) && Still(r, RiskAccepted(r).value)
  {
  }

  lemma CheckRetryWrites(r: Record)
    requires Derived(r) && Ordered(r) && CheckRetried(r).Some?
    ensures GoodWrite(r, CheckRetried(r).value)
    ensures forall id :: Newest(r, id) < Newest(CheckRetried(r).value, id) ==>
              id.CheckRun? && r.client.checkAttempts > 0 && Newest(CheckRetried(r).value, id) == Newest(r, id) + 1
  {
  }

  lemma HoldWrites(r: Record)
    requires Derived(r) && Ordered(r) && Decide(r).HoldClient?
    ensures var after := r.(client := r.client.(state := Held)); GoodWrite(r, after) && Still(r, after)
  {
  }

  lemma RecordStep(s: Sys, step: Step)
    requires Inv(s) && Enabled(s, step) && Timely(s, step)
    ensures GoodWrite(s.rec, Apply(s, step).rec)
    ensures !step.RetryChild? && !step.RetryCheck? ==> Still(s.rec, Apply(s, step).rec)
  {
    match step
    case Claim(w) => ClaimWrites(s, w);
    case Refuse(w) =>
      var l := s.workers[w];
      assert WorkerOk(s.rec, l);
      if l.Holding? { GiveBackWrites(s.rec, l.side, l.attempt); } else { CheckGiveBackWrites(s.rec, l.attempt); }
    case Repair(side) => GiveBackWrites(s.rec, side, Get(s.rec, side).attempts);
    case RepairCheck => CheckGiveBackWrites(s.rec, s.rec.client.checkAttempts);
    case Observe(side, seen, confirmed) => ObserveWrites(s.rec, side, seen, confirmed);
    case ObserveCheck(v) => CheckMovesWrite(s.rec, v);
    case Hold => HoldWrites(s.rec);
    case Park => CheckMovesWrite(s.rec, None);
    case RetryChild(side) => RetryWrites(s.rec, side);
    case RetryCheck => CheckRetryWrites(s.rec);
    case AcceptRisk => CheckMovesWrite(s.rec, None);
    case _ =>
  }

  // ---------------------------------------------------------------- every step keeps the invariant

  lemma SettledByObserve(s: Sys, side: Side, seen: Seen, confirmed: bool)
    requires Inv(s) && Enabled(s, Observe(side, seen, confirmed))
    ensures SettledStarted(s.(rec := Set(s.rec, side, Observed(side, Get(s.rec, side), seen, confirmed))))
  {
  }

  lemma SettledByWorker(s: Sys, step: Step)
    requires Inv(s) && Enabled(s, step) && Timely(s, step) && (step.Claim? || step.Refuse?)
    ensures SettledStarted(Apply(s, step))
  {
    assert WorkerOk(s.rec, s.workers[step.w]);
  }

  lemma SettledStays(s: Sys, step: Step)
    requires Inv(s) && Enabled(s, step) && Timely(s, step)
    ensures SettledStarted(Apply(s, step))
  {
    match step
    case Claim(w) => SettledByWorker(s, step);
    case Refuse(w) => SettledByWorker(s, step);
    case Observe(side, seen, confirmed) => SettledByObserve(s, side, seen, confirmed);
    case _ =>
  }

  lemma PastFollows(s: Sys, after: Record, landed: set<RunId>)
    requires PastStarted(s) && s.landed <= landed
    requires forall id :: Newest(s.rec, id) < Newest(after, id) ==>
               Newest(after, id) == Newest(s.rec, id) + 1
                   && (id.attempt == Newest(s.rec, id) && id.attempt > 0 ==> id in s.landed)
    ensures forall id: RunId :: 1 <= id.attempt < Newest(after, id) ==> id in landed
  {
    forall id: RunId | 1 <= id.attempt < Newest(after, id) ensures id in landed {
      assert 1 <= id.attempt < Newest(s.rec, id) ==> id in s.landed;
    }
  }

  lemma StillFollows(s: Sys, after: Record, landed: set<RunId>)
    requires PastStarted(s) && s.landed <= landed && Still(s.rec, after)
    ensures forall id: RunId :: 1 <= id.attempt < Newest(after, id) ==> id in landed
  {
    PastFollows(s, after, landed);
  }

  lemma RetryPast(s: Sys, side: Side)
    requires Inv(s) && Retried(s.rec, side).Some?
    ensures PastStarted(s.(rec := Retried(s.rec, side).value))
  {
    RetryWrites(s.rec, side);
    PastFollows(s, Retried(s.rec, side).value, s.landed);
  }

  lemma CheckRetryPast(s: Sys)
    requires Inv(s) && CheckRetried(s.rec).Some?
    ensures PastStarted(s.(rec := CheckRetried(s.rec).value))
  {
    CheckRetryWrites(s.rec);
    PastFollows(s, CheckRetried(s.rec).value, s.landed);
  }

  lemma StillPast(s: Sys, step: Step)
    requires Inv(s) && Enabled(s, step) && s.landed <= Apply(s, step).landed && Still(s.rec, Apply(s, step).rec)
    ensures PastStarted(Apply(s, step))
  {
    StillFollows(s, Apply(s, step).rec, Apply(s, step).landed);
  }

  lemma LandedGrows(s: Sys, step: Step)
    requires Enabled(s, step)
    ensures s.landed <= Apply(s, step).landed
  {
  }

  lemma PastStays(s: Sys, step: Step)
    requires Inv(s) && Enabled(s, step) && Timely(s, step)
    ensures PastStarted(Apply(s, step))
  {
    match step
    case RetryChild(side) => RetryPast(s, side);
    case RetryCheck => CheckRetryPast(s);
    case _ =>
      RecordStep(s, step);
      LandedGrows(s, step);
      StillPast(s, step);
  }

  lemma ClaimHolds(s: Sys, w: nat)
    requires Inv(s) && Enabled(s, Claim(w))
    ensures var after := ClaimStep(s, w); forall v <- after.workers :: WorkerOk(after.rec, after.workers[v])
  {
    assert WorkerOk(s.rec, s.workers[w]);
    ClaimWrites(s, w);
    WorkersFollow(s, ClaimStep(s, w).rec);
  }

  lemma EnqueueAccepts(s: Sys, w: nat)
    requires Inv(s) && Enabled(s, Enqueue(w))
    ensures var after := EnqueueStep(s, w); forall id <- after.accepted :: AcceptedOk(after, id)
  {
    assert WorkerOk(s.rec, s.workers[w]);
  }

  lemma WorkersStay(s: Sys, step: Step)
    requires Inv(s) && Enabled(s, step) && Timely(s, step)
    ensures var after := Apply(s, step); forall w <- after.workers :: WorkerOk(after.rec, after.workers[w])
  {
    RecordStep(s, step);
    WorkersFollow(s, Apply(s, step).rec);
    if step.Claim? { ClaimHolds(s, step.w); }
  }

  lemma AcceptedStay(s: Sys, step: Step)
    requires Inv(s) && Enabled(s, step) && Timely(s, step)
    ensures var after := Apply(s, step);
            (forall id <- after.accepted :: AcceptedOk(after, id)) && after.landed <= after.accepted
  {
    RecordStep(s, step);
    WorkersFollow(s, Apply(s, step).rec);
    if step.Enqueue? { EnqueueAccepts(s, step.w); }
  }

  lemma StepKeeps(s: Sys, step: Step)
    requires Inv(s) && Enabled(s, step) && Timely(s, step)
    ensures Inv(Apply(s, step))
  {
    RecordStep(s, step);
    WorkersStay(s, step);
    AcceptedStay(s, step);
    PastStays(s, step);
    SettledStays(s, step);
  }

  lemma {:induction false} RunKeeps(s: Sys, steps: seq<Step>)
    requires Inv(s) && Possible(s, steps) && AllTimely(s, steps)
    ensures Inv(After(s, steps))
    decreases |steps|
  {
    if steps != [] {
      StepKeeps(s, steps[0]);
      RunKeeps(Apply(s, steps[0]), steps[1..]);
    }
  }

  lemma InitOk()
    ensures Inv(Init)
  {
  }

  // ---------------------------------------------------------------- main results

  /** A run of the system from its creation in which refusals are timely. */
  ghost predicate Fair(steps: seq<Step>) {
    Possible(Init, steps) && AllTimely(Init, steps)
  }

  lemma FairInv(steps: seq<Step>)
    requires Fair(steps)
    ensures Inv(After(Init, steps))
  {
    InitOk();
    RunKeeps(Init, steps);
  }

  /**
   The ordering rule: a client that is running, merged or delivered means the API merged or was delivered
   with a recorded anchor, and every client run ever launched was told to build on exactly that anchor.
   */
  lemma ClientFollowsApi(steps: seq<Step>)
    requires Fair(steps)
    ensures var s := After(Init, steps);
            && (Launched(s.rec.client) ==> Landed(s.rec.api) && s.rec.api.anchorSha.Some?)
            && (s.rec.client.state.Running? ==> s.rec.client.anchorSha == s.rec.api.anchorSha)
            && (forall id <- s.accepted :: id.ChildRun? && id.side == Client ==>
                  Landed(s.rec.api) && id in s.builtOn && s.rec.api.anchorSha == Some(s.builtOn[id]))
  {
    FairInv(steps);
  }

  /** Once the API landed, whatever happens next leaves it landed on the same anchor. */
  lemma {:induction false} AnchorIsFixed(s: Sys, steps: seq<Step>)
    requires Inv(s) && Landed(s.rec.api) && Possible(s, steps) && AllTimely(s, steps)
    ensures Landed(After(s, steps).rec.api) && After(s, steps).rec.api.anchorSha == s.rec.api.anchorSha
    decreases |steps|
  {
    if steps != [] {
      RecordStep(s, steps[0]);
      StepKeeps(s, steps[0]);
      AnchorIsFixed(Apply(s, steps[0]), steps[1..]);
    }
  }

  ghost predicate NoHuman(steps: seq<Step>) {
    forall step <- steps :: !Human(step)
  }

  lemma StuckStep(s: Sys, step: Step)
    requires Inv(s) && Enabled(s, step) && Timely(s, step) && !Human(step)
    requires s.rec.api.state.Failed? && (s.rec.client.state.Pending? || s.rec.client.state.Held?)
    ensures Apply(s, step).rec.api.state.Failed?
    ensures Apply(s, step).rec.client.state.Pending? || Apply(s, step).rec.client.state.Held?
  {
    if step.Claim? { assert WorkerOk(s.rec, s.workers[step.w]); }
  }

  /** A failed API with a client not yet started goes nowhere but to a held client until a human acts. */
  lemma {:induction false} FailedApiOnlyHolds(s: Sys, steps: seq<Step>)
    requires Inv(s) && Possible(s, steps) && AllTimely(s, steps) && NoHuman(steps)
    requires s.rec.api.state.Failed? && (s.rec.client.state.Pending? || s.rec.client.state.Held?)
    ensures var after := After(s, steps);
            && after.rec.api.state.Failed? && (after.rec.client.state.Pending? || after.rec.client.state.Held?)
            && Decide(after.rec) == (if after.rec.client.state.Pending? then HoldClient else Nothing)
    decreases |steps|
  {
    if steps != [] {
      StuckStep(s, steps[0]);
      StepKeeps(s, steps[0]);
      FailedApiOnlyHolds(Apply(s, steps[0]), steps[1..]);
    }
  }

  /** The id of the attempt a pending child takes next. */
  function NextRun(side: Side, c: Child): RunId {
    ChildRun(side, c.attempts + 1)
  }

  // ---------------------------------------------------------------- accepted risk

  lemma {:induction false} RiskStaysUnaccepted(s: Sys, steps: seq<Step>)
    requires Possible(s, steps) && !s.rec.client.checkAccepted
    requires forall step <- steps :: !step.AcceptRisk?
    ensures !After(s, steps).rec.client.checkAccepted
    decreases |steps|
  {
    if steps != [] {
      OnlyAcceptAccepts(s, steps[0]);
      RiskStaysUnaccepted(Apply(s, steps[0]), steps[1..]);
    }
  }

  lemma OnlyAcceptAccepts(s: Sys, step: Step)
    requires Enabled(s, step) && !step.AcceptRisk? && !s.rec.client.checkAccepted
    ensures !Apply(s, step).rec.client.checkAccepted
  {
  }

  /**
   An acceptance covers one verdict: it exists only over an imperfect verdict, and after a re-run the pair
   is unaccepted until a human accepts again.
   */
  lemma AcceptanceCoversOneVerdict(steps: seq<Step>, later: seq<Step>)
    requires Possible(Init, steps) && Imperfect(After(Init, steps).rec.client)
    requires Possible(Apply(After(Init, steps), RetryCheck), later) && forall step <- later :: !step.AcceptRisk?
    ensures !After(Apply(After(Init, steps), RetryCheck), later).rec.client.checkAccepted
  {
    RiskStaysUnaccepted(Apply(After(Init, steps), RetryCheck), later);
  }

  /** A complete pair: both sides landed, every client run built on the API's anchor, the verdict good or accepted. */
  lemma CompleteMeans(steps: seq<Step>, gateBlocks: bool)
    requires Fair(steps) && Complete(After(Init, steps).rec, gateBlocks)
    ensures var s := After(Init, steps);
            && Landed(s.rec.api) && Landed(s.rec.client) && !gateBlocks
            && ChildRun(Client, s.rec.client.attempts) in s.landed
            && ChildRun(Client, s.rec.client.attempts) in s.builtOn
            && s.rec.api.anchorSha == Some(s.builtOn[ChildRun(Client, s.rec.client.attempts)])
            && (s.rec.client.check == Graded(Compatible) <==> !s.rec.client.checkAccepted)
  {
    FairInv(steps);
    var s := After(Init, steps);
    assert AcceptedOk(s, ChildRun(Client, s.rec.client.attempts));
  }

  // ---------------------------------------------------------------- the untimely refusal

  predicate Ordering(r: Record) {
    Launched(r.client) ==> Landed(r.api)
  }

  lemma {:induction false} Then(s: Sys, steps: seq<Step>, step: Step)
    requires Possible(s, steps) && Enabled(After(s, steps), step)
    ensures Possible(s, steps + [step]) && After(s, steps + [step]) == Apply(After(s, steps), step)
    decreases |steps|
  {
    if steps == [] {
      assert steps + [step] == [step] && [step][1..] == [];
    } else {
      Then(Apply(s, steps[0]), steps[1..], step);
      assert (steps + [step])[1..] == steps[1..] + [step];
    }
  }

  /** One caller claims the API and stalls; a repair gives the claim back; a second caller launches the same id. */
  lemma StalledClaim() returns (steps: seq<Step>)
    ensures Possible(Init, steps)
    ensures After(Init, steps)
            == Sys(NewRecord.(api := NewChild.(state := Running, attempts := 1, runId := Some(ChildRun(Api, 1)))),
                                      map[1 := Holding(Api, 1, None)], {ChildRun(Api, 1)}, {}, map[])
  {
    var running := NewChild.(state := Running, attempts := 1, runId := Some(ChildRun(Api, 1)));
    steps := [];
    Then(Init, steps, Look(1)); steps := steps + [Look(1)];
    assert After(Init, steps) == Init.(workers := map[1 := Going(Api, None)]);
    Then(Init, steps, Claim(1)); steps := steps + [Claim(1)];
    assert After(Init, steps) == Sys(Record(running, NewChild), map[1 := Holding(Api, 1, None)], {}, {}, map[]);
    Then(Init, steps, Repair(Api)); steps := steps + [Repair(Api)];
    assert After(Init, steps) == Sys(NewRecord, map[1 := Holding(Api, 1, None)], {}, {}, map[]);
    Then(Init, steps, Look(2)); steps := steps + [Look(2)];
    Then(Init, steps, Claim(2)); steps := steps + [Claim(2)];
    assert After(Init, steps) == Sys(Record(running, NewChild),
           map[1 := Holding(Api, 1, None), 2 := Holding(Api, 1, None)], {}, {}, map[]);
    Then(Init, steps, Enqueue(2)); steps := steps + [Enqueue(2)];
  }

  /** Then the run merges and the client is launched. */
  lemma StalledThenMerged() returns (steps: seq<Step>)
    ensures Possible(Init, steps)
    ensures var s := After(Init, steps);
            Launched(s.rec.client) && Landed(s.rec.api) && 1 in s.workers && s.workers[1] == Holding(Api, 1, None)
  {
    steps := StalledClaim();
    Then(Init, steps, Land(ChildRun(Api, 1))); steps := steps + [Land(ChildRun(Api, 1))];
    var seen := Observe(Api, SeenMerged(Some("c0ffee")), false);
    Then(Init, steps, seen); steps := steps + [seen];
    Then(Init, steps, Look(3)); steps := steps + [Look(3)];
    assert After(Init, steps).workers[3] == Going(Client, Some("c0ffee"));
    Then(Init, steps, Claim(3)); steps := steps + [Claim(3)];
  }

  /**
   Without that condition the ordering rule fails: the stalled caller's refusal, arriving late, writes the
   merged API back to pending while the client built on its merge is running.
   */
  lemma LateRefusalBreaksOrdering() returns (steps: seq<Step>)
    ensures Possible(Init, steps) && !Ordering(After(Init, steps).rec)
  {
    steps := StalledThenMerged();
    Then(Init, steps, Refuse(1));
    steps := steps + [Refuse(1)];
  }
}
