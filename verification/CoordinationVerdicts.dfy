/**
 Where a record's outcomes come from: every verdict, merge and failure on record was seen of the run it is about, or
 decided by the one step that may decide it, in every run there is, late refusals included.
 */
module CoordinationVerdicts {
  import opened Options
  import opened CoordinationSpec

  // ---------------------------------------------------------------- the last time something became so

  lemma {:induction false} SplitAt(s: Sys, steps: seq<Step>, k: nat)
    requires Possible(s, steps) && k < |steps|
    ensures Possible(s, steps[..k]) && Enabled(After(s, steps[..k]), steps[k])
    ensures Possible(Apply(After(s, steps[..k]), steps[k]), steps[k + 1..])
    decreases k
  {
    if k > 0 {
      SplitAt(Apply(s, steps[0]), steps[1..], k - 1);
      assert steps[..k][1..] == steps[1..][..k - 1] && steps[1..][k..] == steps[k + 1..];
    }
  }

  /** The same place, one step into the run. */
  lemma SplitNext(s: Sys, steps: seq<Step>, k: nat)
    requires Possible(s, steps) && 0 < k < |steps|
    ensures Possible(s, steps[..k]) && Possible(Apply(s, steps[0]), steps[1..][..k - 1])
    ensures After(s, steps[..k]) == After(Apply(s, steps[0]), steps[1..][..k - 1])
    ensures steps[1..][k - 1] == steps[k] && steps[1..][k..] == steps[k + 1..]
  {
    SplitAt(s, steps, k);
    SplitAt(Apply(s, steps[0]), steps[1..], k - 1);
    assert steps[..k][1..] == steps[1..][..k - 1];
  }

  /** So all along. */
  predicate Since(s: Sys, steps: seq<Step>, holds: Sys -> bool)
    requires Possible(s, steps)
    decreases |steps|
  {
    holds(s) && (steps == [] || Since(Apply(s, steps[0]), steps[1..], holds))
  }

  /** The `k`-th step made it so, and it was so from then on. */
  predicate TurnedAt(s: Sys, steps: seq<Step>, k: nat, holds: Sys -> bool) {
    && k < |steps| && Possible(s, steps[..k]) && Enabled(After(s, steps[..k]), steps[k])
    && !holds(After(s, steps[..k])) && Possible(Apply(After(s, steps[..k]), steps[k]), steps[k + 1..])
    && Since(Apply(After(s, steps[..k]), steps[k]), steps[k + 1..], holds)
  }

  lemma {:induction false} LastTurn(s: Sys, steps: seq<Step>, holds: Sys -> bool) returns (k: nat)
    requires Possible(s, steps) && holds(After(s, steps))
    ensures Since(s, steps, holds) || TurnedAt(s, steps, k, holds)
    decreases |steps|
  {
    k := 0;
    if steps != [] {
      var j := LastTurn(Apply(s, steps[0]), steps[1..], holds);
      if Since(Apply(s, steps[0]), steps[1..], holds) {
        assert steps[..0] == [];
      } else {
        k := j + 1;
        SplitAt(s, steps, k);
        SplitNext(s, steps, k);
      }
    }
  }

  // ---------------------------------------------------------------- the check's verdict

  function IsGraded(v: Verdict): Sys -> bool {
    (s: Sys) => s.rec.client.check == Graded(v)
  }

  /**
   The step puts the verdict on record: it is the one seen of the current check run, while that was in flight on a
   landed client, or it is uncertain and the pair is parked because a commit to check against is missing.
   */
  predicate Grades(s: Sys, step: Step, v: Verdict) {
    var c := s.rec.client;
    || (step == ObserveCheck(Some(v)) && c.check.InFlight? && Landed(c)
        && c.checkRunId.Some? && c.checkRunId.value in s.landed)
    || (step == Park && v == Uncertain && Landed(s.rec.api) && Landed(c) && (c.check.NotDue? || c.check.Due?)
        && (s.rec.api.anchorSha.None? || (c.mergedSha.None? && c.anchorSha.None?)))
  }

  lemma GradingStep(s: Sys, step: Step, v: Verdict)
    requires Enabled(s, step) && Apply(s, step).rec.client.check == Graded(v) && s.rec.client.check != Graded(v)
    ensures Grades(s, step, v)
  {
  }

  /** A verdict on record is the one last seen of the check, or the pair was parked, and it stood from then on. */
  lemma VerdictWasSeen(steps: seq<Step>, v: Verdict) returns (k: nat)
    requires Possible(Init, steps) && After(Init, steps).rec.client.check == Graded(v)
    ensures TurnedAt(Init, steps, k, IsGraded(v)) && Grades(After(Init, steps[..k]), steps[k], v)
  {
    k := LastTurn(Init, steps, IsGraded(v));
    GradingStep(After(Init, steps[..k]), steps[k], v);
  }

  const Accepted := (s: Sys) => s.rec.client.checkAccepted

  lemma AcceptingStep(s: Sys, step: Step)
    requires Enabled(s, step) && Apply(s, step).rec.client.checkAccepted && !s.rec.client.checkAccepted
    ensures step == AcceptRisk
            && (s.rec.client.check == Graded(Incompatible) || s.rec.client.check == Graded(Uncertain))
  {
  }

  /**
   A pair is complete only when both sides landed, on a verdict seen compatible, or on one seen incompatible or
   uncertain, or parked as uncertain, together with a person's acceptance of such a verdict that still stands.
   */
  lemma CompleteWasEarned(steps: seq<Step>, gateBlocks: bool) returns (v: Verdict, k: nat, m: nat)
    requires Possible(Init, steps) && Complete(After(Init, steps).rec, gateBlocks)
    ensures var s := After(Init, steps); Landed(s.rec.api) && Landed(s.rec.client) && !gateBlocks
    ensures TurnedAt(Init, steps, k, IsGraded(v)) && Grades(After(Init, steps[..k]), steps[k], v)
    ensures v == Compatible || (TurnedAt(Init, steps, m, Accepted) && steps[m] == AcceptRisk)
  {
    v := After(Init, steps).rec.client.check.verdict;
    k := VerdictWasSeen(steps, v);
    m := 0;
    if v != Compatible {
      m := LastTurn(Init, steps, Accepted);
      AcceptingStep(After(Init, steps[..m]), steps[m]);
    }
  }

  /** And a pair landed on a good or accepted verdict is complete but for the integration gate. */
  lemma EarnedIsComplete(r: Record)
    requires Landed(r.api) && Landed(r.client)
    requires r.client.check == Graded(Compatible) || (r.client.check.Graded? && r.client.checkAccepted)
    ensures Complete(r, false)
  {
  }

  // ---------------------------------------------------------------- how a child ended

  function IsLanded(side: Side, sha: Option<Sha>): Sys -> bool {
    (s: Sys) => Landed(Get(s.rec, side)) && Get(s.rec, side).anchorSha == sha
                && (sha.Some? ==> Get(s.rec, side).mergedSha == sha)
  }

  function IsFailed(side: Side): Sys -> bool {
    (s: Sys) => Get(s.rec, side).state.Failed?
  }

  function IsDelivered(side: Side): Sys -> bool {
    (s: Sys) => Get(s.rec, side).state.Delivered?
  }

  const ClientHeld := (s: Sys) => s.rec.client.state.Held?

  /** The step saw that of the child's present run, while that was running. */
  predicate Saw(s: Sys, step: Step, side: Side, seen: Seen) {
    && step.Observe? && step.side == side && step.seen == seen
    && Get(s.rec, side).state.Running? && Get(s.rec, side).runId.Some? && Get(s.rec, side).runId.value in s.landed
  }

  lemma LandingStep(s: Sys, step: Step, side: Side, sha: Option<Sha>)
    requires Enabled(s, step) && IsLanded(side, sha)(Apply(s, step)) && !IsLanded(side, sha)(s)
    ensures Saw(s, step, side, SeenMerged(sha))
  {
  }

  /** The commit recorded as merged is the anchor while the child stands landed on one. */
  predicate Anchored(s: Sys, side: Side) {
    var c := Get(s.rec, side);
    Landed(c) && c.anchorSha.Some? ==> c.mergedSha == c.anchorSha
  }

  lemma AnchoredStep(s: Sys, step: Step, side: Side)
    requires Anchored(s, side) && Enabled(s, step)
    ensures Anchored(Apply(s, step), side)
  {
    var sha := Get(Apply(s, step).rec, side).anchorSha;
    if Landed(Get(Apply(s, step).rec, side)) && !Landed(Get(s.rec, side)) {
      assert step.Observe? && step.side == side;
    }
  }

  lemma {:induction false} AnchoredRun(s: Sys, steps: seq<Step>, side: Side)
    requires Anchored(s, side) && Possible(s, steps)
    ensures Anchored(After(s, steps), side)
    decreases |steps|
  {
    if steps != [] {
      AnchoredStep(s, steps[0], side);
      AnchoredRun(Apply(s, steps[0]), steps[1..], side);
    }
  }

  /** A child is on record as landed because its run was last seen merged, at the very commit recorded. */
  lemma LandingWasSeen(steps: seq<Step>, side: Side) returns (k: nat)
    requires Possible(Init, steps) && Landed(Get(After(Init, steps).rec, side))
    ensures var sha := Get(After(Init, steps).rec, side).anchorSha;
            && TurnedAt(Init, steps, k, IsLanded(side, sha))
               && Saw(After(Init, steps[..k]), steps[k], side, SeenMerged(sha))
            && (sha.Some? ==> MergedCommit(Get(After(Init, steps).rec, side)) == sha)
  {
    AnchoredRun(Init, steps, side);
    var sha := Get(After(Init, steps).rec, side).anchorSha;
    k := LastTurn(Init, steps, IsLanded(side, sha));
    LandingStep(After(Init, steps[..k]), steps[k], side, sha);
  }

  lemma FailingStep(s: Sys, step: Step, side: Side)
    requires Enabled(s, step) && Get(Apply(s, step).rec, side).state.Failed? && !Get(s.rec, side).state.Failed?
    ensures Saw(s, step, side, SeenFailed)
  {
  }

  /** It is on record as failed because its run was last seen to fail. */
  lemma FailureWasSeen(steps: seq<Step>, side: Side) returns (k: nat)
    requires Possible(Init, steps) && Get(After(Init, steps).rec, side).state.Failed?
    ensures TurnedAt(Init, steps, k, IsFailed(side)) && Saw(After(Init, steps[..k]), steps[k], side, SeenFailed)
  {
    k := LastTurn(Init, steps, IsFailed(side));
    FailingStep(After(Init, steps[..k]), steps[k], side);
  }

  lemma DeliveringStep(s: Sys, step: Step, side: Side)
    requires Enabled(s, step) && Get(Apply(s, step).rec, side).state.Delivered? && !Get(s.rec, side).state.Delivered?
    ensures step.Observe? && step.side == side && step.confirmed
    ensures Get(s.rec, side).state.Merged? || (Get(s.rec, side).state.Running? && step.seen.SeenMerged?)
  {
  }

  /** It is on record as delivered because a delivery of it was confirmed, when merged or with the merge itself. */
  lemma DeliveryWasConfirmed(steps: seq<Step>, side: Side) returns (k: nat)
    requires Possible(Init, steps) && Get(After(Init, steps).rec, side).state.Delivered?
    ensures TurnedAt(Init, steps, k, IsDelivered(side))
    ensures steps[k].Observe? && steps[k].side == side && steps[k].confirmed
    ensures Get(After(Init, steps[..k]).rec, side).state.Merged? || steps[k].seen.SeenMerged?
  {
    k := LastTurn(Init, steps, IsDelivered(side));
    DeliveringStep(After(Init, steps[..k]), steps[k], side);
  }

  lemma HoldingStep(s: Sys, step: Step)
    requires Enabled(s, step) && Apply(s, step).rec.client.state.Held? && !s.rec.client.state.Held?
    ensures step == Hold && s.rec.client.state.Pending?
    ensures s.rec.api.state.Failed? || (Landed(s.rec.api) && s.rec.api.anchorSha.None?)
  {
  }

  /** A client is held only while not started, because the API failed or landed on no known commit. */
  lemma HeldForAReason(steps: seq<Step>) returns (k: nat)
    requires Possible(Init, steps) && After(Init, steps).rec.client.state.Held?
    ensures TurnedAt(Init, steps, k, ClientHeld) && steps[k] == Hold
    ensures var s := After(Init, steps[..k]);
            && s.rec.client.state.Pending?
            && (s.rec.api.state.Failed? || (Landed(s.rec.api) && s.rec.api.anchorSha.None?))
  {
    k := LastTurn(Init, steps, ClientHeld);
    HoldingStep(After(Init, steps[..k]), steps[k]);
  }

  /** Nothing seen of a child or of the check is overlooked: what is seen of a live run is on record at once. */
  lemma SeenIsRecorded(s: Sys, side: Side, seen: Seen, confirmed: bool)
    requires Enabled(s, Observe(side, seen, confirmed)) && Get(s.rec, side).runId.Some?
    ensures var was := Get(s.rec, side); var now := Get(Apply(s, Observe(side, seen, confirmed)).rec, side);
            && (was.state.Running? && seen.SeenFailed? ==> now.state.Failed?)
            && (was.state.Running? && seen.SeenMerged? ==>
                  now.state == (if confirmed then Delivered else Merged) && now.anchorSha == seen.sha)
            && (was.state.Merged? && confirmed ==> now.state.Delivered?)
  {
  }

  lemma VerdictIsRecorded(s: Sys, v: Verdict)
    requires Enabled(s, ObserveCheck(Some(v))) && s.rec.client.check.InFlight? && Landed(s.rec.client)
    ensures Apply(s, ObserveCheck(Some(v))).rec.client.check == Graded(v)
  {
  }
}
