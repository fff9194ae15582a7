/** The stored record with the methods that rewrite it, for one caller at a time. */
module CoordinationObject {
  import opened Options
  import opened CoordinationSpec
  import opened CoordinationTheorems
  import opened CoordinationRefusals

  /** What the runs' logs and the delivery records admit when a call reads them. */
  datatype View = View(api: Seen, apiConfirmed: bool, client: Seen, clientConfirmed: bool, verdict: Option<Verdict>)

  datatype Outcome = Started(id: RunId) | EnqueueRefused | ClientHeld | CheckParked | Idle

  /** Only a run that exists has an outcome to read. */
  predicate Honest(s: Sys, v: View) {
    Enabled(s, Observe(Api, v.api, v.apiConfirmed)) && Enabled(s, Observe(Client, v.client, v.clientConfirmed))
    && Enabled(s, ObserveCheck(v.verdict))
  }

  function ObservedRecord(r: Record, v: View): Record {
    Record(Observed(Api, r.api, v.api, v.apiConfirmed),
           CheckObserved(Observed(Client, r.client, v.client, v.clientConfirmed), v.verdict))
  }

  /** Claimed, but no such run exists yet. */
  predicate Missing(s: Sys, id: Option<RunId>) {
    id.Some? && id.value !in s.landed
  }

  function RepairedChild(s: Sys, side: Side, c: Child): Child {
    if c.state.Running? && Lost(s, c.runId) && c.attempts > 0 then GivenBack(side, c, c.attempts) else c
  }

  function RepairedCheck(s: Sys, c: Child): Child {
    if c.check.InFlight? && Lost(s, c.checkRunId) && c.checkAttempts > 0 then CheckGivenBack(c, c.checkAttempts) else c
  }

  function RepairedRecord(s: Sys, r: Record): Record {
    Record(RepairedChild(s, Api, r.api), RepairedCheck(s, RepairedChild(s, Client, r.client)))
  }

  /** An accepted run that never appeared is published again. */
  predicate Republishes(s: Sys, r: Record) {
    || (r.api.state.Running? && Missing(s, r.api.runId) && r.api.runId.value in s.accepted)
    || (r.client.state.Running? && Missing(s, r.client.runId) && r.client.runId.value in s.accepted)
    || (r.client.check.InFlight? && Missing(s, r.client.checkRunId) && r.client.checkRunId.value in s.accepted)
  }

  function Launching(s: Sys, side: Side, anchor: Option<Sha>, refuses: bool): (Sys, Outcome) {
    var c := Claimed(side, Get(s.rec, side), anchor);
    var id := ChildRun(side, c.attempts);
    if refuses then (s.(rec := Set(s.rec, side, GivenBack(side, c, c.attempts))), EnqueueRefused)
    else (s.(rec := Set(s.rec, side, c), accepted := s.accepted + {id},
             builtOn := if anchor.Some? && id !in s.accepted then s.builtOn[id := anchor.value] else s.builtOn),
                 Started(id))
  }

  function LaunchingCheck(s: Sys, refuses: bool): (Sys, Outcome) {
    var c := CheckClaimed(s.rec.client);
    var id := CheckRun(c.checkAttempts);
    if refuses then (s.(rec := s.rec.(client := CheckGivenBack(c, c.checkAttempts))), EnqueueRefused)
    else (s.(rec := s.rec.(client := c), accepted := s.accepted + {id}), Started(id))
  }

  /** The first thing due, in the fixed order. */
  function Acted(s: Sys, refuses: bool): (Sys, Outcome) {
    match Decide(s.rec)
    case StartApi => Launching(s, Api, None, refuses)
    case StartClient(anchor) => Launching(s, Client, Some(anchor), refuses)
    case StartCheck => LaunchingCheck(s, refuses)
    case HoldClient => (s.(rec := s.rec.(client := s.rec.client.(state := Held))), ClientHeld)
    case ParkCheck => (s.(rec := s.rec.(client := s.rec.client.(check := Graded(Uncertain)))), CheckParked)
    case Nothing => (s, Idle)
  }

  /** One whole `launchNext`: observe, repair, then the first thing due. */
  function Advanced(s: Sys, v: View, refuses: bool): (Sys, Outcome) {
    var seen := ObservedRecord(s.rec, v);
    var swept := s.(rec := RepairedRecord(s, seen));
    Acted(swept, refuses)
  }

  // ---------------------------------------------------------------- progress

  /** Whatever the record says is running exists and has not ended. */
  predicate Live(s: Sys, v: View) {
    && (s.rec.api.state.Running? ==> ChildRun(Api, s.rec.api.attempts) in s.landed && v.api.StillRunning?)
    && (s.rec.client.state.Running? ==> ChildRun(Client, s.rec.client.attempts) in s.landed && v.client.StillRunning?)
    && (s.rec.client.check.InFlight? ==>
          CheckRun(s.rec.client.checkAttempts) in s.landed && (Landed(s.rec.client) ==> v.verdict.None?))
  }

  /** The pair waits on a run: the API's, or after it the client's, or after both the check's. */
  predicate Waiting(r: Record) {
    || r.api.state.Running?
    || (Landed(r.api) && r.client.state.Running?)
    || (Landed(r.api) && Landed(r.client) && r.client.check.InFlight?)
  }

  /** Only a person can move it: a failed API with nothing to hold, a failed or held client, a bad verdict. */
  predicate ParkedOnHuman(r: Record) {
    || r.api.state.Held? || (r.api.state.Failed? && !r.client.state.Pending?)
    || (Landed(r.api) && (r.client.state.Failed? || r.client.state.Held?))
    || (Landed(r.api) && Landed(r.client) && Imperfect(r.client) && !r.client.checkAccepted)
  }

  /** A person has something to do about a parked pair: retry a side, or re-run or accept the check. */
  lemma ParkedCanBeRetried(r: Record)
    requires ParkedOnHuman(r)
    ensures Retried(r, Api).Some? || Retried(r, Client).Some? || (CheckRetried(r).Some? && RiskAccepted(r).Some?)
  {
  }

  /** Complete, or complete but for the integration gate. */
  predicate CompleteButForGate(r: Record) {
    Complete(r, false)
  }

  /** No delivery was newly confirmed. */
  predicate NoNewDelivery(r: Record, v: View) {
    !(r.api.state.Merged? && v.apiConfirmed) && !(r.client.state.Merged? && v.clientConfirmed)
  }

  /** A call that wrote nothing, started nothing and republished nothing. */
  predicate Unmoved(s: Sys, v: View, refuses: bool) {
    Advanced(s, v, refuses) == (s, Idle) && !Republishes(s, ObservedRecord(s.rec, v))
  }

  predicate Resting(s: Sys, v: View) {
    NoNewDelivery(s.rec, v) && Live(s, v) && (Waiting(s.rec) || ParkedOnHuman(s.rec) || CompleteButForGate(s.rec))
  }

  lemma RestingIsUnmoved(s: Sys, v: View, refuses: bool)
    requires Counted(s) && Honest(s, v) && Resting(s, v)
    ensures Unmoved(s, v, refuses)
  {
    assert ObservedRecord(s.rec, v) == s.rec;
    assert RepairedRecord(s, s.rec) == s.rec;
  }

  lemma UnmovedIsLive(s: Sys, v: View, refuses: bool)
    requires Counted(s) && Honest(s, v) && Unmoved(s, v, refuses)
    ensures NoNewDelivery(s.rec, v) && Live(s, v)
  {
  }

  lemma UnmovedIsResting(s: Sys, v: View, refuses: bool)
    requires Counted(s) && Honest(s, v) && Unmoved(s, v, refuses)
    ensures Resting(s, v)
  {
    UnmovedIsLive(s, v, refuses);
  }

  /**
   Progress, in every run there is, late refusals included: `launchNext` leaves a pair alone exactly when everything
   running is alive and the pair is waiting on it, parked on a person, or complete up to the integration gate.
   */
  lemma MovesUnlessResting(steps: seq<Step>, v: View, refuses: bool)
    requires Possible(Init, steps) && Honest(After(Init, steps), v)
    ensures Unmoved(After(Init, steps), v, refuses) <==> Resting(After(Init, steps), v)
  {
    CountedRun(Init, steps);
    var s := After(Init, steps);
    if Unmoved(s, v, refuses) { UnmovedIsResting(s, v, refuses); }
    if Resting(s, v) { RestingIsUnmoved(s, v, refuses); }
  }

  // ---------------------------------------------------------------- the object

  lemma {:induction false} Extend(s: Sys, h: seq<Step>, step: Step)
    requires Possible(s, h) && AllTimely(s, h) && Enabled(After(s, h), step) && Timely(After(s, h), step)
    ensures Possible(s, h + [step]) && AllTimely(s, h + [step]) && After(s, h + [step]) == Apply(After(s, h), step)
    decreases |h|
  {
    if h == [] {
      assert h + [step] == [step] && [step][1..] == [];
    } else {
      Extend(Apply(s, h[0]), h[1..], step);
      assert (h + [step])[1..] == h[1..] + [step];
    }
  }

  function Taken(refuses: bool): seq<Step> {
    [Look(0), Claim(0), if refuses then Refuse(0) else Enqueue(0)]
  }

  lemma ThreeMore(h: seq<Step>, a: Step, b: Step, c: Step)
    ensures h + [a] + [b] + [c] == h + [a, b, c]
  {
  }

  predicate DueChild(r: Record, side: Side, anchor: Option<Sha>) {
    Decide(r) == if side == Client && anchor.Some? then StartClient(anchor.value) else StartApi
  }

  lemma Claimed2(h: seq<Step>, s: Sys, side: Side, anchor: Option<Sha>)
    requires Fair(h) && After(Init, h) == s && s.workers == map[]
    requires DueChild(s.rec, side, anchor) && (side == Client <==> anchor.Some?)
    ensures var c := Claimed(side, Get(s.rec, side), anchor); var g := h + [Look(0)] + [Claim(0)];
            Fair(g) && After(Init, g)
                == s.(rec := Set(s.rec, side, c), workers := map[0 := Holding(side, c.attempts, anchor)])
  {
    Extend(Init, h, Look(0));
    assert After(Init, h + [Look(0)]) == s.(workers := map[0 := Going(side, anchor)]);
    Extend(Init, h + [Look(0)], Claim(0));
  }

  /** The three steps of one uninterrupted launch lead where `Launching` says. */
  lemma LaunchPath(h: seq<Step>, s: Sys, side: Side, anchor: Option<Sha>, refuses: bool)
    requires Fair(h) && After(Init, h) == s && s.workers == map[]
    requires DueChild(s.rec, side, anchor) && (side == Client <==> anchor.Some?)
    ensures Fair(h + Taken(refuses)) && After(Init, h + Taken(refuses)) == Launching(s, side, anchor, refuses).0
  {
    Claimed2(h, s, side, anchor);
    var c := Claimed(side, Get(s.rec, side), anchor);
    var last := if refuses then Refuse(0) else Enqueue(0);
    Extend(Init, h + [Look(0)] + [Claim(0)], last);
    ThreeMore(h, Look(0), Claim(0), last);
    assert map[0 := Holding(side, c.attempts, anchor)] - {0} == map[];
  }

  lemma CheckPath(h: seq<Step>, s: Sys, refuses: bool)
    requires Fair(h) && After(Init, h) == s && s.workers == map[] && Decide(s.rec).StartCheck?
    ensures Fair(h + Taken(refuses)) && After(Init, h + Taken(refuses)) == LaunchingCheck(s, refuses).0
  {
    var c := CheckClaimed(s.rec.client);
    var last := if refuses then Refuse(0) else Enqueue(0);
    Extend(Init, h, Look(0));
    assert After(Init, h + [Look(0)]) == s.(workers := map[0 := GoingCheck]);
    Extend(Init, h + [Look(0)], Claim(0));
    Extend(Init, h + [Look(0)] + [Claim(0)], last);
    ThreeMore(h, Look(0), Claim(0), last);
    assert map[0 := HoldingCheck(c.checkAttempts)] - {0} == map[];
  }

  class Coordinator {
    var rec: Record
    var accepted: set<RunId>
    var landed: set<RunId>
    var builtOn: map<RunId, Sha>
    ghost var history: seq<Step>

    ghost function State(): Sys
      reads this
    {
      Sys(rec, map[], accepted, landed, builtOn)
    }

    /** The object stands where its own history leads. */
    ghost predicate Valid()
      reads this
    {
      Fair(history) && After(Init, history) == State()
    }

    constructor ()
      ensures Valid() && State() == Init
    {
      rec, accepted, landed, builtOn, history := NewRecord, {}, {}, map[], [];
    }

    /** Another process starts an accepted run. */
    method Land(id: RunId)
      requires Valid() && id in accepted
      modifies this
      ensures Valid() && State() == old(State()).(landed := old(landed) + {id})
    {
      Extend(Init, history, CoordinationSpec.Land(id));
      history := history + [CoordinationSpec.Land(id)];
      landed := landed + {id};
    }

    method ObserveAll(v: View)
      requires Valid() && Honest(State(), v)
      modifies this
      ensures Valid() && State() == old(State()).(rec := ObservedRecord(old(rec), v))
    {
      Extend(Init, history, Observe(Api, v.api, v.apiConfirmed));
      history := history + [Observe(Api, v.api, v.apiConfirmed)];
      rec := rec.(api := Observed(Api, rec.api, v.api, v.apiConfirmed));
      Extend(Init, history, Observe(Client, v.client, v.clientConfirmed));
      history := history + [Observe(Client, v.client, v.clientConfirmed)];
      rec := rec.(client := Observed(Client, rec.client, v.client, v.clientConfirmed));
      Extend(Init, history, ObserveCheck(v.verdict));
      history := history + [ObserveCheck(v.verdict)];
      rec := rec.(client := CheckObserved(rec.client, v.verdict));
    }

    /** Gives a claim back when its run exists nowhere; reports an accepted one that was published again. */
    method RepairOne(side: Side) returns (republished: bool)
      requires Valid()
      modifies this
      ensures Valid() && State()
              == old(State()).(rec := Set(old(rec), side, RepairedChild(old(State()), side, Get(old(rec), side))))
      ensures republished <==> Get(old(rec), side).state.Running? && Missing(old(State()), Get(old(rec), side).runId)
                               && Get(old(rec), side).runId.value in old(accepted)
    {
      republished := false;
      var c := Get(rec, side);
      FairInv(history);
      if c.state.Running? && c.runId.Some? && c.runId.value !in landed {
        if c.runId.value in accepted {
          republished := true;
        } else {
          Extend(Init, history, Repair(side));
          history := history + [Repair(side)];
          rec := Set(rec, side, GivenBack(side, c, c.attempts));
        }
      }
    }

    method RepairTheCheck() returns (republished: bool)
      requires Valid()
      modifies this
      ensures Valid() && State()
              == old(State()).(rec := old(rec).(client := RepairedCheck(old(State()), old(rec).client)))
      ensures republished <==> old(rec).client.check.InFlight? && Missing(old(State()), old(rec).client.checkRunId)
                               && old(rec).client.checkRunId.value in old(accepted)
    {
      republished := false;
      var c := rec.client;
      FairInv(history);
      if c.check.InFlight? && c.checkRunId.Some? && c.checkRunId.value !in landed {
        if c.checkRunId.value in accepted {
          republished := true;
        } else {
          Extend(Init, history, CoordinationSpec.RepairCheck);
          history := history + [CoordinationSpec.RepairCheck];
          rec := rec.(client := CheckGivenBack(c, c.checkAttempts));
        }
      }
    }

    /** Claim, then enqueue; a refusal writes the claim back. */
    method LaunchChild(side: Side, anchor: Option<Sha>, refuses: bool) returns (outcome: Outcome)
      requires Valid() && DueChild(rec, side, anchor) && (side == Client <==> anchor.Some?)
      modifies this
      ensures Valid() && (State(), outcome) == Launching(old(State()), side, anchor, refuses)
    {
      LaunchPath(history, State(), side, anchor, refuses);
      history := history + Taken(refuses);
      rec := Set(rec, side, Claimed(side, Get(rec, side), anchor));
      var c := Get(rec, side);
      var id := ChildRun(side, c.attempts);
      if refuses {
        rec := Set(rec, side, GivenBack(side, c, c.attempts));
        outcome := EnqueueRefused;
      } else {
        if anchor.Some? && id !in accepted { builtOn := builtOn[id := anchor.value]; }
        accepted := accepted + {id};
        outcome := Started(id);
      }
    }

    method LaunchCheck(refuses: bool) returns (outcome: Outcome)
      requires Valid() && Decide(rec).StartCheck?
      modifies this
      ensures Valid() && (State(), outcome) == LaunchingCheck(old(State()), refuses)
    {
      CheckPath(history, State(), refuses);
      history := history + Taken(refuses);
      rec := rec.(client := CheckClaimed(rec.client));
      var c := rec.client;
      if refuses {
        rec := rec.(client := CheckGivenBack(c, c.checkAttempts));
        outcome := EnqueueRefused;
      } else {
        accepted := accepted + {CheckRun(c.checkAttempts)};
        outcome := Started(CheckRun(c.checkAttempts));
      }
    }

    method RepairLostLaunches() returns (republished: bool)
      requires Valid()
      modifies this
      ensures Valid() && State() == old(State()).(rec := RepairedRecord(old(State()), old(rec)))
      ensures republished <==> Republishes(old(State()), old(rec))
    {
      var api := RepairOne(Api);
      var client := RepairOne(Client);
      var check := RepairTheCheck();
      republished := api || client || check;
    }

    /** The fixed order: API, client hold, client, check. */
    method Act(refuses: bool) returns (outcome: Outcome)
      requires Valid()
      modifies this
      ensures Valid() && (State(), outcome) == Acted(old(State()), refuses)
    {
      if rec.api.state.Pending? {
        outcome := LaunchChild(Api, None, refuses);
      } else if rec.client.state.Pending? && Landed(rec.api) && rec.api.anchorSha.Some? {
        outcome := LaunchChild(Client, rec.api.anchorSha, refuses);
      } else if rec.client.state.Pending? && (rec.api.state.Failed? || Landed(rec.api)) {
        Extend(Init, history, Hold);
        history := history + [Hold];
        rec := rec.(client := rec.client.(state := Held));
        outcome := ClientHeld;
      } else if Landed(rec.api) && Landed(rec.client) && (rec.client.check.NotDue? || rec.client.check.Due?) {
        if MergedCommit(rec.client).Some? && rec.api.anchorSha.Some? {
          outcome := LaunchCheck(refuses);
        } else {
          Extend(Init, history, Park);
          history := history + [Park];
          rec := rec.(client := rec.client.(check := Graded(Uncertain)));
          outcome := CheckParked;
        }
      } else {
        outcome := Idle;
      }
    }

    /** The one enqueue door. */
    method LaunchNext(v: View, refuses: bool) returns (outcome: Outcome, republished: bool)
      requires Valid() && Honest(State(), v)
      modifies this
      ensures Valid() && (State(), outcome) == Advanced(old(State()), v, refuses)
      ensures republished <==> Republishes(old(State()), ObservedRecord(old(rec), v))
      ensures (State() == old(State()) && outcome == Idle && !republished) <==> Resting(old(State()), v)
    {
      MovesUnlessResting(history, v, refuses);
      ObserveAll(v);
      republished := RepairLostLaunches();
      outcome := Act(refuses);
    }

    /** The human retry; false stands for the thrown refusal. The launch itself is the next `LaunchNext`. */
    method RetryChildOf(side: Side) returns (ok: bool)
      requires Valid()
      modifies this
      ensures Valid() && ok == Retried(old(rec), side).Some?
      ensures State() == if ok then old(State()).(rec := Retried(old(rec), side).value) else old(State())
    {
      var c := Get(rec, side);
      ok := c.state.Failed? || c.state.Held?;
      if ok {
        Extend(Init, history, RetryChild(side));
        history := history + [RetryChild(side)];
        rec := Set(rec, side, c.(state := Pending));
        if side == Api && rec.client.state.Held? { rec := rec.(client := rec.client.(state := Pending)); }
      }
    }

    method RetryTheCheck() returns (ok: bool)
      requires Valid()
      modifies this
      ensures Valid() && ok == Imperfect(old(rec).client)
      ensures State() == if ok then old(State()).(rec := CheckRetried(old(rec)).value) else old(State())
    {
      ok := rec.client.check == Graded(Incompatible) || rec.client.check == Graded(Uncertain);
      if ok {
        Extend(Init, history, RetryCheck);
        history := history + [RetryCheck];
        rec := rec.(client := rec.client.(check := Due, checkAccepted := false));
      }
    }

    method AcceptCheckRisk() returns (ok: bool)
      requires Valid()
      modifies this
      ensures Valid() && ok == RiskAccepted(old(rec)).Some?
      ensures State() == if ok then old(State()).(rec := RiskAccepted(old(rec)).value) else old(State())
    {
      ok := Imperfect(rec.client) && !rec.client.checkAccepted;
      if ok {
        Extend(Init, history, AcceptRisk);
        history := history + [AcceptRisk];
        rec := rec.(client := rec.client.(checkAccepted := true));
      }
    }
  }
}
