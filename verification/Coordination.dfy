/**
 Two-repository coordination: an API child, a client child that may only start against the API's merged
 commit, and a compatibility check that starts once the client merged. Every launch is a fenced claim
 followed, as a separate step, by an enqueue that may be refused or never happen.
 */
module CoordinationSpec {
  import opened Options

  datatype Side = Api | Client
  datatype ChildState = Pending | Running | Merged | Delivered | Failed | Held
  datatype Verdict = Compatible | Incompatible | Uncertain
  datatype Check = NotDue | Due | InFlight | Graded(verdict: Verdict)

  /** Derived from the coordination, the side and the attempt; the digest is taken as collision-free. */
  datatype RunId = ChildRun(side: Side, attempt: nat) | CheckRun(attempt: nat)

  type Sha = string

  datatype Child = Child(
    state: ChildState, attempts: nat, runId: Option<RunId>,
    anchorSha: Option<Sha>, mergedSha: Option<Sha>,
    check: Check, checkAttempts: nat, checkRunId: Option<RunId>, checkAccepted: bool)

  datatype Record = Record(api: Child, client: Child)

  const NewChild := Child(Pending, 0, None, None, None, NotDue, 0, None, false)
  const NewRecord := Record(NewChild, NewChild)

  function Get(r: Record, side: Side): Child {
    if side == Api then r.api else r.client
  }

  function Set(r: Record, side: Side, c: Child): Record {
    if side == Api then r.(api := c) else r.(client := c)
  }

  predicate Landed(c: Child) {
    c.state.Merged? || c.state.Delivered?
  }

  /** The client's own merged commit; older records only have it in the overloaded field. */
  function MergedCommit(c: Child): Option<Sha> {
    if c.mergedSha.Some? then c.mergedSha else c.anchorSha
  }

  function RunOf(side: Side, attempts: nat): Option<RunId> {
    if attempts > 0 then Some(ChildRun(side, attempts)) else None
  }

  function CheckRunOf(attempts: nat): Option<RunId> {
    if attempts > 0 then Some(CheckRun(attempts)) else None
  }

  // ---------------------------------------------------------------- writes to the record

  /** What a run's own log admits. */
  datatype Seen = StillRunning | SeenMerged(sha: Option<Sha>) | SeenFailed

  function Observed(side: Side, c: Child, seen: Seen, confirmed: bool): Child {
    if c.runId.None? then c
    else match c.state
      case Running =>
        (match seen
         case StillRunning => c
         case SeenFailed => c.(state := Failed)
         case SeenMerged(sha) =>
           c.(state := if confirmed then Delivered else Merged, anchorSha := sha,
              mergedSha := if sha.Some? then sha else c.mergedSha))
      case Merged => if confirmed then c.(state := Delivered) else c
      case _ => c
  }

  function CheckObserved(c: Child, verdict: Option<Verdict>): Child {
    if c.check.InFlight? && c.checkRunId.Some? && Landed(c) && verdict.Some? then c.(check := Graded(verdict.value))
        else c
  }

  /** A launch given back: the same run id is tried again. */
  function GivenBack(side: Side, c: Child, attempt: nat): Child
    requires attempt > 0
  {
    c.(state := Pending, attempts := attempt - 1, runId := RunOf(side, attempt - 1))
  }

  function CheckGivenBack(c: Child, attempt: nat): Child
    requires attempt > 0
  {
    c.(check := Due, checkAttempts := attempt - 1, checkRunId := CheckRunOf(attempt - 1))
  }

  function Claimed(side: Side, c: Child, anchor: Option<Sha>): Child {
    c.(state := Running, attempts := c.attempts + 1, runId := RunOf(side, c.attempts + 1),
       anchorSha := if side == Client && anchor.Some? then anchor else c.anchorSha)
  }

  function CheckClaimed(c: Child): Child {
    c.(check := InFlight, checkAttempts := c.checkAttempts + 1, checkRunId := CheckRunOf(c.checkAttempts + 1))
  }

  /** Why `launchNext` would start something, read off one view of the record, in its fixed order. */
  datatype Decision = StartApi | HoldClient | StartClient(anchor: Sha) | StartCheck | ParkCheck | Nothing

  function Decide(r: Record): Decision {
    if r.api.state.Pending? then StartApi
    else if r.api.state.Failed? then (if r.client.state.Pending? then HoldClient else Nothing)
    else if Landed(r.api) then
      if r.client.state.Pending? then
        (if r.api.anchorSha.Some? then StartClient(r.api.anchorSha.value) else HoldClient)
      else if Landed(r.client) && (r.client.check.NotDue? || r.client.check.Due?) then
        (if MergedCommit(r.client).Some? && r.api.anchorSha.Some? then StartCheck else ParkCheck)
      else Nothing
    else Nothing
  }

  /** A human retry; None is the thrown refusal. */
  function Retried(r: Record, side: Side): Option<Record> {
    var c := Get(r, side);
    if !c.state.Failed? && !c.state.Held? then None
    else
      var next := Set(r, side, c.(state := Pending));
      Some(if side == Api && next.client.state.Held? then next.(client := next.client.(state := Pending)) else next)
  }

  predicate Imperfect(c: Child) {
    c.check.Graded? && !c.check.verdict.Compatible?
  }

  function CheckRetried(r: Record): Option<Record> {
    if !Imperfect(r.client) then None
    else Some(r.(client := r.client.(check := Due, checkAccepted := false)))
  }

  function RiskAccepted(r: Record): Option<Record> {
    if !Imperfect(r.client) || r.client.checkAccepted then None
    else Some(r.(client := r.client.(checkAccepted := true)))
  }

  /** `gate` is the integration gate's answer when it applies: blocking or not. */
  predicate Complete(r: Record, gateBlocks: bool) {
    Landed(r.api) && Landed(r.client) && !gateBlocks
    && (r.client.check == Graded(Compatible) || (Imperfect(r.client) && r.client.checkAccepted))
  }

  // ---------------------------------------------------------------- the system

  /** One caller part-way through a launch. */
  datatype Launch =
    | Going(side: Side, anchor: Option<Sha>)
    | Holding(side: Side, attempt: nat, anchor: Option<Sha>)
    | GoingCheck
    | HoldingCheck(attempt: nat)

  /**
   `accepted`: runs the launch journal took; `landed`: runs that exist; `builtOn`: the anchor in a client run's task.
   */
  datatype Sys = Sys(rec: Record, workers: map<nat, Launch>, accepted: set<RunId>, landed: set<RunId>,
      builtOn: map<RunId, Sha>)

  const Init := Sys(NewRecord, map[], {}, {}, map[])

  datatype Step =
    | Look(w: nat)                                        // launchNext reads the record and decides to start something
    | Claim(w: nat)                                       // the fenced write
    | Enqueue(w: nat)                                     // the journal accepts the run
    | Refuse(w: nat)                                      // enqueueRun threw: the claim is written back
    | Crash(w: nat)
    | Land(id: RunId)
    | Observe(side: Side, seen: Seen, confirmed: bool)
    | ObserveCheck(verdict: Option<Verdict>)
    | Repair(side: Side)
    | RepairCheck
    | Hold
    | Park
    | RetryChild(side: Side)
    | RetryCheck
    | AcceptRisk

  predicate Human(s: Step) {
    s.RetryChild? || s.RetryCheck? || s.AcceptRisk?
  }

  predicate Lost(s: Sys, id: Option<RunId>) {
    id.Some? && id.value !in s.landed && id.value !in s.accepted
  }

  predicate Enabled(s: Sys, step: Step) {
    match step
    case Look(w) =>
      var d := Decide(s.rec);
      w !in s.workers && (d.StartApi? || d.StartClient? || d.StartCheck?)
    case Claim(w) => w in s.workers && (s.workers[w].Going? || s.workers[w].GoingCheck?)
    case Enqueue(w) => w in s.workers && (s.workers[w].Holding? || s.workers[w].HoldingCheck?)
    case Refuse(w) => w in s.workers && (s.workers[w].Holding? || s.workers[w].HoldingCheck?)
    case Crash(w) => w in s.workers
    case Land(id) => id in s.accepted
    case Observe(side, seen, _) =>
      !seen.StillRunning? ==> Get(s.rec, side).runId.Some? && Get(s.rec, side).runId.value in s.landed
    case ObserveCheck(v) => v.Some? ==> s.rec.client.checkRunId.Some? && s.rec.client.checkRunId.value in s.landed
    case Repair(side) =>
      var c := Get(s.rec, side);
      c.state.Running? && Lost(s, c.runId) && c.attempts > 0
    case RepairCheck =>
      s.rec.client.check.InFlight? && Lost(s, s.rec.client.checkRunId) && s.rec.client.checkAttempts > 0
    case Hold => Decide(s.rec).HoldClient?
    case Park => Decide(s.rec).ParkCheck?
    case RetryChild(side) => Retried(s.rec, side).Some?
    case RetryCheck => CheckRetried(s.rec).Some?
    case AcceptRisk => RiskAccepted(s.rec).Some?
  }

  function ClaimStep(s: Sys, w: nat): Sys
    requires Enabled(s, Claim(w))
  {
    match s.workers[w]
    case Going(side, anchor) =>
      var c := Get(s.rec, side);
      if !c.state.Pending? then s.(workers := s.workers - {w})
      else s.(rec := Set(s.rec, side, Claimed(side, c, anchor)),
          workers := s.workers[w := Holding(side, c.attempts + 1, anchor)])
    case GoingCheck =>
      var c := s.rec.client;
      if !c.check.NotDue? && !c.check.Due? then s.(workers := s.workers - {w})
      else s.(rec := s.rec.(client := CheckClaimed(c)), workers := s.workers[w := HoldingCheck(c.checkAttempts + 1)])
  }

  function IdOf(l: Launch): RunId
    requires l.Holding? || l.HoldingCheck?
  {
    if l.Holding? then ChildRun(l.side, l.attempt) else CheckRun(l.attempt)
  }

  /** A run id the journal already knows is republished as it was first accepted. */
  function EnqueueStep(s: Sys, w: nat): Sys
    requires Enabled(s, Enqueue(w))
  {
    var l := s.workers[w];
    var id := IdOf(l);
    s.(workers := s.workers - {w}, accepted := s.accepted + {id},
       builtOn := if l.Holding? && l.side == Client && l.anchor.Some? && id !in s.accepted
                  then s.builtOn[id := l.anchor.value] else s.builtOn)
  }

  /** The write-back is unconditional: it does not look at what the record has become. */
  function RefuseStep(s: Sys, w: nat): Sys
    requires Enabled(s, Refuse(w))
  {
    var l := s.workers[w];
    s.(workers := s.workers - {w},
       rec := if l.attempt == 0 then s.rec
              else if l.Holding? then Set(s.rec, l.side, GivenBack(l.side, Get(s.rec, l.side), l.attempt))
              else s.rec.(client := CheckGivenBack(s.rec.client, l.attempt)))
  }

  function Apply(s: Sys, step: Step): Sys
    requires Enabled(s, step)
  {
    match step
    case Look(w) =>
      (match Decide(s.rec)
       case StartApi => s.(workers := s.workers[w := Going(Api, None)])
       case StartClient(a) => s.(workers := s.workers[w := Going(Client, Some(a))])
       case _ => s.(workers := s.workers[w := GoingCheck]))
    case Claim(w) => ClaimStep(s, w)
    case Enqueue(w) => EnqueueStep(s, w)
    case Refuse(w) => RefuseStep(s, w)
    case Crash(w) => s.(workers := s.workers - {w})
    case Land(id) => s.(landed := s.landed + {id})
    case Observe(side, seen, confirmed) =>
      s.(rec := Set(s.rec, side, Observed(side, Get(s.rec, side), seen, confirmed)))
    case ObserveCheck(v) => s.(rec := s.rec.(client := CheckObserved(s.rec.client, v)))
    case Repair(side) => s.(rec := Set(s.rec, side, GivenBack(side, Get(s.rec, side), Get(s.rec, side).attempts)))
    case RepairCheck => s.(rec := s.rec.(client := CheckGivenBack(s.rec.client, s.rec.client.checkAttempts)))
    case Hold => s.(rec := s.rec.(client := s.rec.client.(state := Held)))
    case Park => s.(rec := s.rec.(client := s.rec.client.(check := Graded(Uncertain))))
    case RetryChild(side) => s.(rec := Retried(s.rec, side).value)
    case RetryCheck => s.(rec := CheckRetried(s.rec).value)
    case AcceptRisk => s.(rec := RiskAccepted(s.rec).value)
  }

  /** A refusal is timely while the record still shows the claim it gives back. */
  predicate Timely(s: Sys, step: Step) {
    step.Refuse? && step.w in s.workers ==>
      var l := s.workers[step.w];
      && (l.Holding? ==> Get(s.rec, l.side).state.Running? && Get(s.rec, l.side).attempts == l.attempt)
      && (l.HoldingCheck? ==> s.rec.client.check.InFlight? && s.rec.client.checkAttempts == l.attempt)
  }

  /** Every step was possible when it was taken. */
  predicate Possible(s: Sys, steps: seq<Step>)
    decreases |steps|
  {
    steps == [] || (Enabled(s, steps[0]) && Possible(Apply(s, steps[0]), steps[1..]))
  }

  function After(s: Sys, steps: seq<Step>): Sys
    requires Possible(s, steps)
    decreases |steps|
  {
    if steps == [] then s else After(Apply(s, steps[0]), steps[1..])
  }

  predicate AllTimely(s: Sys, steps: seq<Step>)
    requires Possible(s, steps)
    decreases |steps|
  {
    steps == [] || (Timely(s, steps[0]) && AllTimely(Apply(s, steps[0]), steps[1..]))
  }
}
