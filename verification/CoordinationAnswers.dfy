/** What a look decides, what one claim, refusal, repair or decision of a person does, and what a whole call answers. */
module CoordinationAnswers {
  import opened Options
  import opened CoordinationSpec
  import opened CoordinationTheorems
  import opened CoordinationObject

  // ---------------------------------------------------------------- what is due

  predicate ApiDue(r: Record) {
    r.api.state == Pending
  }

  /** The API landed at a commit on record, and the client was not started. */
  predicate ClientDue(r: Record) {
    (r.api.state == Merged || r.api.state == Delivered) && r.api.anchorSha.Some? && r.client.state == Pending
  }

  predicate BothLanded(r: Record) {
    (r.api.state == Merged || r.api.state == Delivered) && (r.client.state == Merged || r.client.state == Delivered)
  }

  predicate Unchecked(r: Record) {
    BothLanded(r) && (r.client.check == NotDue || r.client.check == Due)
  }

  predicate CommitsKnown(r: Record) {
    r.api.anchorSha.Some? && (r.client.mergedSha.Some? || r.client.anchorSha.Some?)
  }

  predicate HoldDue(r: Record) {
    && r.client.state == Pending
    && (r.api.state == Failed
        || ((r.api.state == Merged || r.api.state == Delivered) && r.api.anchorSha.None?))
  }

  /** Each decision is taken if and only if it is due, and a client is always started on the API's own commit. */
  lemma DecidedIff(r: Record)
    ensures Decide(r) == StartApi <==> ApiDue(r)
    ensures Decide(r).StartClient? <==> ClientDue(r)
    ensures ClientDue(r) ==> Decide(r) == StartClient(r.api.anchorSha.value)
    ensures Decide(r) == HoldClient <==> HoldDue(r)
    ensures Decide(r) == StartCheck <==> Unchecked(r) && CommitsKnown(r)
    ensures Decide(r) == ParkCheck <==> Unchecked(r) && !CommitsKnown(r)
  {
  }

  // ---------------------------------------------------------------- one launch

  /** A look that starts something sends its caller to claim exactly that, and writes nothing. */
  lemma LookGoes(s: Sys, w: nat)
    ensures Enabled(s, Look(w)) <==>
              w !in s.workers && (ApiDue(s.rec) || ClientDue(s.rec) || (Unchecked(s.rec) && CommitsKnown(s.rec)))
    ensures Enabled(s, Look(w)) ==>
              Apply(s, Look(w)) == s.(workers := s.workers[w :=
                  if ApiDue(s.rec) then Going(Api, None)
                  else if ClientDue(s.rec) then Going(Client, s.rec.api.anchorSha) else GoingCheck])
  {
    DecidedIff(s.rec);
  }

  /** A claim goes through if and only if the child still waits; otherwise the caller leaves and nothing is written. */
  lemma ChildClaimIff(s: Sys, w: nat)
    requires w in s.workers && s.workers[w].Going?
    ensures var side := s.workers[w].side; var anchor := s.workers[w].anchor;
            var c := Get(s.rec, side); var t := Apply(s, Claim(w));
            if c.state == Pending then
              && t.workers == s.workers[w := Holding(side, c.attempts + 1, anchor)]
              && Get(t.rec, side) == c.(state := Running, attempts := c.attempts + 1,
                  runId := Some(ChildRun(side, c.attempts + 1)),
                  anchorSha := if side == Client && anchor.Some? then anchor else c.anchorSha)
              && (side == Api ==> t.rec.client == s.rec.client) && (side == Client ==> t.rec.api == s.rec.api)
              && t == s.(rec := t.rec, workers := t.workers)
            else t == s.(workers := s.workers - {w})
  {
  }

  lemma CheckClaimIff(s: Sys, w: nat)
    requires w in s.workers && s.workers[w].GoingCheck?
    ensures var c := s.rec.client; var t := Apply(s, Claim(w));
            if c.check == NotDue || c.check == Due then
              && t.workers == s.workers[w := HoldingCheck(c.checkAttempts + 1)]
              && t.rec.client == c.(check := InFlight, checkAttempts := c.checkAttempts + 1,
                  checkRunId := Some(CheckRun(c.checkAttempts + 1)))
              && t.rec.api == s.rec.api && t == s.(rec := t.rec, workers := t.workers)
            else t == s.(workers := s.workers - {w})
  {
  }

  /**
   An enqueue puts exactly the run of the claim in the journal, and a client run that is new there on the commit its
   caller was sent to; only a caller that holds a claim can enqueue, or be refused.
   */
  lemma EnqueuedIff(s: Sys, w: nat)
    ensures Enabled(s, Enqueue(w)) <==> w in s.workers && (s.workers[w].Holding? || s.workers[w].HoldingCheck?)
    ensures Enabled(s, Refuse(w)) <==> Enabled(s, Enqueue(w))
    ensures Enabled(s, Enqueue(w)) ==>
              var l := s.workers[w]; var t := Apply(s, Enqueue(w));
              var id := if l.Holding? then ChildRun(l.side, l.attempt) else CheckRun(l.attempt);
              && t == s.(workers := s.workers - {w}, accepted := s.accepted + {id}, builtOn := t.builtOn)
              && (forall x :: x != id ==> (x in t.builtOn <==> x in s.builtOn))
              && (forall x <- s.builtOn :: x in t.builtOn && (x == id || t.builtOn[x] == s.builtOn[x]))
              && (l.Holding? && l.side == Client && l.anchor.Some? && id !in s.accepted ==>
                    id in t.builtOn && Some(t.builtOn[id]) == l.anchor)
              && (id in s.accepted ==> t.builtOn == s.builtOn)
  {
  }

  lemma TwoSteps(s: Sys, first: Step, second: Step)
    requires Enabled(s, first) && Enabled(Apply(s, first), second)
    ensures Possible(s, [first, second]) && After(s, [first, second]) == Apply(Apply(s, first), second)
  {
    var t := Apply(s, first);
    assert [first, second][1..] == [second];
    assert Possible(t, [second]) && After(t, [second]) == Apply(t, second);
  }

  /** The claim is a fence: of two callers on their way to the same start the second finds it taken and leaves. */
  lemma SecondClaimLeaves(s: Sys, w: nat, other: nat)
    requires w in s.workers && other in s.workers && w != other
    requires s.workers[w].GoingCheck? || s.workers[w].Going?
    requires if s.workers[w].GoingCheck? then s.workers[other].GoingCheck?
             else s.workers[other].Going? && s.workers[other].side == s.workers[w].side
    ensures Possible(s, [Claim(w), Claim(other)])
    ensures After(s, [Claim(w), Claim(other)]).rec == Apply(s, Claim(w)).rec
    ensures other !in After(s, [Claim(w), Claim(other)]).workers
  {
    var t := Apply(s, Claim(w));
    if s.workers[w].GoingCheck? { CheckClaimIff(s, w); } else { ChildClaimIff(s, w); }
    assert other in t.workers && t.workers[other] == s.workers[other];
    TwoSteps(s, Claim(w), Claim(other));
    if s.workers[w].GoingCheck? { CheckClaimIff(t, other); } else { ChildClaimIff(t, other); }
  }

  /** The record as the give-back of a claim leaves it: waiting again, with the anchor the claim noted. */
  function Unclaimed(r: Record, l: Launch): Record {
    match l
    case Going(Api, _) => r.(api := r.api.(state := Pending))
    case Going(Client, anchor) =>
      r.(client := r.client.(state := Pending, anchorSha := if anchor.Some? then anchor else r.client.anchorSha))
    case _ => r.(client := r.client.(check := Due))
  }

  predicate Claimable(r: Record, l: Launch) {
    match l
    case Going(side, _) => Get(r, side).state.Pending?
    case GoingCheck => r.client.check.NotDue? || r.client.check.Due?
    case _ => false
  }

  /**
   A refused launch undoes its claim: the caller is gone, nothing was accepted, and the record is what it was, attempt
   count and run id included, but for the anchor the client's claim noted and a check that is now due.
   */
  lemma RefusalUndoesClaim(s: Sys, w: nat)
    requires Derived(s.rec) && w in s.workers && Claimable(s.rec, s.workers[w])
    ensures Possible(s, [Claim(w), Refuse(w)])
    ensures After(s, [Claim(w), Refuse(w)]) ==
            s.(rec := Unclaimed(s.rec, s.workers[w]), workers := s.workers - {w})
  {
    var t := Apply(s, Claim(w));
    assert t.workers - {w} == s.workers - {w};
    TwoSteps(s, Claim(w), Refuse(w));
  }

  /** And so does a crash between the claim and the enqueue, once the lost launch is repaired. */
  lemma RepairUndoesLostClaim(s: Sys, w: nat)
    requires Derived(s.rec) && w in s.workers && Claimable(s.rec, s.workers[w])
    requires var id := (match s.workers[w]
                        case Going(side, _) => ChildRun(side, Get(s.rec, side).attempts + 1)
                        case _ => CheckRun(s.rec.client.checkAttempts + 1));
             id !in s.accepted && id !in s.landed
    ensures var repair := if s.workers[w].Going? then Repair(s.workers[w].side) else RepairCheck;
            && Possible(s, [Claim(w), Crash(w), repair])
            && After(s, [Claim(w), Crash(w), repair]) ==
               s.(rec := Unclaimed(s.rec, s.workers[w]), workers := s.workers - {w})
  {
    var repair := if s.workers[w].Going? then Repair(s.workers[w].side) else RepairCheck;
    var t := Apply(s, Claim(w));
    assert t.workers - {w} == s.workers - {w};
    assert Enabled(Apply(t, Crash(w)), repair);
    TwoSteps(t, Crash(w), repair);
    assert [Claim(w), Crash(w), repair][1..] == [Crash(w), repair];
  }

  /** A crash forgets one caller and leaves record, journal and runs alone. */
  lemma CrashOnlyForgets(s: Sys, w: nat)
    requires w in s.workers
    ensures Apply(s, Crash(w)) == s.(workers := Apply(s, Crash(w)).workers)
    ensures forall x :: x in Apply(s, Crash(w)).workers <==> x in s.workers && x != w
    ensures forall x <- Apply(s, Crash(w)).workers :: Apply(s, Crash(w)).workers[x] == s.workers[x]
  {
  }

  /** A launch is given back by repair if and only if its run was claimed but neither accepted nor ever appeared. */
  lemma RepairedIff(s: Sys, side: Side)
    ensures Enabled(s, Repair(side)) <==>
              var c := Get(s.rec, side);
              c.state == Running && c.attempts > 0 && c.runId.Some?
              && c.runId.value !in s.landed && c.runId.value !in s.accepted
    ensures Enabled(s, RepairCheck) <==>
              var c := s.rec.client;
              c.check == InFlight && c.checkAttempts > 0 && c.checkRunId.Some?
              && c.checkRunId.value !in s.landed && c.checkRunId.value !in s.accepted
  {
  }

  /** A hold or a park changes one word of the client's record. */
  lemma HoldAndPark(s: Sys)
    ensures Enabled(s, Hold) <==> HoldDue(s.rec)
    ensures HoldDue(s.rec) ==> Apply(s, Hold) == s.(rec := s.rec.(client := s.rec.client.(state := Held)))
    ensures Enabled(s, Park) <==> Unchecked(s.rec) && !CommitsKnown(s.rec)
    ensures Enabled(s, Park) ==>
              Apply(s, Park) == s.(rec := s.rec.(client := s.rec.client.(check := Graded(Uncertain))))
  {
    DecidedIff(s.rec);
  }

  // ---------------------------------------------------------------- a person decides

  predicate Worrying(c: Child) {
    c.check == Graded(Incompatible) || c.check == Graded(Uncertain)
  }

  /**
   A child can be retried if and only if it failed or is held. It then waits to be started again and keeps the rest of
   its record; with the API goes a client held on it, and no other client is touched.
   */
  lemma RetriedIff(r: Record, side: Side)
    ensures Retried(r, side).Some? <==> Get(r, side).state == Failed || Get(r, side).state == Held
    ensures Retried(r, Client).Some? ==> Retried(r, Client).value == r.(client := r.client.(state := Pending))
    ensures Retried(r, Api).Some? ==>
              Retried(r, Api).value ==
              Record(r.api.(state := Pending),
                     if r.client.state == Held then r.client.(state := Pending) else r.client)
  {
  }

  /** The check can be re-run if and only if its verdict was bad, and then an acceptance of it is gone. */
  lemma RecheckedIff(r: Record)
    ensures CheckRetried(r).Some? <==> Worrying(r.client)
    ensures Worrying(r.client) ==>
              CheckRetried(r).value == r.(client := r.client.(check := Due, checkAccepted := false))
  {
  }

  /** A risk can be accepted if and only if the verdict was bad and nobody accepted it yet; nothing else changes. */
  lemma AcceptedIff(r: Record)
    ensures RiskAccepted(r).Some? <==> Worrying(r.client) && !r.client.checkAccepted
    ensures RiskAccepted(r).Some? ==> RiskAccepted(r).value == r.(client := r.client.(checkAccepted := true))
  {
  }

  /** What a person asks for is what comes next: the retried side or check is due, the accepted pair is complete. */
  lemma DecisionsTakeHold(s: Sys)
    ensures Enabled(s, RetryChild(Api)) ==>
              var r := Apply(s, RetryChild(Api)).rec; ApiDue(r) && r.client.state != Held
    ensures Enabled(s, RetryChild(Client)) && Landed(s.rec.api) && s.rec.api.anchorSha.Some? ==>
              var r := Apply(s, RetryChild(Client)).rec; ClientDue(r) && r.api == s.rec.api
    ensures Enabled(s, RetryCheck) && BothLanded(s.rec) && CommitsKnown(s.rec) ==>
              var r := Apply(s, RetryCheck).rec; Decide(r) == StartCheck && !Complete(r, false)
    ensures Enabled(s, AcceptRisk) && BothLanded(s.rec) ==> Complete(Apply(s, AcceptRisk).rec, false)
  {
  }

  // ---------------------------------------------------------------- a whole call

  /** The record a call acts on: what was seen noted, what was lost given back. */
  function Swept(s: Sys, v: View): Record {
    RepairedRecord(s, ObservedRecord(s.rec, v))
  }

  /**
   What one call of `launchNext` answers, and what it leaves behind: it starts the one run that is due under the next
   id of its line unless the enqueue is refused, holds the client or parks the check when that is due, and otherwise
   says that there is nothing to do.
   */
  lemma CallAnswers(s: Sys, v: View, refuses: bool)
    ensures var r := Swept(s, v); var (t, o) := Advanced(s, v, refuses);
            && (ApiDue(r) ==> o == if refuses then EnqueueRefused else Started(ChildRun(Api, r.api.attempts + 1)))
            && (ClientDue(r) ==>
                  o == if refuses then EnqueueRefused else Started(ChildRun(Client, r.client.attempts + 1)))
            && (Unchecked(r) && CommitsKnown(r) ==>
                  o == if refuses then EnqueueRefused else Started(CheckRun(r.client.checkAttempts + 1)))
            && (Unchecked(r) && !CommitsKnown(r) <==> o == CheckParked)
            && (HoldDue(r) <==> o == ClientHeld)
            && (ApiDue(r) || ClientDue(r) || Unchecked(r) || HoldDue(r) <==> o != Idle)
  {
    DecidedIff(Swept(s, v));
  }

  /** What a call leaves behind. */
  lemma CallWrites(s: Sys, v: View, refuses: bool)
    requires Derived(Swept(s, v))
    ensures var r := Swept(s, v); var (t, o) := Advanced(s, v, refuses);
            && t.landed == s.landed && t.workers == s.workers
            && t.accepted == (if o.Started? then s.accepted + {o.id} else s.accepted)
            && (o == Idle ==> t.rec == r)
            && (o == ClientHeld ==> t.rec == r.(client := r.client.(state := Held)))
            && (o == CheckParked ==> t.rec == r.(client := r.client.(check := Graded(Uncertain))))
            && (o == EnqueueRefused ==>
                  t.rec == if ApiDue(r) then r
                           else if ClientDue(r) then r.(client := r.client.(anchorSha := r.api.anchorSha))
                           else r.(client := r.client.(check := Due)))
            && (o.Started? && o.id.CheckRun? ==>
                  t.rec == r.(client := r.client.(check := InFlight, checkAttempts := o.id.attempt,
                      checkRunId := Some(o.id))))
  {
    DecidedIff(Swept(s, v));
  }

  lemma CallWritesChild(s: Sys, v: View, side: Side)
    ensures var r := Swept(s, v); var (t, o) := Advanced(s, v, false); var c := Get(r, side);
            o.Started? && o.id.ChildRun? && o.id.side == side ==>
              && Get(t.rec, side) == c.(state := Running, attempts := o.id.attempt, runId := Some(o.id),
                  anchorSha := if side == Client then r.api.anchorSha else c.anchorSha)
              && (side == Api ==> t.rec.client == r.client)
              && (side == Client ==> t.rec.api == r.api
                                     && (o.id !in s.accepted ==>
                                           o.id in t.builtOn && Some(t.builtOn[o.id]) == r.api.anchorSha))
  {
    DecidedIff(Swept(s, v));
  }

  /**
   Before it acts a call puts on record what was seen, and gives back exactly the launches that were lost: the child
   or the check waits again, with one attempt fewer.
   */
  lemma SweptIs(s: Sys, v: View)
    requires Derived(s.rec) && Honest(s, v)
    ensures var r := Swept(s, v); var lost := (c: Child) => c.runId.Some? && c.runId.value !in s.landed
                                                            && c.runId.value !in s.accepted;
            && (s.rec.api.state == Running && lost(s.rec.api) <==> r.api.attempts != s.rec.api.attempts)
            && (s.rec.client.state == Running && lost(s.rec.client) <==> r.client.attempts != s.rec.client.attempts)
            && (r.api.attempts != s.rec.api.attempts ==>
                  && r.api.state == Pending && r.api.attempts + 1 == s.rec.api.attempts
                  && r.api.runId == RunOf(Api, r.api.attempts))
            && (r.client.attempts != s.rec.client.attempts ==>
                  && r.client.state == Pending && r.client.attempts + 1 == s.rec.client.attempts
                  && r.client.runId == RunOf(Client, r.client.attempts))
  {
  }

  lemma SweptCheckIs(s: Sys, v: View)
    requires Derived(s.rec) && Honest(s, v)
    ensures var r := Swept(s, v); var c := s.rec.client;
            && (c.check == InFlight && c.checkRunId.value !in s.landed && c.checkRunId.value !in s.accepted
                <==> r.client.checkAttempts != c.checkAttempts)
            && (r.client.checkAttempts != c.checkAttempts ==>
                  && r.client.check == Due && r.client.checkAttempts + 1 == c.checkAttempts
                  && r.client.checkRunId == CheckRunOf(r.client.checkAttempts))
  {
  }
}
