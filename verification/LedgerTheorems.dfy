/** What every history of ledger transactions keeps. */
module LedgerTheorems {
  import opened Options
  import opened Sums
  import opened LedgerSpec

  // ---------------------------------------------------------------- the scope tree

  ghost predicate Distinct(c: seq<string>) {
    forall i, j :: 0 <= i < j < |c| ==> c[i] != c[j]
  }

  /** Every defined scope reaches a root without a missing or repeated link. */
  ghost predicate Rooted(scopes: map<string, Scope>) {
    forall id {:trigger Chain(scopes, id)} :: id in scopes ==> Chain(scopes, id).Some?
  }

  lemma {:induction false} ChainShape(scopes: map<string, Scope>, id: string, seen: set<string>)
    requires ChainFrom(scopes, id, seen).Some?
    ensures var c := ChainFrom(scopes, id, seen).value;
            c != [] && c[0] == id && Distinct(c) && forall x <- c :: x in scopes && x !in seen
    decreases scopes.Keys - seen
  {
    match scopes[id].parent
    case None =>
    case Some(p) => ChainShape(scopes, p, seen + {id});
  }

  /** Having already visited scopes the chain does not meet changes nothing. */
  lemma {:induction false} ChainIgnores(scopes: map<string, Scope>, id: string, fewer: set<string>, more: set<string>)
    requires fewer <= more
    requires ChainFrom(scopes, id, fewer).Some?
    requires forall x <- ChainFrom(scopes, id, fewer).value :: x !in more
    ensures ChainFrom(scopes, id, more) == ChainFrom(scopes, id, fewer)
    decreases scopes.Keys - fewer
  {
    ChainShape(scopes, id, fewer);
    match scopes[id].parent
    case None =>
    case Some(p) =>
      ChainShape(scopes, p, fewer + {id});
      var rest := ChainFrom(scopes, p, fewer + {id}).value;
      forall x | x in rest ensures x !in more + {id} {
        assert x in [id] + rest;
      }
      ChainIgnores(scopes, p, fewer + {id}, more + {id});
  }

  lemma {:induction false} ChainFewer(scopes: map<string, Scope>, id: string, fewer: set<string>, more: set<string>)
    requires fewer <= more
    requires ChainFrom(scopes, id, more).Some?
    ensures ChainFrom(scopes, id, fewer) == ChainFrom(scopes, id, more)
    decreases scopes.Keys - more
  {
    match scopes[id].parent
    case None =>
    case Some(p) => ChainFewer(scopes, p, fewer + {id}, more + {id});
  }

  /** A chain is its head followed by the parent's whole chain. */
  lemma ChainUnfold(scopes: map<string, Scope>, id: string)
    requires Chain(scopes, id).Some?
    ensures id in scopes
    ensures scopes[id].parent.None? ==> Chain(scopes, id).value == [id]
    ensures scopes[id].parent.Some? ==>
              var up := Chain(scopes, scopes[id].parent.value);
              up.Some? && id !in up.value && Chain(scopes, id).value == [id] + up.value
  {
    if scopes[id].parent.Some? {
      assert {} + {id} == {id};
      ChainFewer(scopes, scopes[id].parent.value, {}, {id});
      ChainShape(scopes, scopes[id].parent.value, {id});
    }
  }

  lemma {:induction false} ChainSurvives(scopes: map<string, Scope>, id: string, seen: set<string>, added: string,
      s: Scope)
    requires added !in scopes && ChainFrom(scopes, id, seen).Some?
    ensures ChainFrom(scopes[added := s], id, seen) == ChainFrom(scopes, id, seen)
    decreases scopes.Keys - seen
  {
    match scopes[id].parent
    case None =>
    case Some(p) => ChainSurvives(scopes, p, seen + {id}, added, s);
  }

  /** Adding a scope under a defined parent keeps the graph rooted and moves no existing chain. */
  lemma RootedGrows(scopes: map<string, Scope>, added: string, s: Scope)
    requires Rooted(scopes) && added !in scopes && (s.parent.Some? ==> s.parent.value in scopes)
    ensures Rooted(scopes[added := s])
    ensures forall id <- scopes :: Chain(scopes[added := s], id) == Chain(scopes, id)
  {
    var grown := scopes[added := s];
    forall id | id in scopes ensures Chain(grown, id) == Chain(scopes, id) {
      assert Chain(scopes, id).Some?;
      ChainSurvives(scopes, id, {}, added, s);
    }
    if s.parent.Some? {
      var p := s.parent.value;
      ChainShape(scopes, p, {});
      ChainIgnores(grown, p, {}, {added});
      assert {} + {added} == {added};
    }
  }

  /** A scope is on its own chain once and never above itself. */
  lemma Acyclic(scopes: map<string, Scope>, id: string)
    requires Rooted(scopes) && id in scopes
    ensures Distinct(Chain(scopes, id).value)
    ensures forall k :: 0 < k < |Chain(scopes, id).value| ==> Chain(scopes, id).value[k] != id
  {
    assert Chain(scopes, id).Some?;
    ChainShape(scopes, id, {});
  }

  // ---------------------------------------------------------------- records and the invariant

  ghost predicate GoodRes(r: Res) {
    && 0 <= r.reserved && 0 <= r.overrun && 0 <= r.lateUnpriced
    && (r.state.Held? || r.state.UnpricedHeld? ==> r.overrun == 0 && r.actual.None? && r.lateUnpriced == 0)
    && (r.state.Settled? ==> r.actual.Some? && 0 <= r.actual.value && r.overrun == Max(0, r.actual.value - r.reserved))
    && (r.state.Released? ==> r.actual.None?)
  }

  /** The subtree of every scope, overruns aside, fits under that scope's cap. */
  ghost predicate Bounded(st: State) {
    forall s <- st.scopes :: ScopeSum(st, s, Floor) <= st.scopes[s].cap
  }

  ghost predicate Records(st: State) {
    && (forall s <- st.scopes :: 0 <= st.scopes[s].cap)
    && (forall k <- st.reservations :: GoodRes(st.reservations[k]) && st.reservations[k].scope in st.scopes)
    && (forall k <- st.epochs :: 1 <= st.epochs[k])
  }

  ghost predicate Inv(st: State) {
    Rooted(st.scopes) && Records(st) && Bounded(st)
  }

  // ---------------------------------------------------------------- sums under a scope

  lemma SumOfParts(st: State, s: string, whole: Res -> int, a: Res -> int, b: Res -> int)
    requires forall k <- st.reservations :: whole(st.reservations[k]) == a(st.reservations[k]) + b(st.reservations[k])
    ensures ScopeSum(st, s, whole) == ScopeSum(st, s, a) + ScopeSum(st, s, b)
  {
    SumSplit(st.reservations, Under(st.scopes, s, whole), Under(st.scopes, s, a), Under(st.scopes, s, b));
  }

  lemma NonNegativeUnder(st: State, s: string, f: Res -> int)
    requires forall k <- st.reservations :: 0 <= f(st.reservations[k])
    ensures 0 <= ScopeSum(st, s, f)
  {
    SumNonNegative(st.reservations, Under(st.scopes, s, f));
  }

  /** Replacing or adding one record moves each sum by that record's weight. */
  lemma SumAfterWrite(st: State, id: string, r: Res, s: string, f: Res -> int)
    ensures ScopeSum(st.(reservations := st.reservations[id := r]), s, f)
         == ScopeSum(st, s, f) + Under(st.scopes, s, f)(r)
            - (if id in st.reservations then Under(st.scopes, s, f)(st.reservations[id]) else 0)
  {
    SumPut(st.reservations, id, r, Under(st.scopes, s, f));
  }

  // ---------------------------------------------------------------- every transaction keeps the invariant

  lemma {:induction false} NoneOver(st: State, chain: seq<string>, amount: int)
    requires FirstOver(st, chain, amount).None?
    ensures forall s <- chain :: s in st.scopes ==> Committed(st, s) + amount <= st.scopes[s].cap
  {
    if chain != [] {
      NoneOver(st, chain[1..], amount);
      assert forall s <- chain :: s == chain[0] || s in chain[1..];
    }
  }

  lemma {:induction false} SomeOver(st: State, chain: seq<string>, amount: int)
    requires FirstOver(st, chain, amount).Some?
    ensures var s := FirstOver(st, chain, amount).value;
            s in chain && s in st.scopes && Committed(st, s) + amount > st.scopes[s].cap
  {
    if !(chain[0] in st.scopes && Committed(st, chain[0]) + amount > st.scopes[chain[0]].cap) {
      SomeOver(st, chain[1..], amount);
    }
  }

  lemma FloorBelowCommitted(st: State, s: string)
    requires Inv(st)
    ensures ScopeSum(st, s, Floor) <= Committed(st, s)
  {
    SumOfParts(st, s, Contribution, Floor, Overrun);
    NonNegativeUnder(st, s, Overrun);
  }

  lemma UnderIs(scopes: map<string, Scope>, s: string, f: Res -> int, r: Res)
    ensures Under(scopes, s, f)(r) == if InScope(scopes, r.scope, s) then f(r) else 0
  {
  }

  lemma UnderMonotone(scopes: map<string, Scope>, s: string, r: Res, before: Res)
    requires r.scope == before.scope && Floor(r) <= Floor(before)
    ensures Under(scopes, s, Floor)(r) <= Under(scopes, s, Floor)(before)
  {
  }

  /** Writing a record that holds no more than the one it replaces keeps every bound. */
  lemma WriteKeepsBounds(st: State, id: string, r: Res)
    requires Bounded(st) && id in st.reservations
    requires r.scope == st.reservations[id].scope && Floor(r) <= Floor(st.reservations[id])
    ensures Bounded(st.(reservations := st.reservations[id := r]))
  {
    forall s | s in st.scopes
      ensures ScopeSum(st.(reservations := st.reservations[id := r]), s, Floor) <= st.scopes[s].cap
    {
      SumAfterWrite(st, id, r, s, Floor);
      UnderMonotone(st.scopes, s, r, st.reservations[id]);
    }
  }

  lemma AdmittedUnder(st: State, r: Res, s: string)
    requires Inv(st) && GoodRes(r) && r.state.Held? && r.scope in st.scopes && s in st.scopes
    requires FirstOver(st, Chain(st.scopes, r.scope).value, r.reserved).None?
    ensures ScopeSum(st, s, Floor) + Under(st.scopes, s, Floor)(r) <= st.scopes[s].cap
  {
    NoneOver(st, Chain(st.scopes, r.scope).value, r.reserved);
    FloorBelowCommitted(st, s);
    UnderIs(st.scopes, s, Floor, r);
  }

  lemma AdmitKeepsBounds(st: State, id: string, r: Res)
    requires Inv(st) && GoodRes(r) && r.state.Held? && id !in st.reservations && r.scope in st.scopes
    requires FirstOver(st, Chain(st.scopes, r.scope).value, r.reserved).None?
    ensures Bounded(st.(reservations := st.reservations[id := r]))
  {
    forall s | s in st.scopes
      ensures ScopeSum(st.(reservations := st.reservations[id := r]), s, Floor) <= st.scopes[s].cap
    {
      SumAfterWrite(st, id, r, s, Floor);
      AdmittedUnder(st, r, s);
    }
  }

  /** A new scope moves no other scope's sum, and nothing is under it yet. */
  lemma SumAfterDefine(st: State, id: string, s: Scope, x: string, f: Res -> int)
    requires Rooted(st.scopes) && Records(st) && id !in st.scopes && (s.parent.Some? ==> s.parent.value in st.scopes)
    ensures ScopeSum(st.(scopes := st.scopes[id := s]), x, f) == if x == id then 0 else ScopeSum(st, x, f)
  {
    var grown := st.scopes[id := s];
    RootedGrows(st.scopes, id, s);
    forall k | k in st.reservations
      ensures Under(grown, x, f)(st.reservations[k]) == if x == id then 0
              else Under(st.scopes, x, f)(st.reservations[k])
    {
      ChainShape(st.scopes, st.reservations[k].scope, {});
    }
    if x == id {
      SumZero(st.reservations, Under(grown, x, f));
    } else {
      SumSame(st.reservations, Under(grown, x, f), Under(st.scopes, x, f));
    }
  }

  lemma DefineKeepsBounds(st: State, id: string, s: Scope)
    requires Inv(st) && id !in st.scopes && 0 <= s.cap && (s.parent.Some? ==> s.parent.value in st.scopes)
    ensures Bounded(st.(scopes := st.scopes[id := s]))
  {
    var grown := st.(scopes := st.scopes[id := s]);
    forall x | x in grown.scopes ensures ScopeSum(grown, x, Floor) <= grown.scopes[x].cap {
      SumAfterDefine(st, id, s, x, Floor);
    }
  }

  lemma RootedStays(scopes: map<string, Scope>, added: string, s: Scope)
    requires Rooted(scopes) && added !in scopes && (s.parent.Some? ==> s.parent.value in scopes)
    ensures Rooted(scopes[added := s])
  {
    RootedGrows(scopes, added, s);
  }

  lemma RecordsStay(st: State, id: string, s: Scope)
    requires Records(st) && id !in st.scopes && 0 <= s.cap
    ensures Records(st.(scopes := st.scopes[id := s]))
  {
  }

  lemma DefineKeeps(st: State, id: string, s: Scope)
    requires Inv(st) && id !in st.scopes && 0 <= s.cap && (s.parent.Some? ==> s.parent.value in st.scopes)
    ensures Inv(st.(scopes := st.scopes[id := s]))
  {
    RootedStays(st.scopes, id, s);
    RecordsStay(st, id, s);
    DefineKeepsBounds(st, id, s);
  }

  lemma MicroNonNegative(usd: Usd)
    requires ValidMoney(usd, true)
    ensures 0 <= ToMicro(usd.value)
  {
    assert usd.value * 1000000.0 >= 0.0;
  }

  lemma AdmitKeeps(st: State, id: string, r: Res)
    requires Inv(st) && GoodRes(r) && r.state.Held? && id !in st.reservations && r.scope in st.scopes
    requires FirstOver(st, Chain(st.scopes, r.scope).value, r.reserved).None?
    ensures Inv(st.(reservations := st.reservations[id := r]))
  {
    AdmitKeepsBounds(st, id, r);
  }

  lemma ReserveStepKeeps(st: State, id: string, scope: string, amount: Usd, fence: Option<Fence>)
    requires Inv(st)
    ensures Inv(ReserveStep(st, id, scope, amount, fence).0)
  {
    var r := Res(scope, Held, if amount.Finite? then ToMicro(amount.value) else 0, None, 0, 0);
    if ReserveStep(st, id, scope, amount, fence).0 != st {
      MicroNonNegative(amount);
      ChainShape(st.scopes, scope, {});
      AdmitKeeps(st, id, r);
    }
  }

  /** What any later change to one reservation may do to it. */
  ghost predicate Moves(r: Res, after: Res) {
    GoodRes(after) && after.scope == r.scope && Floor(after) <= Floor(r)
  }

  lemma MoveKeeps(st: State, id: string, r: Res)
    requires Inv(st) && id in st.reservations && Moves(st.reservations[id], r)
    ensures Inv(st.(reservations := st.reservations[id := r]))
  {
    WriteKeepsBounds(st, id, r);
  }

  lemma SettleMoves(st: State, id: string, usage: Usage, fence: Option<Fence>)
    requires Records(st)
    ensures var after := SettleStep(st, id, usage, fence).0;
            after == st || (id in st.reservations && id in after.reservations
                && Moves(st.reservations[id], after.reservations[id])
                            && after == st.(reservations := st.reservations[id := after.reservations[id]]))
  {
    if usage.Priced? && ValidMoney(usage.usd, true) { MicroNonNegative(usage.usd); }
  }

  lemma ResolveMoves(st: State, id: string, usd: Usd)
    requires Records(st)
    ensures var after := ResolveStep(st, id, usd).0;
            after == st || (id in st.reservations && id in after.reservations
                && Moves(st.reservations[id], after.reservations[id])
                            && after == st.(reservations := st.reservations[id := after.reservations[id]]))
  {
    if ValidMoney(usd, true) { MicroNonNegative(usd); }
  }

  lemma TakeOverKeeps(st: State, resource: string)
    requires Inv(st)
    ensures Inv(TakeOverStep(st, resource).0)
  {
    var after := TakeOverStep(st, resource).0;
    forall s | s in st.scopes ensures ScopeSum(after, s, Floor) == ScopeSum(st, s, Floor) {
    }
  }

  lemma DefineStepKeeps(st: State, spec: ScopeSpec)
    requires Inv(st)
    ensures Inv(DefineStep(st, spec).0)
  {
    if DefineStep(st, spec).0 != st {
      MicroNonNegative(spec.cap);
      DefineKeeps(st, spec.id, Scope(spec.kind, ToMicro(spec.cap.value), spec.parent));
    }
  }

  lemma SettleKeeps(st: State, id: string, usage: Usage, fence: Option<Fence>)
    requires Inv(st)
    ensures Inv(SettleStep(st, id, usage, fence).0)
  {
    SettleMoves(st, id, usage, fence);
    var after := SettleStep(st, id, usage, fence).0;
    if after != st { MoveKeeps(st, id, after.reservations[id]); }
  }

  lemma ReleaseMoves(st: State, id: string, fence: Option<Fence>)
    requires Records(st)
    ensures var after := ReleaseStep(st, id, fence).0;
            after == st
            || (id in st.reservations
                && Moves(st.reservations[id], st.reservations[id].(state := Released))
                && after == st.(reservations := st.reservations[id := st.reservations[id].(state := Released)]))
  {
  }

  lemma ReleaseKeeps(st: State, id: string, fence: Option<Fence>)
    requires Inv(st)
    ensures Inv(ReleaseStep(st, id, fence).0)
  {
    ReleaseMoves(st, id, fence);
    var after := ReleaseStep(st, id, fence).0;
    if after != st { MoveKeeps(st, id, st.reservations[id].(state := Released)); }
  }

  lemma ResolveKeeps(st: State, id: string, usd: Usd)
    requires Inv(st)
    ensures Inv(ResolveStep(st, id, usd).0)
  {
    ResolveMoves(st, id, usd);
    var after := ResolveStep(st, id, usd).0;
    if after != st { MoveKeeps(st, id, after.reservations[id]); }
  }

  lemma StepKeeps(st: State, op: Op)
    requires Inv(st)
    ensures Inv(Apply(st, op).0)
  {
    match op
    case Define(spec) => DefineStepKeeps(st, spec);
    case Reserve(id, scope, amount, fence) => ReserveStepKeeps(st, id, scope, amount, fence);
    case Settle(id, usage, fence) => SettleKeeps(st, id, usage, fence);
    case Release(id, fence) => ReleaseKeeps(st, id, fence);
    case Resolve(id, usd) => ResolveKeeps(st, id, usd);
    case TakeOver(resource) => TakeOverKeeps(st, resource);
  }

  lemma {:induction false} Reachable(ops: seq<Op>)
    ensures Inv(Run(ops))
  {
    if ops == [] {
    } else {
      Reachable(ops[..|ops| - 1]);
      StepKeeps(Run(ops[..|ops| - 1]), ops[|ops| - 1]);
    }
  }

  // ---------------------------------------------------------------- main results

  function LivePart(r: Res): int { HeldPart(r) + UnpricedPart(r) }
  function SettledFloor(r: Res): int { Floor(r) - LivePart(r) }

  lemma LiveIsHeldAndUnpriced(st: State, s: string)
    ensures ScopeSum(st, s, LivePart) == ScopeSum(st, s, HeldPart) + ScopeSum(st, s, UnpricedPart)
  {
    SumOfParts(st, s, LivePart, HeldPart, UnpricedPart);
  }

  lemma FloorIsLiveAndSettled(st: State, s: string)
    ensures ScopeSum(st, s, Floor) == ScopeSum(st, s, LivePart) + ScopeSum(st, s, SettledFloor)
  {
    SumOfParts(st, s, Floor, LivePart, SettledFloor);
  }

  lemma LiveBelowFloor(st: State, s: string)
    requires Records(st)
    ensures ScopeSum(st, s, HeldPart) + ScopeSum(st, s, UnpricedPart) <= ScopeSum(st, s, Floor)
  {
    LiveIsHeldAndUnpriced(st, s);
    FloorIsLiveAndSettled(st, s);
    NonNegativeUnder(st, s, SettledFloor);
  }

  /** In every history: no scope's live holds, its descendants' included, exceed its cap. */
  lemma HoldsNeverExceedCap(ops: seq<Op>, s: string)
    requires s in Run(ops).scopes
    ensures var st := Run(ops);
            && ScopeSum(st, s, HeldPart) + ScopeSum(st, s, UnpricedPart) <= st.scopes[s].cap
            && Committed(st, s) <= st.scopes[s].cap + ScopeSum(st, s, Overrun)
            && Chain(st.scopes, s).Some? && Distinct(Chain(st.scopes, s).value)
  {
    Reachable(ops);
    var st := Run(ops);
    Acyclic(st.scopes, s);
    SumOfParts(st, s, Contribution, Floor, Overrun);
    LiveBelowFloor(st, s);
  }

  /** The amount fits every scope of the chain. */
  ghost predicate Fits(st: State, chain: seq<string>, amount: int) {
    forall s <- chain :: s in st.scopes && Committed(st, s) + amount <= st.scopes[s].cap
  }

  lemma NoneOverIff(st: State, scope: string, amount: int)
    requires Rooted(st.scopes) && scope in st.scopes
    ensures FirstOver(st, Chain(st.scopes, scope).value, amount).None?
            <==> Fits(st, Chain(st.scopes, scope).value, amount)
  {
    var chain := Chain(st.scopes, scope).value;
    ChainShape(st.scopes, scope, {});
    if FirstOver(st, chain, amount).None? { NoneOver(st, chain, amount); } else { SomeOver(st, chain, amount); }
  }

  /** A reserve is admitted exactly when it is new, valid, unfenced or current, and fits every ancestor. */
  lemma ReserveAdmittedIff(st: State, id: string, scope: string, amount: Usd, fence: Option<Fence>)
    requires Rooted(st.scopes)
    ensures Apply(st, Reserve(id, scope, amount, fence)).1
              == Reserved(Res(scope, Held, if amount.Finite? then ToMicro(amount.value) else 0, None, 0, 0), false)
       <==> && FenceRefusal(st, fence).None? && ValidMoney(amount, false)
            && id !in st.reservations && scope in st.scopes
            && Fits(st, Chain(st.scopes, scope).value, ToMicro(amount.value))
  {
    if ValidMoney(amount, false) && scope in st.scopes { NoneOverIff(st, scope, ToMicro(amount.value)); }
    assert Chain(st.scopes, scope).Some? <==> scope in st.scopes;
  }

  /** Once admitted, the amount counts against exactly the scopes on the chain, and nothing else moves. */
  lemma ReserveCountsOnChain(st: State, id: string, scope: string, amount: Usd, fence: Option<Fence>, s: string)
    requires amount.Finite? && Chain(st.scopes, scope).Some?
    requires var o := Apply(st, Reserve(id, scope, amount, fence)).1; o.Reserved? && !o.replay
    ensures var after := Apply(st, Reserve(id, scope, amount, fence)).0;
            Committed(after, s) == Committed(st, s)
                + (if s in Chain(st.scopes, scope).value then ToMicro(amount.value) else 0)
  {
    var r := Res(scope, Held, ToMicro(amount.value), None, 0, 0);
    SumAfterWrite(st, id, r, s, Contribution);
    UnderIs(st.scopes, s, Contribution, r);
  }

  /** A refused call, and an idempotent replay, change nothing. */
  lemma RefusedChangesNothing(st: State, op: Op)
    ensures var (after, o) := Apply(st, op);
            (o.Refused? || (o.Reserved? && o.replay) ==> after == st)
  {
  }

  lemma BilledIsSettledAndLate(st: State, s: string)
    ensures ScopeSum(st, s, Billed) == ScopeSum(st, s, SettledPart) + ScopeSum(st, s, LatePart)
  {
    SumOfParts(st, s, Billed, SettledPart, LatePart);
  }

  lemma CommittedIsLiveAndBilled(st: State, s: string)
    requires Records(st)
    ensures Committed(st, s) == ScopeSum(st, s, LivePart) + ScopeSum(st, s, Billed)
  {
    SumOfParts(st, s, Contribution, LivePart, Billed);
  }

  lemma FiguresAddUp(st: State, s: string)
    requires Records(st)
    ensures Committed(st, s) == ScopeSum(st, s, HeldPart) + ScopeSum(st, s, SettledPart) + ScopeSum(st, s, UnpricedPart)
                                + ScopeSum(st, s, LatePart)
  {
    LiveIsHeldAndUnpriced(st, s);
    BilledIsSettledAndLate(st, s);
    CommittedIsLiveAndBilled(st, s);
  }

  lemma FiguresNonNegative(st: State, s: string)
    requires Records(st)
    ensures 0 <= ScopeSum(st, s, HeldPart) && 0 <= ScopeSum(st, s, SettledPart) && 0 <= ScopeSum(st, s, UnpricedPart)
    ensures 0 <= ScopeSum(st, s, Overrun)
  {
    NonNegativeUnder(st, s, HeldPart);
    NonNegativeUnder(st, s, SettledPart);
    NonNegativeUnder(st, s, UnpricedPart);
    NonNegativeUnder(st, s, Overrun);
  }

  /** The four figures a snapshot shows add up to the committed one. */
  lemma SnapshotAddsUp(ops: seq<Op>, s: string)
    requires s in Run(ops).scopes
    ensures var snap := SnapshotOf(Run(ops), s).value;
            && snap.committed == snap.held + snap.settled + snap.unpricedHeld + ScopeSum(Run(ops), s, LatePart)
            && 0 <= snap.held && 0 <= snap.settled && 0 <= snap.unpricedHeld && 0 <= snap.overrun
            && snap.remaining == (if snap.committed <= snap.cap then snap.cap - snap.committed else 0)
  {
    Reachable(ops);
    FiguresAddUp(Run(ops), s);
    FiguresNonNegative(Run(ops), s);
  }

  // ---------------------------------------------------------------- a scope is its own plus its children's

  ghost function Children(scopes: map<string, Scope>, s: string): set<string> {
    set c | c in scopes && scopes[c].parent == Some(s)
  }

  /** The weight of a reservation made directly against `s`. */
  ghost function At(s: string, f: Res -> int): Res -> int {
    (r: Res) => if r.scope == s then f(r) else 0
  }

  ghost function ChildSums(scopes: map<string, Scope>, rs: map<string, Res>, s: string, f: Res -> int): map<string,
      int> {
    map c | c in Children(scopes, s) :: SumOf(rs, Under(scopes, c, f))
  }

  ghost function Shares(scopes: map<string, Scope>, r: Res, s: string, f: Res -> int): map<string, int> {
    map c | c in Children(scopes, s) :: Under(scopes, c, f)(r)
  }

  /** A scope on `id`'s chain other than `id` itself is reached through exactly one of its children. */
  lemma {:induction false} OneChildOnChain(scopes: map<string, Scope>, id: string, s: string) returns (c: string)
    requires Rooted(scopes) && id in scopes && s in Chain(scopes, id).value && s != id
    ensures c in Children(scopes, s) && c in Chain(scopes, id).value
    ensures forall d <- Children(scopes, s) :: d in Chain(scopes, id).value ==> d == c
    decreases |Chain(scopes, id).value|
  {
    ChainUnfold(scopes, id);
    ChainShape(scopes, id, {});
    var p := scopes[id].parent.value;
    ChainShape(scopes, p, {});
    if p == s {
      c := id;
      forall d | d in Children(scopes, s) && d in Chain(scopes, id).value ensures d == c {
        if d != c { ChildNeverAbove(scopes, s, d); }
      }
    } else {
      c := OneChildOnChain(scopes, p, s);
    }
  }

  lemma {:induction false} ChildNeverAbove(scopes: map<string, Scope>, s: string, d: string)
    requires Rooted(scopes) && s in scopes && d in Children(scopes, s)
    ensures d !in Chain(scopes, s).value
  {
    ChainUnfold(scopes, d);
  }

  /** Nothing directly under `s` is under a child of `s`; everything else under `s` is under exactly one. */
  lemma ChildShare(scopes: map<string, Scope>, r: Res, s: string, f: Res -> int)
    requires Rooted(scopes) && r.scope in scopes && s in scopes
    ensures Total(Shares(scopes, r, s, f))
         == if InScope(scopes, r.scope, s) && r.scope != s then f(r) else 0
  {
    var shares := Shares(scopes, r, s, f);
    if InScope(scopes, r.scope, s) && r.scope != s {
      var c := OneChildOnChain(scopes, r.scope, s);
      TotalSingle(shares, c);
    } else {
      forall c | c in Children(scopes, s) ensures !InScope(scopes, r.scope, c) {
        if InScope(scopes, r.scope, c) {
          ParentOnChain(scopes, r.scope, c);
          if r.scope == s { ChildNeverAbove(scopes, s, c); }
        }
      }
      TotalZero(shares);
    }
  }

  lemma {:induction false} ParentOnChain(scopes: map<string, Scope>, id: string, c: string)
    requires Rooted(scopes) && id in scopes && c in Chain(scopes, id).value && c in scopes && scopes[c].parent.Some?
    ensures scopes[c].parent.value in Chain(scopes, id).value
    decreases |Chain(scopes, id).value|
  {
    ChainUnfold(scopes, id);
    if id == c {
      ChainShape(scopes, scopes[c].parent.value, {});
    } else {
      ChainShape(scopes, scopes[id].parent.value, {});
      ParentOnChain(scopes, scopes[id].parent.value, c);
    }
  }

  lemma {:induction false} SplitByChildren(scopes: map<string, Scope>, rs: map<string, Res>, s: string, f: Res -> int)
    requires Rooted(scopes) && s in scopes && forall k <- rs :: rs[k].scope in scopes
    ensures SumOf(rs, Under(scopes, s, f)) == SumOf(rs, At(s, f)) + Total(ChildSums(scopes, rs, s, f))
    decreases |rs|
  {
    if |rs| == 0 {
      assert |rs.Keys| == 0;
      SumZero(rs, Under(scopes, s, f));
      SumZero(rs, At(s, f));
      forall c | c in Children(scopes, s) ensures SumOf(rs, Under(scopes, c, f)) == 0 {
        SumZero(rs, Under(scopes, c, f));
      }
      TotalZero(ChildSums(scopes, rs, s, f));
    } else {
      var k :| k in rs;
      Smaller(rs, k);
      SplitByChildren(scopes, rs - {k}, s, f);
      SumPeel(rs, k, Under(scopes, s, f));
      SumPeel(rs, k, At(s, f));
      PeelChildren(scopes, rs, k, s, f);
      OneShare(scopes, rs[k], s, f);
    }
  }

  lemma OneShare(scopes: map<string, Scope>, r: Res, s: string, f: Res -> int)
    requires Rooted(scopes) && r.scope in scopes && s in scopes
    ensures Under(scopes, s, f)(r) == At(s, f)(r) + Total(Shares(scopes, r, s, f))
  {
    ChildShare(scopes, r, s, f);
    if r.scope == s { ChainShape(scopes, s, {}); }
  }

  lemma PeelChildren(scopes: map<string, Scope>, rs: map<string, Res>, k: string, s: string, f: Res -> int)
    requires k in rs
    ensures Total(ChildSums(scopes, rs, s, f))
         == Total(Shares(scopes, rs[k], s, f)) + Total(ChildSums(scopes, rs - {k}, s, f))
  {
    forall c | c in Children(scopes, s)
      ensures SumOf(rs, Under(scopes, c, f)) == Under(scopes, c, f)(rs[k]) + SumOf(rs - {k}, Under(scopes, c, f))
    {
      SumPeel(rs, k, Under(scopes, c, f));
    }
    TotalAdd(ChildSums(scopes, rs, s, f), Shares(scopes, rs[k], s, f), ChildSums(scopes, rs - {k}, s, f));
  }

  /** Nothing is counted twice and nothing is missed as money rolls up the tree. */
  lemma CommittedIsOwnPlusChildren(ops: seq<Op>, s: string)
    requires s in Run(ops).scopes
    ensures var st := Run(ops);
            Committed(st, s) == SumOf(st.reservations, At(s, Contribution))
                              + Total(map c | c in Children(st.scopes, s) :: Committed(st, c))
  {
    Reachable(ops);
    var st := Run(ops);
    SplitByChildren(st.scopes, st.reservations, s, Contribution);
    TotalSame(map c | c in Children(st.scopes, s) ::
        Committed(st, c), ChildSums(st.scopes, st.reservations, s, Contribution));
  }

  // ---------------------------------------------------------------- nothing billed is dropped

  /** The price a transaction accepted, in micro-dollars. */
  ghost function AcceptedPrice(st: State, op: Op): int {
    var o := Apply(st, op).1;
    match op
    case Settle(_, usage, _) => if o.PricedSettled? || o.LateOverrun? then ToMicro(usage.usd.value) else 0
    case Resolve(_, usd) => if o.PricedSettled? then ToMicro(usd.value) else 0
    case _ => 0
  }

  ghost function AcceptedTotal(ops: seq<Op>): int {
    if ops == [] then 0
    else AcceptedTotal(ops[..|ops| - 1]) + AcceptedPrice(Run(ops[..|ops| - 1]), ops[|ops| - 1])
  }

  ghost function BilledTotal(rs: map<string, Res>): int {
    SumOf(rs, Billed)
  }

  lemma SettleBills(st: State, id: string, usage: Usage, fence: Option<Fence>)
    requires Records(st)
    ensures BilledTotal(SettleStep(st, id, usage, fence).0.reservations)
         == BilledTotal(st.reservations) + AcceptedPrice(st, Settle(id, usage, fence))
  {
    var after := SettleStep(st, id, usage, fence).0;
    if after != st { SumPut(st.reservations, id, after.reservations[id], Billed); }
  }

  lemma ResolveBills(st: State, id: string, usd: Usd)
    requires Records(st)
    ensures BilledTotal(ResolveStep(st, id, usd).0.reservations)
         == BilledTotal(st.reservations) + AcceptedPrice(st, Resolve(id, usd))
  {
    var after := ResolveStep(st, id, usd).0;
    if after != st { SumPut(st.reservations, id, after.reservations[id], Billed); }
  }

  lemma ReserveBills(st: State, id: string, scope: string, amount: Usd, fence: Option<Fence>)
    ensures BilledTotal(ReserveStep(st, id, scope, amount, fence).0.reservations) == BilledTotal(st.reservations)
  {
    var after := ReserveStep(st, id, scope, amount, fence).0;
    if after != st { SumPut(st.reservations, id, after.reservations[id], Billed); }
  }

  lemma ReleaseBills(st: State, id: string, fence: Option<Fence>)
    requires Records(st)
    ensures BilledTotal(ReleaseStep(st, id, fence).0.reservations) == BilledTotal(st.reservations)
  {
    var after := ReleaseStep(st, id, fence).0;
    if after != st { SumPut(st.reservations, id, after.reservations[id], Billed); }
  }

  lemma StepBills(st: State, op: Op)
    requires Records(st)
    ensures BilledTotal(Apply(st, op).0.reservations) == BilledTotal(st.reservations) + AcceptedPrice(st, op)
  {
    match op
    case Define(_) =>
    case TakeOver(_) =>
    case Reserve(id, scope, amount, fence) => ReserveBills(st, id, scope, amount, fence);
    case Settle(id, usage, fence) => SettleBills(st, id, usage, fence);
    case Release(id, fence) => ReleaseBills(st, id, fence);
    case Resolve(id, usd) => ResolveBills(st, id, usd);
  }

  /**
   In every history the accepted prices add up to the settled actuals plus the overruns of released
   reservations: usage that arrives late is still counted, and unpriced usage is never recorded as zero.
   */
  lemma {:induction false} NothingBilledIsDropped(ops: seq<Op>)
    ensures AcceptedTotal(ops) == BilledTotal(Run(ops).reservations)
  {
    if ops == [] {
      SumZero(Empty.reservations, Billed);
    } else {
      var before := ops[..|ops| - 1];
      NothingBilledIsDropped(before);
      Reachable(before);
      StepBills(Run(before), ops[|ops| - 1]);
    }
  }

  /** An unpriced hold keeps its whole record, amount included, until an operator resolves it. */
  lemma {:induction false} UnpricedHoldStays(ops: seq<Op>, later: seq<Op>, id: string)
    requires id in Run(ops).reservations && Run(ops).reservations[id].state.UnpricedHeld?
    requires forall op <- later :: !(op.Resolve? && op.id == id)
    ensures id in Run(ops + later).reservations && Run(ops + later).reservations[id] == Run(ops).reservations[id]
  {
    if later == [] {
      assert ops + later == ops;
    } else {
      var sooner := later[..|later| - 1];
      UnpricedHoldStays(ops, sooner, id);
      assert (ops + later)[..|ops + later| - 1] == ops + sooner;
    }
  }

  // ---------------------------------------------------------------- fencing

  ghost function FenceOf(op: Op): Option<Fence> {
    match op
    case Reserve(_, _, _, f) => f
    case Settle(_, _, f) => f
    case Release(_, f) => f
    case _ => None
  }

  lemma {:induction false} EpochsOnlyRise(ops: seq<Op>, later: seq<Op>, resource: string)
    requires resource in Run(ops).epochs
    ensures resource in Run(ops + later).epochs && Run(ops).epochs[resource] <= Run(ops + later).epochs[resource]
  {
    if later == [] {
      assert ops + later == ops;
    } else {
      var sooner := later[..|later| - 1];
      EpochsOnlyRise(ops, sooner, resource);
      assert (ops + later)[..|ops + later| - 1] == ops + sooner;
    }
  }

  /**
   After a takeover, no write carrying a token that was good before it is ever accepted again, whatever
   happens in between; the token the takeover issued is accepted until the next one.
   */
  lemma TakeoverFencesOldWriter(ops: seq<Op>, later: seq<Op>, token: Fence, write: Op)
    requires FenceRefusal(Run(ops), Some(token)).None?
    requires FenceOf(write) == Some(token)
    ensures var st := Run(ops + [TakeOver(token.resource)] + later);
            Apply(st, write).1.Refused? && Apply(st, write).0 == st
    ensures var taken := Run(ops + [TakeOver(token.resource)]);
            FenceRefusal(taken, Some(Fence(token.resource, Apply(Run(ops), TakeOver(token.resource)).1.epoch))).None?
  {
    var mid := ops + [TakeOver(token.resource)];
    assert mid[..|mid| - 1] == ops;
    EpochsOnlyRise(mid, later, token.resource);
  }

  /** The epoch of a resource is the number of takeovers there have been of it. */
  function TakeoversOf(ops: seq<Op>, resource: string): nat
    decreases |ops|
  {
    if ops == [] then 0
    else
      TakeoversOf(ops[..|ops| - 1], resource) + (if ops[|ops| - 1] == TakeOver(resource) then 1 else 0)
  }

  lemma {:induction false} EpochsCountTakeovers(ops: seq<Op>, resource: string)
    ensures Lookup(Run(ops).epochs, resource)
            == if TakeoversOf(ops, resource) == 0 then None else Some(TakeoversOf(ops, resource))
    decreases |ops|
  {
    if ops != [] { EpochsCountTakeovers(ops[..|ops| - 1], resource); }
  }

  /** A token is good if and only if it is the one the last takeover of its resource issued: none older, none forged. */
  lemma FenceAcceptedIff(ops: seq<Op>, token: Fence)
    ensures FenceRefusal(Run(ops), Some(token)).None?
            <==> TakeoversOf(ops, token.resource) > 0 && token.epoch == TakeoversOf(ops, token.resource)
    ensures FenceRefusal(Run(ops), Some(token)).Some? ==>
              FenceRefusal(Run(ops), Some(token)).value
              == StaleEpoch(token.resource, token.epoch, Lookup(Run(ops).epochs, token.resource))
  {
    EpochsCountTakeovers(ops, token.resource);
  }

  // ---------------------------------------------------------------- what each operation does to its reservation

  /** The amount recorded is within half a micro-dollar of the dollars given. */
  lemma MicroIsNearest(usd: real)
    ensures -0.5 < ToMicro(usd) as real - usd * 1000000.0 <= 0.5
  {
  }

  /** The call went through: no token, or the current one. */
  predicate Fenced(ops: seq<Op>, fence: Option<Fence>) {
    fence.Some? ==> TakeoversOf(ops, fence.value.resource) == fence.value.epoch > 0
  }

  lemma FencedIff(ops: seq<Op>, fence: Option<Fence>)
    ensures FenceRefusal(Run(ops), fence).None? <==> Fenced(ops, fence)
  {
    if fence.Some? { FenceAcceptedIff(ops, fence.value); }
  }

  /** The figures of a snapshot. */
  datatype Figure = HeldUSD | SettledUSD | UnpricedUSD | UnpricedUses | OverrunUSD | CommittedUSD

  function Shown(snap: Snapshot, figure: Figure): int {
    match figure
    case HeldUSD => snap.held
    case SettledUSD => snap.settled
    case UnpricedUSD => snap.unpricedHeld
    case UnpricedUses => snap.unpricedCount
    case OverrunUSD => snap.overrun
    case CommittedUSD => snap.committed
  }

  /** By how much each figure moves. */
  datatype Change = Change(held: int, settled: int, unpricedHeld: int, unpricedCount: int, overrun: int, committed: int)
  {
    function Of(figure: Figure): int {
      match figure
      case HeldUSD => held
      case SettledUSD => settled
      case UnpricedUSD => unpricedHeld
      case UnpricedUses => unpricedCount
      case OverrunUSD => overrun
      case CommittedUSD => committed
    }
  }

  function PartOf(figure: Figure): Res -> int {
    match figure
    case HeldUSD => HeldPart
    case SettledUSD => SettledPart
    case UnpricedUSD => UnpricedPart
    case UnpricedUses => UnpricedCount
    case OverrunUSD => Overrun
    case CommittedUSD => Contribution
  }

  /** A snapshot shows the cap and, each in its place, the six figures. */
  lemma SnapshotShows(st: State, s: string, figure: Figure)
    requires s in st.scopes
    ensures SnapshotOf(st, s).Some? && SnapshotOf(st, s).value.cap == st.scopes[s].cap
    ensures Shown(SnapshotOf(st, s).value, figure) == ScopeSum(st, s, PartOf(figure))
  {
  }

  /** One record written, nothing else, that adds to each figure by so much. */
  predicate Writes(st: State, after: State, id: string, r: Res, figure: Figure, d: Change) {
    && (id in st.reservations ==> r.scope == st.reservations[id].scope && r.reserved == st.reservations[id].reserved)
    && after == st.(reservations := st.reservations[id := r])
    && PartOf(figure)(r)
       == (if id in st.reservations then PartOf(figure)(st.reservations[id]) else 0) + d.Of(figure)
  }

  /** Then that figure moves by it on exactly the scopes of the record's chain. */
  lemma FigureMoves(st: State, after: State, id: string, r: Res, figure: Figure, d: Change, s: string)
    requires Writes(st, after, id, r, figure, d)
    ensures ScopeSum(after, s, PartOf(figure))
            == ScopeSum(st, s, PartOf(figure)) + (if InScope(st.scopes, r.scope, s) then d.Of(figure) else 0)
  {
    SumAfterWrite(st, id, r, s, PartOf(figure));
    UnderIs(st.scopes, s, PartOf(figure), r);
    if id in st.reservations { UnderIs(st.scopes, s, PartOf(figure), st.reservations[id]); }
  }

  /** Usage of a hold without a price: the hold stays, whole and marked unpriced, and no committed figure moves. */
  lemma UnpricedUsageHolds(ops: seq<Op>, id: string, fence: Option<Fence>, figure: Figure)
    requires id in Run(ops).reservations && Run(ops).reservations[id].state.Held? && Fenced(ops, fence)
    ensures var st := Run(ops); var r := st.reservations[id]; var (after, o) := Apply(st, Settle(id, Unpriced, fence));
            && o == HoldsUnpriced
            && Writes(st, after, id, Res(r.scope, UnpricedHeld, r.reserved, None, 0, 0), figure,
                Change(-r.reserved, 0, r.reserved, 1, 0, 0))
  {
    Reachable(ops);
    FencedIff(ops, fence);
  }

  /** A hold turned into spend. */
  function Spent(r: Res, actual: int): Res {
    Res(r.scope, Settled, r.reserved, Some(actual), if actual > r.reserved then actual - r.reserved else 0, 0)
  }

  lemma HoldSpends(st: State, id: string, usd: Usd, fence: Option<Fence>)
    requires id in st.reservations && st.reservations[id].state.Held? && GoodRes(st.reservations[id])
    requires FenceRefusal(st, fence).None? && ValidMoney(usd, true)
    ensures var done := Spent(st.reservations[id], ToMicro(usd.value));
            Apply(st, Settle(id, Priced(usd), fence))
            == (st.(reservations := st.reservations[id := done]), PricedSettled(done.overrun))
  {
  }

  lemma UnpricedHoldSpends(st: State, id: string, usd: Usd)
    requires id in st.reservations && st.reservations[id].state.UnpricedHeld? && GoodRes(st.reservations[id])
    requires ValidMoney(usd, true)
    ensures var done := Spent(st.reservations[id], ToMicro(usd.value));
            Apply(st, Resolve(id, usd))
                == (st.(reservations := st.reservations[id := done]), PricedSettled(done.overrun))
  {
  }

  /** With a price it becomes spend, and committed moves on its chain by what the price differs from the hold. */
  lemma PricedUsageSpends(ops: seq<Op>, id: string, usd: Usd, fence: Option<Fence>, figure: Figure)
    requires id in Run(ops).reservations && Run(ops).reservations[id].state.Held? && Fenced(ops, fence)
    requires usd.Finite? && usd.value >= 0.0
    ensures var st := Run(ops); var r := st.reservations[id];
            var (after, o) := Apply(st, Settle(id, Priced(usd), fence));
            var actual := ToMicro(usd.value);
            var over := if actual > r.reserved then actual - r.reserved else 0;
            && o == PricedSettled(over)
            && Writes(st, after, id, Spent(r, actual), figure,
                Change(-r.reserved, actual, 0, 0, over, actual - r.reserved))
  {
    Reachable(ops);
    FencedIff(ops, fence);
    HoldSpends(Run(ops), id, usd, fence);
  }

  /** A released record with more overrun, and more flags, on it. */
  function Later(r: Res, late: int, flags: int): Res {
    Res(r.scope, Released, r.reserved, None, r.overrun + late, r.lateUnpriced + flags)
  }

  lemma LateWrites(st: State, id: string, r: Res, late: int, flags: int, figure: Figure)
    requires id in st.reservations && st.reservations[id] == r && r.state.Released?
    ensures Writes(st, st.(reservations := st.reservations[id := Later(r, late, flags)]), id, Later(r, late, flags),
            figure,
        Change(0, 0, 0, flags, late, late))
  {
  }

  lemma SettlesLate(st: State, id: string, usage: Usage, fence: Option<Fence>)
    requires id in st.reservations && st.reservations[id].state.Released? && st.reservations[id].actual.None?
    requires FenceRefusal(st, fence).None? && Priceable(usage)
    ensures var late := if usage.Priced? then ToMicro(usage.usd.value) else 0;
            Apply(st, Settle(id, usage, fence))
            == (st.(reservations := st.reservations[
                        id := Later(st.reservations[id], late, if usage.Priced? then 0 else 1)]),
                if usage.Priced? then LateOverrun(late) else LateUnpriced)
  {
  }

  /** Usage of a released hold is counted on its chain in full; without a price it is flagged, and no money moves. */
  lemma LateUsageCounts(ops: seq<Op>, id: string, usage: Usage, fence: Option<Fence>, figure: Figure)
    requires id in Run(ops).reservations && Run(ops).reservations[id].state.Released? && Fenced(ops, fence)
    requires usage.Priced? ==> usage.usd.Finite? && usage.usd.value >= 0.0
    ensures var st := Run(ops); var (after, o) := Apply(st, Settle(id, usage, fence));
            var late := if usage.Priced? then ToMicro(usage.usd.value) else 0;
            var flags := if usage.Priced? then 0 else 1;
            && o == (if usage.Priced? then LateOverrun(late) else LateUnpriced)
            && Writes(st, after, id, Later(st.reservations[id], late, flags), figure,
                Change(0, 0, 0, flags, late, late))
  {
    Reachable(ops);
    FencedIff(ops, fence);
    var st := Run(ops);
    SettlesLate(st, id, usage, fence);
    LateWrites(st, id, st.reservations[id], if usage.Priced? then ToMicro(usage.usd.value) else 0,
        if usage.Priced? then 0 else 1, figure);
  }

  /** A settlement is refused, for the reason given, if and only if that reason stands and none before it does. */
  lemma SettleRefusedIff(ops: seq<Op>, id: string, usage: Usage, fence: Option<Fence>)
    ensures var st := Run(ops); var o := Apply(st, Settle(id, usage, fence)).1;
            var good := Fenced(ops, fence);
            var known := id in st.reservations;
            var valid := usage.Priced? ==> usage.usd.Finite? && usage.usd.value >= 0.0;
            && (o.Refused? && o.why.StaleEpoch? <==> !good)
            && (o == Refused(UnknownReservation(id)) <==> good && !known)
            && (o == Refused(Invalid) <==> good && known && !valid)
            && (o == Refused(AlreadySettled(id)) <==>
                good && known && valid
                    && (st.reservations[id].state.Settled? || st.reservations[id].state.UnpricedHeld?))
            && (o.Refused? <==>
                !good || !known || !valid
                || st.reservations[id].state.Settled? || st.reservations[id].state.UnpricedHeld?)
  {
    FencedIff(ops, fence);
    if fence.Some? { FenceAcceptedIff(ops, fence.value); }
  }

  /** A release frees a plain hold on its whole chain. */
  lemma ReleaseFrees(ops: seq<Op>, id: string, fence: Option<Fence>, figure: Figure)
    requires id in Run(ops).reservations && Run(ops).reservations[id].state.Held? && Fenced(ops, fence)
    ensures var st := Run(ops); var r := st.reservations[id]; var (after, o) := Apply(st, Release(id, fence));
            && o == ReleaseSeen(true)
            && Writes(st, after, id, Res(r.scope, Released, r.reserved, None, 0, 0), figure,
                Change(-r.reserved, 0, 0, 0, 0, -r.reserved))
  {
    Reachable(ops);
    FencedIff(ops, fence);
  }

  /** Of anything else it only says whether it was released before. */
  lemma ReleaseOnlySees(ops: seq<Op>, id: string, fence: Option<Fence>)
    requires id in Run(ops).reservations ==> !Run(ops).reservations[id].state.Held?
    requires Fenced(ops, fence)
    ensures var st := Run(ops);
            Apply(st, Release(id, fence))
            == (st, if id in st.reservations then ReleaseSeen(st.reservations[id].state.Released?)
                else Refused(UnknownReservation(id)))
  {
    FencedIff(ops, fence);
  }

  /** An operator's price turns an unpriced hold into spend. */
  lemma ResolveCharges(ops: seq<Op>, id: string, usd: Usd, figure: Figure)
    requires id in Run(ops).reservations && Run(ops).reservations[id].state.UnpricedHeld?
    requires usd.Finite? && usd.value >= 0.0
    ensures var st := Run(ops); var r := st.reservations[id]; var (after, o) := Apply(st, Resolve(id, usd));
            var actual := ToMicro(usd.value);
            var over := if actual > r.reserved then actual - r.reserved else 0;
            && o == PricedSettled(over)
            && Writes(st, after, id, Spent(r, actual), figure,
                Change(0, actual, -r.reserved, -1, over, actual - r.reserved))
  {
    Reachable(ops);
    UnpricedHoldSpends(Run(ops), id, usd);
  }

  /** And nothing else: any other call to resolve is refused, with the reason. */
  lemma ResolveRefusedIff(ops: seq<Op>, id: string, usd: Usd)
    ensures var st := Run(ops); var o := Apply(st, Resolve(id, usd)).1;
            && (o == Refused(UnknownReservation(id)) <==> id !in st.reservations)
            && (o == Refused(NotUnpricedHeld(id)) <==>
                id in st.reservations && !st.reservations[id].state.UnpricedHeld?)
            && (o == Refused(Invalid) <==>
                id in st.reservations && st.reservations[id].state.UnpricedHeld? && !(usd.Finite? && usd.value >= 0.0))
  {
  }

  /**
   A scope is defined once, with its cap in micro-dollars and under a parent defined before it; said again it must say
   the same, for a limit others rely on is not resized.
   */
  lemma DefineOnce(ops: seq<Op>, spec: ScopeSpec)
    ensures var st := Run(ops); var (after, o) := Apply(st, Define(spec));
            var valid := spec.cap.Finite? && spec.cap.value > 0.0 && (spec.kind.Parent? || spec.parent.Some?);
            var rooted := spec.parent.Some? ==> spec.parent.value in st.scopes;
            && (o == Defined <==>
                valid && rooted
                && (spec.id in st.scopes ==>
                      var made := st.scopes[spec.id];
                      made.kind == spec.kind && made.parent == spec.parent && made.cap == ToMicro(spec.cap.value)))
            && (o != Defined ==>
                  o == Refused(if valid && !rooted then UnknownScope(spec.parent.value) else Invalid))
            && (if o == Defined && spec.id !in st.scopes
                then
                  after == st.(scopes := st.scopes[spec.id := Scope(spec.kind, ToMicro(spec.cap.value), spec.parent)])
                else after == st)
  {
  }

  /** An admitted reservation holds its whole amount against every scope of its chain. */
  lemma ReserveHolds(ops: seq<Op>, id: string, scope: string, amount: Usd, fence: Option<Fence>, figure: Figure)
    requires amount.Finite?
    requires var o := Apply(Run(ops), Reserve(id, scope, amount, fence)).1; o.Reserved? && !o.replay
    ensures var st := Run(ops); var (after, o) := Apply(st, Reserve(id, scope, amount, fence));
            var micro := ToMicro(amount.value);
            var r := Res(scope, Held, micro, None, 0, 0);
            && o == Reserved(r, false) && id !in st.reservations
            && Writes(st, after, id, r, figure, Change(micro, 0, 0, 0, 0, micro))
  {
    var micro := ToMicro(amount.value);
  }

  /** A known id is answered with what it reserved, in its own scope; other calls with the reason they are refused. */
  lemma ReserveAnswers(ops: seq<Op>, id: string, scope: string, amount: Usd, fence: Option<Fence>)
    requires Fenced(ops, fence)
    requires !(amount.Finite? && amount.value > 0.0) || id in Run(ops).reservations || scope !in Run(ops).scopes
    ensures var st := Run(ops);
            Apply(st, Reserve(id, scope, amount, fence)).1
            == if !(amount.Finite? && amount.value > 0.0) then Refused(Invalid)
               else if id !in st.reservations then Refused(UnknownScope(scope))
               else if st.reservations[id].scope == scope then Reserved(st.reservations[id], true)
               else Refused(Invalid)
  {
    Reachable(ops);
    FencedIff(ops, fence);
  }

  /** Over a cap, the nearest scope without room is named, with its cap and what is committed there. */
  lemma OverCapNamesTheNearest(ops: seq<Op>, id: string, scope: string, amount: Usd, fence: Option<Fence>)
    requires Fenced(ops, fence) && ValidMoney(amount, false) && id !in Run(ops).reservations
    requires scope in Run(ops).scopes && Chain(Run(ops).scopes, scope).Some?
    requires !Fits(Run(ops), Chain(Run(ops).scopes, scope).value, ToMicro(amount.value))
    ensures var st := Run(ops); var (after, o) := Apply(st, Reserve(id, scope, amount, fence));
            var chain := Chain(st.scopes, scope).value;
            && o.Refused? && o.why.OverCap?
            && exists k :: 0 <= k < |chain| && NearestOver(st, chain, k, ToMicro(amount.value))
                           && o.why == OverCap(chain[k], st.scopes[chain[k]].cap, Committed(st, chain[k]), amount)
  {
    Reachable(ops);
    FencedIff(ops, fence);
    var st := Run(ops);
    ChainShape(st.scopes, scope, {});
    NoneOverIff(st, scope, ToMicro(amount.value));
    FirstOverAt(st, Chain(st.scopes, scope).value, ToMicro(amount.value));
  }

  /** The amount fits every scope before the `k`-th, and not that one. */
  ghost predicate NearestOver(st: State, chain: seq<string>, k: nat, amount: int)
    requires k < |chain|
  {
    && Fits(st, chain[..k], amount) && chain[k] in st.scopes
    && Committed(st, chain[k]) + amount > st.scopes[chain[k]].cap
  }

  lemma {:induction false} FirstOverAt(st: State, chain: seq<string>, amount: int)
    requires forall s <- chain :: s in st.scopes
    ensures FirstOver(st, chain, amount).Some? ==>
              exists k :: 0 <= k < |chain| && FirstOver(st, chain, amount).value == chain[k]
                          && NearestOver(st, chain, k, amount)
    decreases |chain|
  {
    if chain != [] && FirstOver(st, chain, amount).Some? {
      if Committed(st, chain[0]) + amount > st.scopes[chain[0]].cap {
        assert NearestOver(st, chain, 0, amount);
      } else {
        FirstOverAt(st, chain[1..], amount);
        var k :| 0 <= k < |chain[1..]| && FirstOver(st, chain[1..], amount).value == chain[1..][k]
                 && NearestOver(st, chain[1..], k, amount);
        assert chain[..k + 1] == [chain[0]] + chain[1..][..k];
        assert NearestOver(st, chain, k + 1, amount);
      }
    }
  }

  // ---------------------------------------------------------------- unpriced usage is counted

  /** By how much one answer moves the count. */
  function Flags(op: Op, o: Outcome): int {
    (if o.HoldsUnpriced? || o.LateUnpriced? then 1 else 0) - (if op.Resolve? && o.PricedSettled? then 1 else 0)
  }

  /** How many answers flagged usage without a price, less those an operator priced since. */
  ghost function Unresolved(ops: seq<Op>): int {
    if ops == [] then 0
    else
      var before := ops[..|ops| - 1];
      Unresolved(before) + Flags(ops[|ops| - 1], Apply(Run(before), ops[|ops| - 1]).1)
  }

  ghost predicate FlagsKept(st: State, op: Op) {
    var (after, o) := Apply(st, op);
    SumOf(after.reservations, UnpricedCount) == SumOf(st.reservations, UnpricedCount) + Flags(op, o)
  }

  lemma SettleFlags(st: State, id: string, usage: Usage, fence: Option<Fence>)
    requires Records(st)
    ensures FlagsKept(st, Settle(id, usage, fence))
  {
    var after := SettleStep(st, id, usage, fence).0;
    if after != st { SumPut(st.reservations, id, after.reservations[id], UnpricedCount); }
  }

  lemma ResolveFlags(st: State, id: string, usd: Usd)
    requires Records(st)
    ensures FlagsKept(st, Resolve(id, usd))
  {
    var after := ResolveStep(st, id, usd).0;
    if after != st { SumPut(st.reservations, id, after.reservations[id], UnpricedCount); }
  }

  lemma ReserveFlags(st: State, id: string, scope: string, amount: Usd, fence: Option<Fence>)
    ensures FlagsKept(st, Reserve(id, scope, amount, fence))
  {
    var after := ReserveStep(st, id, scope, amount, fence).0;
    if after != st { SumPut(st.reservations, id, after.reservations[id], UnpricedCount); }
  }

  lemma ReleaseFlags(st: State, id: string, fence: Option<Fence>)
    requires Records(st)
    ensures FlagsKept(st, Release(id, fence))
  {
    var after := ReleaseStep(st, id, fence).0;
    if after != st { SumPut(st.reservations, id, after.reservations[id], UnpricedCount); }
  }

  lemma FlagsStep(st: State, op: Op)
    requires Records(st)
    ensures FlagsKept(st, op)
  {
    match op
    case Define(_) =>
    case TakeOver(_) =>
    case Reserve(id, scope, amount, fence) => ReserveFlags(st, id, scope, amount, fence);
    case Settle(id, usage, fence) => SettleFlags(st, id, usage, fence);
    case Release(id, fence) => ReleaseFlags(st, id, fence);
    case Resolve(id, usd) => ResolveFlags(st, id, usd);
  }

  /** In every history each piece of usage without a price stays counted until an operator prices it. */
  lemma {:induction false} UnpricedUsageIsCounted(ops: seq<Op>)
    ensures SumOf(Run(ops).reservations, UnpricedCount) == Unresolved(ops)
    decreases |ops|
  {
    if ops == [] {
      SumZero(Empty.reservations, UnpricedCount);
    } else {
      UnpricedUsageIsCounted(ops[..|ops| - 1]);
      Reachable(ops[..|ops| - 1]);
      FlagsStep(Run(ops[..|ops| - 1]), ops[|ops| - 1]);
    }
  }
}
