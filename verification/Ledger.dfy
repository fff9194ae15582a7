/**
 The budget reservation ledger: a tree of capped scopes, reservations that move
 held -> settled | unpriced-held -> settled | released, and epoch fencing.

 `Apply` is the specification of one transaction as a value; `Ledger` below is the
 object whose methods run the loops and update the maps in place. The theorems about
 whole histories are in LedgerTheorems.dfy.
 */
module LedgerSpec {
  import opened Options
  import opened Sums

  datatype ScopeKind = Parent | Child | Retry

  /** A JavaScript number offered as dollars: NaN and the infinities are one case. */
  datatype Usd = NotFinite | Finite(value: real)

  datatype ScopeSpec = ScopeSpec(id: string, kind: ScopeKind, cap: Usd, parent: Option<string>)
  datatype Scope = Scope(kind: ScopeKind, cap: int, parent: Option<string>)

  datatype ResState = Held | Settled | UnpricedHeld | Released
  datatype Res = Res(scope: string, state: ResState, reserved: int, actual: Option<int>, overrun: int,
      lateUnpriced: int)

  datatype Fence = Fence(resource: string, epoch: int)
  datatype Usage = Priced(usd: Usd) | Unpriced

  /** Money inside is integer micro-dollars. */
  datatype State = State(scopes: map<string, Scope>, reservations: map<string, Res>, epochs: map<string, int>)

  const Empty := State(map[], map[], map[])

  datatype Refusal =
    | OverCap(scope: string, cap: int, committed: int, requested: Usd)
    | UnknownScope(scope: string)
    | StaleEpoch(resource: string, presented: int, current: Option<int>)
    | UnknownReservation(id: string)
    | AlreadySettled(id: string)
    | NotUnpricedHeld(id: string)
    | Invalid

  datatype Outcome =
    | Defined
    | Reserved(res: Res, replay: bool)
    | PricedSettled(overrun: int)
    | HoldsUnpriced
    | LateOverrun(micro: int)
    | LateUnpriced
    | ReleaseSeen(released: bool)
    | Epoch(epoch: int)
    | Refused(why: Refusal)

  datatype Op =
    | Define(spec: ScopeSpec)
    | Reserve(id: string, scope: string, amount: Usd, fence: Option<Fence>)
    | Settle(id: string, usage: Usage, fence: Option<Fence>)
    | Release(id: string, fence: Option<Fence>)
    | Resolve(id: string, usd: Usd)
    | TakeOver(resource: string)

  // ---------------------------------------------------------------- money

  /** Round half up, as Math.round does. */
  function ToMicro(usd: real): int {
    (usd * 1000000.0 + 0.5).Floor
  }

  predicate ValidMoney(usd: Usd, allowZero: bool) {
    usd.Finite? && (if allowZero then usd.value >= 0.0 else usd.value > 0.0)
  }

  function Max(a: int, b: int): int {
    if a > b then a else b
  }

  // ---------------------------------------------------------------- scopes

  /** The scope and its ancestors, nearest first; None when a link is missing or seen twice. */
  function ChainFrom(scopes: map<string, Scope>, id: string, seen: set<string>): (c: Option<seq<string>>)
    decreases scopes.Keys - seen
  {
    if id !in scopes || id in seen then None
    else match scopes[id].parent
      case None => Some([id])
      case Some(p) =>
        match ChainFrom(scopes, p, seen + {id})
        case None => None
        case Some(rest) => Some([id] + rest)
  }

  function Chain(scopes: map<string, Scope>, id: string): Option<seq<string>> {
    ChainFrom(scopes, id, {})
  }

  predicate InScope(scopes: map<string, Scope>, at: string, scope: string) {
    var c := Chain(scopes, at);
    c.Some? && scope in c.value
  }

  // ---------------------------------------------------------------- what a reservation weighs

  function Contribution(r: Res): int {
    match r.state
    case Held => r.reserved + r.overrun
    case UnpricedHeld => r.reserved + r.overrun
    case Settled => if r.actual.Some? then r.actual.value else 0
    case Released => r.overrun
  }

  function Overrun(r: Res): int { r.overrun }
  function HeldPart(r: Res): int { if r.state.Held? then r.reserved else 0 }
  function SettledPart(r: Res): int { if r.state.Settled? && r.actual.Some? then r.actual.value else 0 }
  function UnpricedPart(r: Res): int { if r.state.UnpricedHeld? then r.reserved else 0 }
  function LatePart(r: Res): int { if r.state.Released? then r.overrun else 0 }
  function UnpricedCount(r: Res): int { (if r.state.UnpricedHeld? then 1 else 0) + r.lateUnpriced }

  /** What a reservation holds against the cap it was admitted under: never its overrun. */
  function Floor(r: Res): int { Contribution(r) - r.overrun }

  /** What the provider billed and the ledger accepted a price for. */
  function Billed(r: Res): int { SettledPart(r) + LatePart(r) }

  /** The weight of one reservation seen from `scope`: nothing unless it lies under it. */
  ghost function Under(scopes: map<string, Scope>, scope: string, f: Res -> int): Res -> int {
    (r: Res) => if InScope(scopes, r.scope, scope) then f(r) else 0
  }

  /** The sum of `f` over every reservation under `scope`, descendants included. */
  ghost function ScopeSum(st: State, scope: string, f: Res -> int): int {
    SumOf(st.reservations, Under(st.scopes, scope, f))
  }

  ghost function Committed(st: State, scope: string): int {
    ScopeSum(st, scope, Contribution)
  }

  // ---------------------------------------------------------------- transactions

  predicate FenceOk(current: Option<int>, presented: int) {
    1 <= presented && current == Some(presented)
  }

  function Lookup<V>(m: map<string, V>, k: string): Option<V> {
    if k in m then Some(m[k]) else None
  }

  function FenceRefusal(st: State, fence: Option<Fence>): Option<Refusal> {
    match fence
    case None => None
    case Some(f) =>
      var current := Lookup(st.epochs, f.resource);
      if FenceOk(current, f.epoch) then None else Some(StaleEpoch(f.resource, f.epoch, current))
  }

  function DefineStep(st: State, s: ScopeSpec): (State, Outcome) {
    if !ValidMoney(s.cap, false) || (!s.kind.Parent? && s.parent.None?) then (st, Refused(Invalid))
    else if s.parent.Some? && s.parent.value !in st.scopes then (st, Refused(UnknownScope(s.parent.value)))
    else
      var made := Scope(s.kind, ToMicro(s.cap.value), s.parent);
      if s.id in st.scopes then (st, if st.scopes[s.id] == made then Defined else Refused(Invalid))
      else (st.(scopes := st.scopes[s.id := made]), Defined)
  }

  /** The nearest scope on the chain whose cap the amount would break. */
  ghost function FirstOver(st: State, chain: seq<string>, amount: int): Option<string> {
    if chain == [] then None
    else if chain[0] in st.scopes && Committed(st, chain[0]) + amount > st.scopes[chain[0]].cap then Some(chain[0])
    else FirstOver(st, chain[1..], amount)
  }

  ghost function ReserveStep(st: State, id: string, scope: string, amount: Usd, fence: Option<Fence>): (State,
      Outcome) {
    var stale := FenceRefusal(st, fence);
    if stale.Some? then (st, Refused(stale.value))
    else if !ValidMoney(amount, false) then (st, Refused(Invalid))
    else if id in st.reservations then
      (st, if st.reservations[id].scope == scope then Reserved(st.reservations[id], true) else Refused(Invalid))
    else
      match Chain(st.scopes, scope)
      case None => (st, Refused(UnknownScope(scope)))
      case Some(chain) =>
        var micro := ToMicro(amount.value);
        match FirstOver(st, chain, micro)
        case Some(s) =>
          (st, Refused(OverCap(s, if s in st.scopes then st.scopes[s].cap else 0, Committed(st, s), amount)))
        case None =>
          var rec := Res(scope, Held, micro, None, 0, 0);
          (st.(reservations := st.reservations[id := rec]), Reserved(rec, false))
  }

  function Priceable(usage: Usage): bool {
    usage.Priced? ==> ValidMoney(usage.usd, true)
  }

  /** A held or unpriced reservation with its real cost recorded. */
  function Settling(r: Res, actual: int): Res {
    r.(state := Settled, actual := Some(actual), overrun := Max(0, actual - r.reserved))
  }

  function SettleStep(st: State, id: string, usage: Usage, fence: Option<Fence>): (State, Outcome) {
    var stale := FenceRefusal(st, fence);
    if stale.Some? then (st, Refused(stale.value))
    else if id !in st.reservations then (st, Refused(UnknownReservation(id)))
    else if !Priceable(usage) then (st, Refused(Invalid))
    else
      var r := st.reservations[id];
      match r.state
      case Settled => (st, Refused(AlreadySettled(id)))
      case UnpricedHeld => (st, Refused(AlreadySettled(id)))
      case Released =>
        (match usage
         case Unpriced =>
           (st.(reservations := st.reservations[id := r.(lateUnpriced := r.lateUnpriced + 1)]), LateUnpriced)
         case Priced(usd) =>
           var late := ToMicro(usd.value);
           (st.(reservations := st.reservations[id := r.(overrun := r.overrun + late)]), LateOverrun(late)))
      case Held =>
        (match usage
         case Unpriced =>
           (st.(reservations := st.reservations[id := r.(state := UnpricedHeld)]), HoldsUnpriced)
         case Priced(usd) =>
           var done := Settling(r, ToMicro(usd.value));
           (st.(reservations := st.reservations[id := done]), PricedSettled(done.overrun)))
  }

  function ReleaseStep(st: State, id: string, fence: Option<Fence>): (State, Outcome) {
    var stale := FenceRefusal(st, fence);
    if stale.Some? then (st, Refused(stale.value))
    else if id !in st.reservations then (st, Refused(UnknownReservation(id)))
    else
      var r := st.reservations[id];
      if !r.state.Held? then (st, ReleaseSeen(r.state.Released?))
      else (st.(reservations := st.reservations[id := r.(state := Released)]), ReleaseSeen(true))
  }

  function ResolveStep(st: State, id: string, usd: Usd): (State, Outcome) {
    if id !in st.reservations then (st, Refused(UnknownReservation(id)))
    else
      var r := st.reservations[id];
      if !r.state.UnpricedHeld? then (st, Refused(NotUnpricedHeld(id)))
      else if !ValidMoney(usd, true) then (st, Refused(Invalid))
      else
        var done := Settling(r, ToMicro(usd.value));
        (st.(reservations := st.reservations[id := done]), PricedSettled(done.overrun))
  }

  function NextEpoch(current: Option<int>): int {
    (if current.Some? then current.value else 0) + 1
  }

  function TakeOverStep(st: State, resource: string): (State, Outcome) {
    var next := NextEpoch(Lookup(st.epochs, resource));
    (st.(epochs := st.epochs[resource := next]), Epoch(next))
  }

  ghost function Apply(st: State, op: Op): (State, Outcome) {
    match op
    case Define(spec) => DefineStep(st, spec)
    case Reserve(id, scope, amount, fence) => ReserveStep(st, id, scope, amount, fence)
    case Settle(id, usage, fence) => SettleStep(st, id, usage, fence)
    case Release(id, fence) => ReleaseStep(st, id, fence)
    case Resolve(id, usd) => ResolveStep(st, id, usd)
    case TakeOver(resource) => TakeOverStep(st, resource)
  }

  /** The ledger after a history of transactions on an empty one. */
  ghost function Run(ops: seq<Op>): State
  {
    if ops == [] then Empty else Apply(Run(ops[..|ops| - 1]), ops[|ops| - 1]).0
  }

  datatype Snapshot = Snapshot(cap: int, committed: int, held: int, settled: int, unpricedHeld: int,
                               unpricedCount: int, overrun: int, remaining: int)

  ghost function SnapshotOf(st: State, scope: string): Option<Snapshot> {
    if scope !in st.scopes then None
    else
      var committed := Committed(st, scope);
      Some(Snapshot(st.scopes[scope].cap, committed,
                    ScopeSum(st, scope, HeldPart), ScopeSum(st, scope, SettledPart), ScopeSum(st, scope, UnpricedPart),
                    ScopeSum(st, scope, UnpricedCount), ScopeSum(st, scope, Overrun),
                    Max(0, st.scopes[scope].cap - committed)))
  }
}

/** The ledger object: maps and records updated in place, sums accumulated by loops. */
module LedgerObject {
  import opened Options
  import opened Sums
  import opened LedgerSpec

  class Ledger {
    var scopes: map<string, Scope>
    var reservations: map<string, Res>
    var epochs: map<string, int>

    ghost function Now(): State
      reads this
    {
      State(scopes, reservations, epochs)
    }

    constructor ()
      ensures Now() == Empty
    {
      scopes, reservations, epochs := map[], map[], map[];
    }

    ghost function Onto(done: seq<string>, rest: Option<seq<string>>): Option<seq<string>> {
      if rest.None? then None else Some(done + rest.value)
    }

    method ChainOf(id: string) returns (chain: Option<seq<string>>)
      ensures chain == Chain(scopes, id)
    {
      var out: seq<string> := [];
      var seen: set<string> := {};
      var cur := Some(id);
      assert Chain(scopes, id).Some? ==> [] + Chain(scopes, id).value == Chain(scopes, id).value;
      while cur.Some?
        invariant cur.Some? ==> Chain(scopes, id) == Onto(out, ChainFrom(scopes, cur.value, seen))
        invariant cur.None? ==> Chain(scopes, id) == Some(out)
        decreases scopes.Keys - seen, cur.Some?
      {
        if cur.value !in scopes || cur.value in seen { return None; }
        var s := scopes[cur.value];
        if s.parent.Some? {
          ghost var rest := ChainFrom(scopes, s.parent.value, seen + {cur.value});
          assert rest.Some? ==> out + ([cur.value] + rest.value) == (out + [cur.value]) + rest.value;
        }
        seen := seen + {cur.value};
        out := out + [cur.value];
        cur := s.parent;
      }
      return Some(out);
    }

    /** One accumulator loop, whatever is being added up. */
    method SumUnder(scope: string, f: Res -> int) returns (sum: int)
      ensures sum == ScopeSum(Now(), scope, f)
    {
      sum := 0;
      var todo := reservations;
      ghost var w := Under(scopes, scope, f);
      while |todo| != 0
        invariant SumOf(reservations, w) == sum + SumOf(todo, w)
        decreases |todo|
      {
        assert todo.Keys != {};
        var k :| k in todo.Keys;
        var c := ChainOf(todo[k].scope);
        SumPeel(todo, k, w);
        Smaller(todo, k);
        if c.Some? && scope in c.value { sum := sum + f(todo[k]); }
        todo := todo - {k};
      }
      assert todo.Keys == {};
      SumZero(todo, w);
    }

    method DefineScope(spec: ScopeSpec) returns (o: Outcome)
      modifies this`scopes
      ensures (Now(), o) == Apply(old(Now()), Define(spec))
    {
      if !ValidMoney(spec.cap, false) { return Refused(Invalid); }
      if !spec.kind.Parent? && spec.parent.None? { return Refused(Invalid); }
      if spec.parent.Some? && spec.parent.value !in scopes { return Refused(UnknownScope(spec.parent.value)); }
      var made := Scope(spec.kind, ToMicro(spec.cap.value), spec.parent);
      if spec.id in scopes {
        return if scopes[spec.id] == made then Defined else Refused(Invalid);
      }
      scopes := scopes[spec.id := made];
      return Defined;
    }

    /** Every ancestor is checked before anything is written. */
    method OverCapOn(chain: seq<string>, micro: int) returns (over: Option<string>, committed: int)
      ensures over == FirstOver(Now(), chain, micro)
      ensures over.Some? ==> committed == Committed(Now(), over.value)
    {
      committed := 0;
      var i := 0;
      assert chain[0..] == chain;
      while i < |chain|
        invariant 0 <= i <= |chain|
        invariant FirstOver(Now(), chain, micro) == FirstOver(Now(), chain[i..], micro)
      {
        committed := SumUnder(chain[i], Contribution);
        assert chain[i..][1..] == chain[i + 1..];
        if chain[i] in scopes && committed + micro > scopes[chain[i]].cap {
          return Some(chain[i]), committed;
        }
        i := i + 1;
      }
      return None, committed;
    }

    method ReserveAmount(id: string, scope: string, amount: Usd, fence: Option<Fence>) returns (o: Outcome)
      modifies this`reservations
      ensures (Now(), o) == Apply(old(Now()), Reserve(id, scope, amount, fence))
    {
      var stale := FenceRefusal(State(scopes, reservations, epochs), fence);
      if stale.Some? { return Refused(stale.value); }
      if !ValidMoney(amount, false) { return Refused(Invalid); }
      if id in reservations {
        return if reservations[id].scope == scope then Reserved(reservations[id], true) else Refused(Invalid);
      }
      var chain := ChainOf(scope);
      if chain.None? { return Refused(UnknownScope(scope)); }
      var micro := ToMicro(amount.value);
      var over, committed := OverCapOn(chain.value, micro);
      if over.Some? {
        return Refused(OverCap(over.value, if over.value in scopes then scopes[over.value].cap
            else 0, committed, amount));
      }
      var rec := Res(scope, Held, micro, None, 0, 0);
      reservations := reservations[id := rec];
      return Reserved(rec, false);
    }

    method SettleUsage(id: string, usage: Usage, fence: Option<Fence>) returns (o: Outcome)
      modifies this`reservations
      ensures (Now(), o) == Apply(old(Now()), Settle(id, usage, fence))
    {
      var stale := FenceRefusal(State(scopes, reservations, epochs), fence);
      if stale.Some? { return Refused(stale.value); }
      if id !in reservations { return Refused(UnknownReservation(id)); }
      var r := reservations[id];
      if usage.Priced? && !ValidMoney(usage.usd, true) { return Refused(Invalid); }
      if r.state == Settled || r.state == UnpricedHeld { return Refused(AlreadySettled(id)); }
      if r.state == Released {
        if usage.Unpriced? {
          reservations := reservations[id := r.(lateUnpriced := r.lateUnpriced + 1)];
          return LateUnpriced;
        }
        var late := ToMicro(usage.usd.value);
        reservations := reservations[id := r.(overrun := r.overrun + late)];
        return LateOverrun(late);
      }
      if usage.Unpriced? {
        reservations := reservations[id := r.(state := UnpricedHeld)];
        return HoldsUnpriced;
      }
      var actual := ToMicro(usage.usd.value);
      var over := Max(0, actual - r.reserved);
      reservations := reservations[id := r.(state := Settled, actual := Some(actual), overrun := over)];
      return PricedSettled(over);
    }

    method ReleaseHold(id: string, fence: Option<Fence>) returns (o: Outcome)
      modifies this`reservations
      ensures (Now(), o) == Apply(old(Now()), Release(id, fence))
    {
      var stale := FenceRefusal(State(scopes, reservations, epochs), fence);
      if stale.Some? { return Refused(stale.value); }
      if id !in reservations { return Refused(UnknownReservation(id)); }
      var r := reservations[id];
      if r.state != Held { return ReleaseSeen(r.state == Released); }
      reservations := reservations[id := r.(state := Released)];
      return ReleaseSeen(true);
    }

    method ResolveUnpriced(id: string, usd: Usd) returns (o: Outcome)
      modifies this`reservations
      ensures (Now(), o) == Apply(old(Now()), Resolve(id, usd))
    {
      if id !in reservations { return Refused(UnknownReservation(id)); }
      var r := reservations[id];
      if r.state != UnpricedHeld { return Refused(NotUnpricedHeld(id)); }
      if !ValidMoney(usd, true) { return Refused(Invalid); }
      var actual := ToMicro(usd.value);
      var over := Max(0, actual - r.reserved);
      reservations := reservations[id := r.(state := Settled, actual := Some(actual), overrun := over)];
      return PricedSettled(over);
    }

    method TakeOverResource(resource: string) returns (o: Outcome)
      modifies this`epochs
      ensures (Now(), o) == Apply(old(Now()), TakeOver(resource))
    {
      var next := NextEpoch(Lookup(epochs, resource));
      epochs := epochs[resource := next];
      return Epoch(next);
    }

    method TakeSnapshot(scope: string) returns (s: Option<Snapshot>)
      ensures s == SnapshotOf(Now(), scope)
    {
      if scope !in scopes { return None; }
      var held := SumUnder(scope, HeldPart);
      var settled := SumUnder(scope, SettledPart);
      var unpriced := SumUnder(scope, UnpricedPart);
      var count := SumUnder(scope, UnpricedCount);
      var over := SumUnder(scope, Overrun);
      var committed := SumUnder(scope, Contribution);
      return Some(Snapshot(scopes[scope].cap, committed, held, settled, unpriced, count, over,
                           Max(0, scopes[scope].cap - committed)));
    }
  }
}
