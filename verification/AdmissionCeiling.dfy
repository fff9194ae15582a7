/** The ceiling on everyone whose slot never expired: what a delete has to spare, and what happens when it does not. */
module AdmissionCeiling {
  import opened AdmissionSteps
  import opened AdmissionTheorems
  import opened Sets

  /** The delete, if it reaches a slot, takes no live acquisition of the run with it. */
  ghost predicate Sparing(s: Fleet, step: Step) {
    step.Delete? && step.reaches && step.c in s.calls && s.calls[step.c].Releasing?
        && s.calls[step.c].hold.key.Slot? ==>
      !Standing(s, s.calls[step.c].who.run, s.calls[step.c].hold.key)
  }

  ghost predicate AllSparing(s: Fleet, steps: seq<Step>)
    requires Possible(s, steps)
    decreases |steps|
  {
    steps == [] || (Sparing(s, steps[0]) && AllSparing(Apply(s, steps[0]), steps[1..]))
  }

  predicate Lost(s: Fleet, h: Hold) {
    h.ticket in s.evicted && h.ticket !in s.lapsed
  }

  /** No slot acquisition that never expired was taken away. */
  ghost predicate NothingLost(s: Fleet) {
    && (forall who <- s.holds :: who.kind.Slots? ==> !Lost(s, s.holds[who]))
    && (forall d <- s.calls :: s.calls[d].Won? && s.calls[d].who.kind.Slots? ==> !Lost(s, s.calls[d].hold))
  }

  ghost predicate Sound(s: Fleet) {
    Safe(s) && NothingLost(s) && Past(s)
  }

  ghost predicate Past(s: Fleet) {
    (forall x <- s.evicted :: x < s.next) && (forall x <- s.lapsed :: x < s.next)
  }

  lemma EvictedPast(s: Fleet, step: Step)
    requires Safe(s) && Enabled(s, step) && Past(s)
    ensures Past(Apply(s, step))
  {
    if !step.Delete? && !step.Lapse? { LosesNothing(s, step); }
  }

  lemma LosesNothing(s: Fleet, step: Step)
    requires Enabled(s, step) && !step.Delete? && !step.Lapse?
    ensures var t := Apply(s, step); t.evicted == s.evicted && t.lapsed == s.lapsed && t.next >= s.next
  {
  }

  lemma NothingLostOnTry(s: Fleet, c: nat)
    requires Sound(s) && Enabled(s, Try(c))
    ensures NothingLost(TryStep(s, c))
  {
  }

  lemma NothingLostOnDelete(s: Fleet, c: nat, reaches: bool)
    requires Sound(s) && Enabled(s, Delete(c, reaches)) && Sparing(s, Delete(c, reaches))
    ensures NothingLost(DeleteStep(s, c, reaches))
  {
    var t := DeleteStep(s, c, reaches);
    assert Kept(s, s.calls[c].who, s.calls[c].hold);
    forall who | who in t.holds && who.kind.Slots? ensures !Lost(t, t.holds[who]) {
      assert Kept(s, who, s.holds[who]);
      if reaches && Live(s, s.holds[who]) { HeldTaken(s, c, who); }
    }
    forall d | d in t.calls && t.calls[d].Won? && t.calls[d].who.kind.Slots? ensures !Lost(t, t.calls[d].hold) {
      assert Kept(s, s.calls[d].who, s.calls[d].hold);
      if reaches && Live(s, s.calls[d].hold) { WonTaken(s, c, d); }
    }
  }

  lemma NothingLostOnLaunch(s: Fleet, c: nat)
    requires Sound(s) && Enabled(s, TryLaunch(c))
    ensures NothingLost(TryLaunchStep(s, c))
  {
    var call := LaunchShape(s, c);
  }

  lemma NothingLostOtherwise(s: Fleet, step: Step)
    requires Sound(s) && Enabled(s, step) && !step.Try? && !step.Delete? && !step.TryLaunch?
    ensures NothingLost(Apply(s, step))
  {
  }

  lemma SoundStep(s: Fleet, step: Step)
    requires Sound(s) && Enabled(s, step) && Sparing(s, step)
    ensures Sound(Apply(s, step))
  {
    StepSafe(s, step);
    EvictedPast(s, step);
    match step
    case Try(c) => NothingLostOnTry(s, c);
    case Delete(c, reaches) => NothingLostOnDelete(s, c, reaches);
    case TryLaunch(c) => NothingLostOnLaunch(s, c);
    case _ => NothingLostOtherwise(s, step);
  }

  lemma {:induction false} SoundRun(s: Fleet, steps: seq<Step>)
    requires Sound(s) && Possible(s, steps) && AllSparing(s, steps)
    ensures Sound(After(s, steps))
    decreases |steps|
  {
    if steps != [] {
      SoundStep(s, steps[0]);
      SoundRun(Apply(s, steps[0]), steps[1..]);
    }
  }

  lemma SoundFits(s: Fleet, limit: nat)
    requires Sound(s) && SlotsBelow(s, limit)
    ensures |Unlapsed(s)| <= limit
  {
    HoldersFit(s, limit);
    assert Unlapsed(s) == Holders(s);
  }

  /**
   Over every interleaving whose deletes spare the live acquisitions of their run, at most `limit` admitted runs have a
   slot that never expired. No lease is asked for: two workers may hold one run as long as neither gives back too late.
   */
  lemma SparedCeiling(steps: seq<Step>, limit: nat)
    requires Possible(Empty, steps) && AllCapped(limit, steps) && AllSparing(Empty, steps)
    ensures |Unlapsed(After(Empty, steps))| <= limit
  {
    SoundRun(Empty, steps);
    RunBelow(Empty, steps, limit);
    SoundFits(After(Empty, steps), limit);
  }

  // ---------------------------------------------------------------- filling the slots again

  /** A stretch of a run that deletes nothing and asks within the limit. */
  ghost predicate Mild(s: Fleet, steps: seq<Step>, limit: nat) {
    Possible(s, steps) && AllCapped(limit, steps) && forall step <- steps :: !step.Delete?
  }

  lemma {:induction false} MildIsSparing(s: Fleet, steps: seq<Step>, limit: nat)
    requires Mild(s, steps, limit)
    ensures AllSparing(s, steps)
    decreases |steps|
  {
    if steps != [] { MildIsSparing(Apply(s, steps[0]), steps[1..], limit); }
  }

  lemma {:induction false} Joined(s: Fleet, a: seq<Step>, b: seq<Step>, limit: nat)
    requires Mild(s, a, limit) && Mild(After(s, a), b, limit)
    ensures Mild(s, a + b, limit) && After(s, a + b) == After(After(s, a), b)
    decreases |a|
  {
    if a == [] {
      assert a + b == b;
    } else {
      Joined(Apply(s, a[0]), a[1..], b, limit);
      assert (a + b)[1..] == a[1..] + b;
    }
  }

  lemma One(s: Fleet, step: Step, limit: nat)
    requires Enabled(s, step) && Capped(limit, step) && !step.Delete?
    ensures Mild(s, [step], limit) && After(s, [step]) == Apply(s, step)
  {
    assert [step][1..] == [];
    forall other | other in [step] ensures Capped(limit, other) && !other.Delete? { assert other == step; }
  }

  lemma {:induction false} Above(ns: set<nat>) returns (top: nat)
    ensures forall n <- ns :: n < top
  {
    if ns == {} { return 0; }
    var n :| n in ns;
    var rest := Above(ns - {n});
    assert forall m <- ns :: m == n || m in ns - {n};
    top := if n < rest then rest else n + 1;
  }

  ghost predicate NoSlots(kv: map<Key, Entry>) {
    forall key <- kv :: !key.Slot?
  }

  ghost predicate Absent(kv: map<Key, Entry>, ticket: nat) {
    forall key <- kv :: kv[key].ticket != ticket
  }

  /** Every slot expires; a ticket that is in no slot does not. */
  lemma {:induction false} LapseAll(s: Fleet, ticket: nat, limit: nat) returns (steps: seq<Step>)
    requires (forall key <- s.kv :: s.kv[key].until <= s.now && s.kv[key].ticket < s.next) && ticket !in s.lapsed
             && Absent(s.kv, ticket)
    requires forall x <- s.lapsed :: x < s.next
    ensures Mild(s, steps, limit)
    ensures var t := After(s, steps);
            && NoSlots(t.kv) && t.kv.Keys <= s.kv.Keys && t.holds == s.holds && t.calls == s.calls && t.next == s.next
            && ticket !in t.lapsed && Absent(t.kv, ticket)
            && (forall x <- t.lapsed :: x < t.next)
    decreases |s.kv|
  {
    if NoSlots(s.kv) { return []; }
    var key :| key in s.kv && key.Slot?;
    One(s, Lapse(key), limit);
    var t := Apply(s, Lapse(key));
    assert t.kv.Keys == s.kv.Keys - {key};
    var rest := LapseAll(t, ticket, limit);
    Joined(s, [Lapse(key)], rest, limit);
    steps := [Lapse(key)] + rest;
  }

  /** The run taken up in slot `i`. */
  function NewRun(i: nat): Run {
    seq(i, _ => 'r')
  }

  function NewWho(w: Worker, i: nat): Who {
    Who(w + i, Slots, NewRun(i))
  }

  /** A scan goes up past taken slots. */
  lemma {:induction false} ScansUp(s: Fleet, c: nat, who: Who, limit: nat, j: nat, i: nat) returns (steps: seq<Step>)
    requires c in s.calls && s.calls[c] == Scanning(who, SlotPool(limit), j) && j <= i < limit
    requires forall k: nat :: j <= k < i ==> Slot(k) in s.kv
    ensures Mild(s, steps, limit) && After(s, steps) == s.(calls := s.calls[c := Scanning(who, SlotPool(limit), i)])
    decreases i - j
  {
    if j == i {
      steps := [];
      assert s.calls[c := Scanning(who, SlotPool(limit), i)] == s.calls;
    } else {
      assert Slot(j) in s.kv;
      One(s, Try(c), limit);
      var t := Apply(s, Try(c));
      assert t == s.(calls := s.calls[c := Scanning(who, SlotPool(limit), j + 1)]);
      var rest := ScansUp(t, c, who, limit, j + 1, i);
      Joined(s, [Try(c)], rest, limit);
      steps := [Try(c)] + rest;
      assert t.calls[c := Scanning(who, SlotPool(limit), i)] == s.calls[c := Scanning(who, SlotPool(limit), i)];
    }
  }

  function Admitted(s: Fleet, who: Who, i: nat): Fleet {
    s.(kv := s.kv[Slot(i) := Entry(who.run, s.next, s.now + SLOT_TTL_S)],
        holds := s.holds[who := Hold(Slot(i), s.next)],
       next := s.next + 1)
  }

  /** One more run is admitted, to the first free slot. */
  lemma Admits(s: Fleet, c: nat, who: Who, limit: nat, i: nat) returns (steps: seq<Step>)
    requires c !in s.calls && who !in s.holds && who.kind.Slots? && i < limit
    requires Slot(i) !in s.kv && forall k: nat :: k < i ==> Slot(k) in s.kv
    ensures Mild(s, steps, limit) && After(s, steps) == Admitted(s, who, i)
  {
    var ask := Acquire(c, who.w, who.run, SlotPool(limit));
    One(s, ask, limit);
    var asked := Apply(s, ask);
    var up := ScansUp(asked, c, who, limit, 0, i);
    Joined(s, [ask], up, limit);
    var there := After(asked, up);
    assert there == s.(calls := s.calls[c := Scanning(who, SlotPool(limit), i)]);
    var last := Takes(s, there, c, who, limit, i);
    Joined(s, [ask] + up, last, limit);
    steps := [ask] + up + last;
  }

  lemma Takes(s: Fleet, there: Fleet, c: nat, who: Who, limit: nat, i: nat) returns (steps: seq<Step>)
    requires c !in s.calls && there == s.(calls := s.calls[c := Scanning(who, SlotPool(limit), i)]) && i < limit
             && Slot(i) !in s.kv
    ensures Mild(there, steps, limit) && After(there, steps) == Admitted(s, who, i)
  {
    One(there, Try(c), limit);
    var won := Apply(there, Try(c));
    One(won, Note(c), limit);
    Joined(there, [Try(c)], [Note(c)], limit);
    steps := [Try(c)] + [Note(c)];
    assert won.calls - {c} == s.calls;
  }

  /** Slots below `i` are taken by new runs, and somebody else's ticket never expired. */
  ghost predicate FilledTo(s: Fleet, who: Who, w: Worker, i: nat) {
    && (forall key <- s.kv :: key.Slot? ==> key.i < i)
    && (forall k: nat :: k < i ==>
       Slot(k) in s.kv && NewWho(w, k) in s.holds && s.holds[NewWho(w, k)].ticket !in s.lapsed)
    && (forall other <- s.holds :: other.w < w + i) && (forall x <- s.lapsed :: x < s.next)
    && who in s.holds && who.w < w && who.kind.Slots? && s.holds[who].ticket !in s.lapsed
  }

  lemma FilledOneMore(s: Fleet, who: Who, w: Worker, i: nat)
    requires FilledTo(s, who, w, i)
    ensures FilledTo(Admitted(s, NewWho(w, i), i), who, w, i + 1)
  {
  }

  lemma {:induction false} Fills(s: Fleet, who: Who, w: Worker, c: nat, limit: nat, i: nat) returns (steps: seq<Step>)
    requires FilledTo(s, who, w, i) && i <= limit && c !in s.calls
    ensures Mild(s, steps, limit) && FilledTo(After(s, steps), who, w, limit)
    decreases limit - i
  {
    if i == limit { return []; }
    var first := Admits(s, c, NewWho(w, i), limit, i);
    FilledOneMore(s, who, w, i);
    var rest := Fills(After(s, first), who, w, c, limit, i + 1);
    Joined(s, first, rest, limit);
    steps := first + rest;
  }

  function News(w: Worker, n: nat): (r: set<Who>)
    ensures |r| == n && forall who <- r :: w <= who.w < w + n
  {
    if n == 0 then {} else News(w, n - 1) + {NewWho(w, n - 1)}
  }

  lemma {:induction false} NewsIn(w: Worker, n: nat, all: set<Who>)
    requires forall k: nat :: k < n ==> NewWho(w, k) in all
    ensures News(w, n) <= all
  {
    if n > 0 { NewsIn(w, n - 1, all); }
  }

  lemma OneTooMany(s: Fleet, who: Who, w: Worker, limit: nat)
    requires FilledTo(s, who, w, limit)
    ensures |Unlapsed(s)| > limit
  {
    NewsIn(w, limit, Unlapsed(s));
    assert who !in News(w, limit);
    SubsetSize(News(w, limit) + {who}, Unlapsed(s));
  }

  lemma NewWorkers(s: Fleet) returns (w: Worker)
    ensures forall other <- s.holds :: other.w < w
  {
    var all := set other | other in s.holds :: other.w;
    w := Above(all);
    forall other | other in s.holds ensures other.w < w { assert other.w in all; }
  }

  lemma Latest(s: Fleet) returns (until: nat)
    ensures forall key <- s.kv :: s.kv[key].until <= until
  {
    var all := set key | key in s.kv :: s.kv[key].until;
    until := Above(all);
    forall key | key in s.kv ensures s.kv[key].until <= until { assert s.kv[key].until in all; }
  }

  lemma Empties(s: Fleet, ticket: nat, limit: nat) returns (steps: seq<Step>)
    requires (forall key <- s.kv :: s.kv[key].ticket < s.next) && ticket !in s.lapsed && Absent(s.kv, ticket)
    requires forall x <- s.lapsed :: x < s.next
    ensures Mild(s, steps, limit)
    ensures var t := After(s, steps);
            NoSlots(t.kv) && t.holds == s.holds && t.calls == s.calls && ticket !in t.lapsed
                && forall x <- t.lapsed :: x < t.next
  {
    var until := Latest(s);
    One(s, Pass(until), limit);
    var late := Apply(s, Pass(until));
    var lapses := LapseAll(late, ticket, limit);
    Joined(s, [Pass(until)], lapses, limit);
    steps := [Pass(until)] + lapses;
  }

  /** A run that lost its slot without its expiring stays admitted while the slots fill again: one too many. */
  lemma Overfills(s: Fleet, who: Who, limit: nat) returns (steps: seq<Step>)
    requires who in s.holds && who.kind.Slots? && s.holds[who].ticket !in s.lapsed && Absent(s.kv, s.holds[who].ticket)
    requires (forall key <- s.kv :: s.kv[key].ticket < s.next) && forall x <- s.lapsed :: x < s.next
    ensures Mild(s, steps, limit) && |Unlapsed(After(s, steps))| > limit
  {
    var lapses := Empties(s, s.holds[who].ticket, limit);
    var free := After(s, lapses);
    var w := NewWorkers(s);
    var c := Above(s.calls.Keys);
    var fills := Fills(free, who, w, c, limit, 0);
    Joined(s, lapses, fills, limit);
    steps := lapses + fills;
    OneTooMany(After(free, fills), who, w, limit);
  }

  /** The same for a run whose slot was granted and taken away before its worker noted it. */
  lemma OverfillsWon(s: Fleet, d: nat, limit: nat) returns (steps: seq<Step>)
    requires d in s.calls && s.calls[d].Won? && s.calls[d].who.kind.Slots?
    requires s.calls[d].hold.ticket !in s.lapsed && Absent(s.kv, s.calls[d].hold.ticket)
    requires (forall key <- s.kv :: s.kv[key].ticket < s.next) && forall x <- s.lapsed :: x < s.next
    ensures Mild(s, steps, limit) && |Unlapsed(After(s, steps))| > limit
  {
    One(s, Note(d), limit);
    var noted := Apply(s, Note(d));
    var rest := Overfills(noted, s.calls[d].who, limit);
    Joined(s, [Note(d)], rest, limit);
    steps := [Note(d)] + rest;
  }

  lemma EvictedAbsent(s: Fleet, c: nat, ticket: nat)
    requires Safe(s) && Enabled(s, Delete(c, true)) && ticket !in s.evicted && ticket in DeleteStep(s, c, true).evicted
    ensures Absent(DeleteStep(s, c, true).kv, ticket)
  {
  }

  lemma HeldOverfills(s: Fleet, c: nat, who: Who, limit: nat) returns (steps: seq<Step>)
    requires Sound(s) && Enabled(s, Delete(c, true)) && s.calls[c].hold.key.Slot? && who in s.holds
             && Live(s, s.holds[who])
    requires who.run == s.calls[c].who.run && s.holds[who].key == s.calls[c].hold.key
    ensures Mild(DeleteStep(s, c, true), steps, limit) && |Unlapsed(After(DeleteStep(s, c, true), steps))| > limit
  {
    StepSafe(s, Delete(c, true));
    EvictedPast(s, Delete(c, true));
    HeldTaken(s, c, who);
    assert Kept(s, who, s.holds[who]);
    EvictedAbsent(s, c, s.holds[who].ticket);
    steps := Overfills(DeleteStep(s, c, true), who, limit);
  }

  lemma WonOverfills(s: Fleet, c: nat, d: nat, limit: nat) returns (steps: seq<Step>)
    requires Sound(s) && Enabled(s, Delete(c, true)) && s.calls[c].hold.key.Slot?
    requires d in s.calls && s.calls[d].Won? && Live(s, s.calls[d].hold)
    requires s.calls[d].who.run == s.calls[c].who.run && s.calls[d].hold.key == s.calls[c].hold.key
    ensures Mild(DeleteStep(s, c, true), steps, limit) && |Unlapsed(After(DeleteStep(s, c, true), steps))| > limit
  {
    StepSafe(s, Delete(c, true));
    EvictedPast(s, Delete(c, true));
    WonTaken(s, c, d);
    assert Kept(s, s.calls[d].who, s.calls[d].hold);
    EvictedAbsent(s, c, s.calls[d].hold.ticket);
    steps := OverfillsWon(DeleteStep(s, c, true), d, limit);
  }

  lemma LostOverfills(s: Fleet, c: nat, limit: nat) returns (steps: seq<Step>)
    requires Sound(s) && Enabled(s, Delete(c, true)) && s.calls[c].hold.key.Slot?
    requires Standing(s, s.calls[c].who.run, s.calls[c].hold.key)
    ensures Mild(DeleteStep(s, c, true), steps, limit) && |Unlapsed(After(DeleteStep(s, c, true), steps))| > limit
  {
    var run, key := s.calls[c].who.run, s.calls[c].hold.key;
    if who :| who in s.holds && who.run == run && s.holds[who].key == key && Live(s, s.holds[who]) {
      steps := HeldOverfills(s, c, who, limit);
    } else {
      var d :| d in s.calls && s.calls[d].Won? && s.calls[d].who.run == run && s.calls[d].hold.key == key
          && Live(s, s.calls[d].hold);
      steps := WonOverfills(s, c, d, limit);
    }
  }

  /**
   A delete of a slot leaves the ceiling standing on everyone whose slot never expired, in every continuation whose own
   deletes are sparing, if and only if no live acquisition of the same run, admitted or granted, stands under that slot.
   */
  lemma CeilingKeptIff(s: Fleet, c: nat, limit: nat)
    requires Sound(s) && SlotsBelow(s, limit) && Enabled(s, Delete(c, true)) && s.calls[c].hold.key.Slot?
    ensures var t := Apply(s, Delete(c, true));
            (forall steps :: Possible(t, steps) && AllCapped(limit, steps) && AllSparing(t, steps) ==>
                |Unlapsed(After(t, steps))| <= limit)
            <==> !Standing(s, s.calls[c].who.run, s.calls[c].hold.key)
  {
    var t := Apply(s, Delete(c, true));
    if Standing(s, s.calls[c].who.run, s.calls[c].hold.key) {
      var steps := LostOverfills(s, c, limit);
      MildIsSparing(t, steps, limit);
    } else {
      SoundStep(s, Delete(c, true));
      BelowStep(s, Delete(c, true), limit);
      forall steps | Possible(t, steps) && AllCapped(limit, steps) && AllSparing(t, steps)
        ensures |Unlapsed(After(t, steps))| <= limit {
        SoundRun(t, steps);
        RunBelow(t, steps, limit);
        SoundFits(After(t, steps), limit);
      }
    }
  }
}
