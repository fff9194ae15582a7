/** What the fleet's ceilings guarantee over every interleaving, crash and expiry. */
module AdmissionTheorems {
  import opened AdmissionSteps
  import opened Sets

  predicate HasHold(c: Call) {
    c.Won? || c.Releasing?
  }

  predicate RightKey(kind: Kind, key: Key) {
    if kind.Slots? then key.Slot? else key.RepoLock?
  }

  /** An acquisition is still in the store, or its ticket was lost. */
  predicate Kept(s: Fleet, who: Who, h: Hold) {
    && h.ticket < s.next && RightKey(who.kind, h.key)
    && (h.ticket in s.lapsed || h.ticket in s.evicted || (Matches(s, h.key, who.run) && s.kv[h.key].ticket == h.ticket))
  }

  ghost predicate AllKept(s: Fleet) {
    && (forall who <- s.holds :: Kept(s, who, s.holds[who]))
    && (forall c <- s.calls :: HasHold(s.calls[c]) ==> Kept(s, s.calls[c].who, s.calls[c].hold))
    && (forall c <- s.calls :: s.calls[c].Scanning? ==> s.calls[c].who.kind == KindOf(s.calls[c].pool))
    && (forall key <- s.kv :: s.kv[key].ticket < s.next)
  }

  ghost predicate Distinct(s: Fleet) {
    && (forall a <- s.holds, b <- s.holds :: s.holds[a].ticket == s.holds[b].ticket ==> a == b)
    && (forall c <- s.calls, d <- s.calls ::
          HasHold(s.calls[c]) && HasHold(s.calls[d]) && s.calls[c].hold.ticket == s.calls[d].hold.ticket ==> c == d)
    && (forall a <- s.holds, c <- s.calls :: HasHold(s.calls[c]) ==> s.holds[a].ticket != s.calls[c].hold.ticket)
  }

  ghost predicate OneKeyEach(kv: map<Key, Entry>) {
    forall k <- kv, l <- kv :: kv[k].ticket == kv[l].ticket ==> k == l
  }

  ghost predicate Safe(s: Fleet) {
    AllKept(s) && Distinct(s) && OneKeyEach(s.kv)
  }

  /** A new entry under a fresh ticket disturbs no acquisition. */
  lemma AddedSafe(s: Fleet, key: Key, e: Entry)
    requires Safe(s) && key !in s.kv && e.ticket == s.next
    ensures Safe(s.(kv := s.kv[key := e], next := s.next + 1))
  {
  }

  lemma WinSafe(s: Fleet, c: nat, call: Call, ticket: nat)
    requires Safe(s) && c in s.calls && !HasHold(s.calls[c]) && ticket < s.next && call.Won?
             && call.hold.ticket == ticket
    requires Kept(s, call.who, call.hold)
    requires forall who <- s.holds :: s.holds[who].ticket != ticket
    requires forall d <- s.calls :: HasHold(s.calls[d]) ==> s.calls[d].hold.ticket != ticket
    ensures Safe(s.(calls := s.calls[c := call]))
  {
  }

  predicate PlainCall(call: Call) {
    !HasHold(call) && (call.Scanning? ==> call.who.kind == KindOf(call.pool))
  }

  /** A step that claims and gives up nothing: calls without a hold come and go, at most one fresh key appears. */
  lemma NothingClaimed(s: Fleet, t: Fleet, key: Key, e: Entry)
    requires Safe(s) && t.holds == s.holds && t.lapsed == s.lapsed && t.evicted == s.evicted
    requires (t.kv == s.kv && t.next == s.next)
             || (key !in s.kv && t.next == s.next + 1 && t.kv == s.kv[key := e] && e.ticket == s.next)
    requires forall c <- t.calls :: PlainCall(t.calls[c]) || (c in s.calls && s.calls[c] == t.calls[c])
    ensures Safe(t)
  {
  }

  lemma TryWinSafe(s: Fleet, c: nat)
    requires Safe(s) && Enabled(s, Try(c)) && KeyAt(s.calls[c].pool, s.calls[c].at) !in s.kv
    ensures Safe(TryStep(s, c))
  {
    var call := s.calls[c];
    var key := KeyAt(call.pool, call.at);
    var e := Entry(call.who.run, s.next, s.now + SLOT_TTL_S);
    AddedSafe(s, key, e);
    var t := s.(kv := s.kv[key := e], next := s.next + 1);
    WinSafe(t, c, Won(call.who, Hold(key, s.next)), s.next);
    assert TryStep(s, c) == t.(calls := t.calls[c := Won(call.who, Hold(key, s.next))]);
  }

  lemma TrySafe(s: Fleet, c: nat)
    requires Safe(s) && Enabled(s, Try(c))
    ensures Safe(TryStep(s, c))
  {
    var call := s.calls[c];
    if KeyAt(call.pool, call.at) !in s.kv {
      TryWinSafe(s, c);
    } else {
      NothingClaimed(s, TryStep(s, c), KeyAt(call.pool, call.at), MarkerEntry(s));
    }
  }

  lemma NoteSafe(s: Fleet, c: nat)
    requires Safe(s) && Enabled(s, Note(c))
    ensures Safe(NoteStep(s, c))
  {
  }

  lemma ForgetSafe(s: Fleet, c: nat, who: Who)
    requires Safe(s) && Enabled(s, Forget(c, who))
    ensures Safe(ForgetStep(s, c, who))
  {
  }

  lemma DeleteSafe(s: Fleet, c: nat, reaches: bool)
    requires Safe(s) && Enabled(s, Delete(c, reaches))
    ensures Safe(DeleteStep(s, c, reaches))
  {
  }

  function MarkerEntry(s: Fleet): Entry {
    Entry("1", s.next, s.now + LAUNCH_TTL_S)
  }

  /** A launch attempt sets at most its own marker and changes only its own call. */
  lemma LaunchShape(s: Fleet, c: nat) returns (call: Call)
    requires Enabled(s, TryLaunch(c))
    ensures var t := TryLaunchStep(s, c); var key := Marker(s.calls[c].day, s.calls[c].source, s.calls[c].mark);
            && t.holds == s.holds && t.lapsed == s.lapsed && t.evicted == s.evicted
            && ((t.kv == s.kv && t.next == s.next)
                || (key !in s.kv && t.next == s.next + 1 && t.kv == s.kv[key := MarkerEntry(s)]))
            && !HasHold(call) && !call.Scanning? && (t.calls == s.calls - {c} || t.calls == s.calls[c := call])
  {
    var before := s.calls[c];
    call := if !before.again && before.mark >= before.limit then before.(mark := 0, again := true)
            else if Marker(before.day, before.source, before.mark) in s.kv then before.(mark := before.mark + 1)
            else Counted(before.w, before.day, before.source, before.mark);
  }

  lemma LaunchSafe(s: Fleet, c: nat)
    requires Safe(s) && Enabled(s, TryLaunch(c))
    ensures Safe(TryLaunchStep(s, c))
  {
    var call := LaunchShape(s, c);
    NothingClaimed(s, TryLaunchStep(s, c), Marker(s.calls[c].day, s.calls[c].source, s.calls[c].mark), MarkerEntry(s));
  }

  lemma LapseSafe(s: Fleet, key: Key)
    requires Safe(s) && Enabled(s, Lapse(key))
    ensures Safe(Apply(s, Lapse(key)))
  {
  }

  lemma CrashSafe(s: Fleet, w: Worker)
    requires Safe(s)
    ensures Safe(CrashStep(s, w))
  {
  }

  lemma RenewSafe(s: Fleet, who: Who)
    requires Safe(s) && Enabled(s, Renew(who))
    ensures Safe(RenewStep(s, who))
  {
  }

  lemma AskedSafe(s: Fleet, step: Step)
    requires Safe(s) && Enabled(s, step) && (step.Acquire? || step.Pass? || step.AskLaunch? || step.NoteLaunch?)
    ensures Safe(Apply(s, step))
  {
    NothingClaimed(s, Apply(s, step), Slot(0), MarkerEntry(s));
  }

  lemma StepSafe(s: Fleet, step: Step)
    requires Safe(s) && Enabled(s, step)
    ensures Safe(Apply(s, step))
  {
    match step
    case Try(c) => TrySafe(s, c);
    case Note(c) => NoteSafe(s, c);
    case Forget(c, who) => ForgetSafe(s, c, who);
    case Delete(c, reaches) => DeleteSafe(s, c, reaches);
    case TryLaunch(c) => LaunchSafe(s, c);
    case Lapse(key) => LapseSafe(s, key);
    case Crash(w) => CrashSafe(s, w);
    case Renew(who) => RenewSafe(s, who);
    case _ => AskedSafe(s, step);
  }

  lemma {:induction false} RunSafe(s: Fleet, steps: seq<Step>)
    requires Safe(s) && Possible(s, steps)
    ensures Safe(After(s, steps))
    decreases |steps|
  {
    if steps != [] {
      StepSafe(s, steps[0]);
      RunSafe(Apply(s, steps[0]), steps[1..]);
    }
  }

  // ---------------------------------------------------------------- the ceiling

  /** Every slot acquisition is asked for with a ceiling of at most `limit`. */
  predicate Capped(limit: nat, step: Step) {
    step.Acquire? && step.pool.SlotPool? ==> step.pool.limit <= limit
  }

  ghost predicate AllCapped(limit: nat, steps: seq<Step>) {
    forall step <- steps :: Capped(limit, step)
  }

  predicate Below(limit: nat, key: Key) {
    key.Slot? ==> key.i < limit
  }

  ghost predicate SlotsBelow(s: Fleet, limit: nat) {
    && (forall key <- s.kv :: Below(limit, key))
    && (forall c <- s.calls :: s.calls[c].Scanning? && s.calls[c].pool.SlotPool? ==> s.calls[c].pool.limit <= limit)
  }

  lemma BelowStep(s: Fleet, step: Step, limit: nat)
    requires SlotsBelow(s, limit) && Enabled(s, step) && Capped(limit, step)
    ensures SlotsBelow(Apply(s, step), limit)
  {
  }

  lemma {:induction false} RunBelow(s: Fleet, steps: seq<Step>, limit: nat)
    requires SlotsBelow(s, limit) && Possible(s, steps) && AllCapped(limit, steps)
    ensures SlotsBelow(After(s, steps), limit)
    decreases |steps|
  {
    if steps != [] {
      BelowStep(s, steps[0], limit);
      RunBelow(Apply(s, steps[0]), steps[1..], limit);
    }
  }

  /** Admitted, not released, and its key neither expired nor taken away. */
  predicate InForce(s: Fleet, who: Who) {
    who in s.holds && s.holds[who].ticket !in s.lapsed && s.holds[who].ticket !in s.evicted
  }

  function Holders(s: Fleet): set<Who> {
    set who | who in s.holds && who.kind.Slots? && InForce(s, who)
  }

  function Numbers(n: nat): (r: set<nat>)
    ensures |r| == n && forall i :: i in r <==> 0 <= i < n
  {
    if n == 0 then {} else Numbers(n - 1) + {n - 1}
  }

  /** As many things as they have distinct numbers below the limit. */
  lemma {:induction false} Pigeons(s: Fleet, whos: set<Who>, free: set<nat>)
    requires Distinct(s) && AllKept(s)
    requires forall who <- whos :: InForce(s, who) && s.holds[who].key.Slot? && s.holds[who].key.i in free
    ensures |whos| <= |free|
    decreases |whos|
  {
    if whos != {} {
      var who :| who in whos;
      var i := s.holds[who].key.i;
      forall other | other in whos - {who} ensures s.holds[other].key.i in free - {i} {
        assert Kept(s, who, s.holds[who]) && Kept(s, other, s.holds[other]);
      }
      Pigeons(s, whos - {who}, free - {i});
    }
  }

  lemma HoldersFit(s: Fleet, limit: nat)
    requires Safe(s) && SlotsBelow(s, limit)
    ensures |Holders(s)| <= limit
  {
    forall who | who in Holders(s) ensures s.holds[who].key.Slot? && s.holds[who].key.i in Numbers(limit) {
      assert Kept(s, who, s.holds[who]);
      assert Below(limit, s.holds[who].key);
    }
    Pigeons(s, Holders(s), Numbers(limit));
  }

  /** However workers interleave, crash and expire, at most `limit` runs hold a slot that is still theirs. */
  lemma AtMostLimit(steps: seq<Step>, limit: nat)
    requires Possible(Empty, steps) && AllCapped(limit, steps)
    ensures |Holders(After(Empty, steps))| <= limit
  {
    RunSafe(Empty, steps);
    RunBelow(Empty, steps, limit);
    HoldersFit(After(Empty, steps), limit);
  }

  /** One repository's lock is in force for at most one run. */
  lemma OneRunPerRepo(steps: seq<Step>, a: Who, b: Who)
    requires Possible(Empty, steps)
    requires var s := After(Empty, steps); InForce(s, a) && InForce(s, b) && s.holds[a].key == s.holds[b].key
    ensures a == b
  {
    RunSafe(Empty, steps);
    var s := After(Empty, steps);
    assert Kept(s, a, s.holds[a]) && Kept(s, b, s.holds[b]);
  }

  // ---------------------------------------------------------------- stale deletes and renewals

  /**
   In every reachable fleet, no delete or renewal by a run ends or extends another run's acquisition that is in force.
   */
  lemma OtherRunsUntouched(steps: seq<Step>, step: Step, who: Who)
    requires Possible(Empty, steps) && Enabled(After(Empty, steps), step) && (step.Delete? || step.Renew?)
    requires var s := After(Empty, steps);
             InForce(s, who) && who.run != (if step.Delete? then s.calls[step.c].who.run else step.who.run)
    ensures var s := After(Empty, steps); var t := Apply(s, step); var key := s.holds[who].key;
            && InForce(t, who) && t.holds[who] == s.holds[who]
            && key in s.kv && key in t.kv && t.kv[key] == s.kv[key]
  {
    RunSafe(Empty, steps);
    var s := After(Empty, steps);
    assert Kept(s, who, s.holds[who]);
    if step.Delete? && Matches(s, s.calls[step.c].hold.key, s.calls[step.c].who.run) {
      assert s.calls[step.c].hold.key != s.holds[who].key;
    }
  }

  /** Neither expired nor taken away. */
  predicate Live(s: Fleet, h: Hold) {
    h.ticket !in s.lapsed && h.ticket !in s.evicted
  }

  /** A live acquisition of the run under the key: admitted, or granted by the store and not yet noted by its worker. */
  ghost predicate Standing(s: Fleet, run: Run, key: Key) {
    || (exists who <- s.holds :: who.run == run && s.holds[who].key == key && Live(s, s.holds[who]))
    || (exists d <- s.calls :: s.calls[d].Won? && s.calls[d].who.run == run && s.calls[d].hold.key == key
                               && Live(s, s.calls[d].hold))
  }

  /** Some live acquisition, admitted or granted, is live no more. */
  ghost predicate Taken(s: Fleet, t: Fleet) {
    || (exists who <- s.holds :: who in t.holds && Live(s, s.holds[who]) && !Live(t, s.holds[who]))
    || (exists d <- s.calls :: s.calls[d].Won? && d in t.calls && Live(s, s.calls[d].hold) && !Live(t, s.calls[d].hold))
  }

  lemma HeldTaken(s: Fleet, c: nat, who: Who)
    requires Safe(s) && Enabled(s, Delete(c, true)) && who in s.holds && Live(s, s.holds[who])
    ensures !Live(Apply(s, Delete(c, true)), s.holds[who])
            <==> who.run == s.calls[c].who.run && s.holds[who].key == s.calls[c].hold.key
  {
    assert Kept(s, who, s.holds[who]);
  }

  lemma WonTaken(s: Fleet, c: nat, d: nat)
    requires Safe(s) && Enabled(s, Delete(c, true)) && d in s.calls && s.calls[d].Won? && Live(s, s.calls[d].hold)
    ensures !Live(Apply(s, Delete(c, true)), s.calls[d].hold)
            <==> s.calls[d].who.run == s.calls[c].who.run && s.calls[d].hold.key == s.calls[c].hold.key
    ensures d != c
  {
    assert Kept(s, s.calls[d].who, s.calls[d].hold);
  }

  /**
   A delete takes away another live acquisition, admitted or still on its way to be noted, if and only if the same run
   has since been granted the same key again.
   */
  lemma EvictsIff(s: Fleet, c: nat)
    requires Safe(s) && Enabled(s, Delete(c, true))
    ensures Taken(s, Apply(s, Delete(c, true))) <==> Standing(s, s.calls[c].who.run, s.calls[c].hold.key)
  {
    var t := Apply(s, Delete(c, true));
    forall who | who in s.holds && Live(s, s.holds[who])
      ensures !Live(t, s.holds[who]) <==> who.run == s.calls[c].who.run && s.holds[who].key == s.calls[c].hold.key
    {
      HeldTaken(s, c, who);
    }
    forall d | d in s.calls && s.calls[d].Won? && Live(s, s.calls[d].hold)
      ensures d in t.calls
      ensures !Live(t, s.calls[d].hold)
              <==> s.calls[d].who.run == s.calls[c].who.run && s.calls[d].hold.key == s.calls[c].hold.key
    {
      WonTaken(s, c, d);
    }
  }

  // ---------------------------------------------------------------- runs leased to one worker at a time

  predicate ForRun(c: Call) {
    c.Scanning? || HasHold(c)
  }

  predicate SameRun(a: Who, b: Who) {
    a.kind == b.kind && a.run == b.run
  }

  /** The queue's lease: a run is admitted only while nobody holds, seeks or is giving back a place for it. */
  ghost predicate Leased(s: Fleet, step: Step) {
    step.Acquire? ==>
      var who := Who(step.w, KindOf(step.pool), step.run);
      && (forall a <- s.holds :: !SameRun(a, who))
      && (forall c <- s.calls :: ForRun(s.calls[c]) ==> !SameRun(s.calls[c].who, who))
  }

  ghost predicate AllLeased(s: Fleet, steps: seq<Step>)
    requires Possible(s, steps)
    decreases |steps|
  {
    steps == [] || (Leased(s, steps[0]) && AllLeased(Apply(s, steps[0]), steps[1..]))
  }

  ghost predicate Sole(s: Fleet) {
    && (forall a <- s.holds, b <- s.holds :: SameRun(a, b) ==> a == b)
    && (forall c <- s.calls, d <- s.calls ::
          ForRun(s.calls[c]) && ForRun(s.calls[d]) && SameRun(s.calls[c].who, s.calls[d].who) ==> c == d)
    && (forall a <- s.holds, c <- s.calls :: ForRun(s.calls[c]) ==> !SameRun(a, s.calls[c].who))
  }

  /** No entry of the run is newer than its claim, and its key's entry is not older. */
  ghost predicate Newest(kv: map<Key, Entry>, who: Who, h: Hold) {
    && (h.key in kv ==> kv[h.key].ticket >= h.ticket)
    && (forall k <- kv :: RightKey(who.kind, k) && kv[k].value == who.run ==> kv[k].ticket <= h.ticket)
  }

  ghost predicate AllNewest(s: Fleet) {
    && (forall a <- s.holds :: Newest(s.kv, a, s.holds[a]))
    && (forall c <- s.calls :: HasHold(s.calls[c]) ==> Newest(s.kv, s.calls[c].who, s.calls[c].hold))
  }

  lemma SoleAcquire(s: Fleet, step: Step)
    requires Sole(s) && Enabled(s, step) && Leased(s, step) && step.Acquire?
    ensures Sole(Apply(s, step))
  {
  }

  lemma SoleNote(s: Fleet, c: nat)
    requires Sole(s) && Enabled(s, Note(c))
    ensures Sole(NoteStep(s, c))
  {
  }

  lemma SoleForget(s: Fleet, c: nat, who: Who)
    requires Sole(s) && Enabled(s, Forget(c, who))
    ensures Sole(ForgetStep(s, c, who))
  {
  }

  /** Calls only go, or go on for the same run. */
  lemma SoleFewer(s: Fleet, t: Fleet)
    requires Sole(s) && t.holds == s.holds
    requires forall c <- t.calls :: ForRun(t.calls[c]) ==>
             c in s.calls && ForRun(s.calls[c]) && s.calls[c].who == t.calls[c].who
    ensures Sole(t)
  {
  }

  lemma SoleCrash(s: Fleet, w: Worker)
    requires Sole(s)
    ensures Sole(CrashStep(s, w))
  {
  }

  lemma FewerCalls(s: Fleet, step: Step)
    requires Enabled(s, step) && !step.Acquire? && !step.Note? && !step.Forget? && !step.Crash?
    ensures var t := Apply(s, step);
            t.holds == s.holds
            && forall c <- t.calls :: ForRun(t.calls[c]) ==>
               c in s.calls && ForRun(s.calls[c]) && s.calls[c].who == t.calls[c].who
  {
    if step.TryLaunch? { var call := LaunchShape(s, step.c); }
  }

  lemma SoleStep(s: Fleet, step: Step)
    requires Sole(s) && Enabled(s, step) && Leased(s, step)
    ensures Sole(Apply(s, step))
  {
    match step
    case Acquire(c, w, run, pool) => SoleAcquire(s, step);
    case Note(c) => SoleNote(s, c);
    case Forget(c, who) => SoleForget(s, c, who);
    case Crash(w) => SoleCrash(s, w);
    case _ =>
      FewerCalls(s, step);
      SoleFewer(s, Apply(s, step));
  }

  lemma NewestAdded(s: Fleet, who: Who, h: Hold, key: Key, e: Entry)
    requires Newest(s.kv, who, h) && key !in s.kv && e.ticket == s.next && h.ticket < s.next
    requires RightKey(who.kind, key) ==> e.value != who.run
    ensures Newest(s.kv[key := e], who, h)
  {
  }

  /** A fresh entry keeps every claim newest that is not for the entry's own run. */
  lemma NewestGrow(s: Fleet, key: Key, e: Entry)
    requires AllKept(s) && AllNewest(s) && key !in s.kv && e.ticket == s.next
    requires forall a <- s.holds :: RightKey(a.kind, key) ==> a.run != e.value
    requires forall c <- s.calls :: HasHold(s.calls[c]) && RightKey(s.calls[c].who.kind, key) ==>
             s.calls[c].who.run != e.value
    ensures AllNewest(s.(kv := s.kv[key := e], next := s.next + 1))
  {
    forall a | a in s.holds ensures Newest(s.kv[key := e], a, s.holds[a]) {
      NewestAdded(s, a, s.holds[a], key, e);
    }
    forall d | d in s.calls && HasHold(s.calls[d]) ensures Newest(s.kv[key := e], s.calls[d].who, s.calls[d].hold) {
      NewestAdded(s, s.calls[d].who, s.calls[d].hold, key, e);
    }
  }

  lemma NewestWon(s: Fleet, c: nat, call: Call)
    requires AllNewest(s) && c in s.calls && (HasHold(call) ==> Newest(s.kv, call.who, call.hold))
    ensures AllNewest(s.(calls := s.calls[c := call]))
  {
  }

  lemma NewestWin(s: Fleet, c: nat)
    requires AllKept(s) && Sole(s) && AllNewest(s) && Enabled(s, Try(c))
             && KeyAt(s.calls[c].pool, s.calls[c].at) !in s.kv
    ensures AllNewest(TryStep(s, c))
  {
    var call := s.calls[c];
    var key := KeyAt(call.pool, call.at);
    var e := Entry(call.who.run, s.next, s.now + SLOT_TTL_S);
    var t := s.(kv := s.kv[key := e], next := s.next + 1);
    NewestGrow(s, key, e);
    NewestWon(t, c, Won(call.who, Hold(key, s.next)));
    assert TryStep(s, c) == t.(calls := t.calls[c := Won(call.who, Hold(key, s.next))]);
  }

  lemma NewestLaunch(s: Fleet, c: nat)
    requires Safe(s) && AllNewest(s) && Enabled(s, TryLaunch(c))
    ensures AllNewest(TryLaunchStep(s, c))
  {
    var call := LaunchShape(s, c);
    var key := Marker(s.calls[c].day, s.calls[c].source, s.calls[c].mark);
    if TryLaunchStep(s, c).kv != s.kv { NewestGrow(s, key, MarkerEntry(s)); }
  }

  lemma NewestOther(s: Fleet, step: Step)
    requires AllNewest(s) && Enabled(s, step) && !step.Try? && !step.TryLaunch?
    ensures AllNewest(Apply(s, step))
  {
  }

  lemma NewestStep(s: Fleet, step: Step)
    requires Safe(s) && Sole(s) && AllNewest(s) && Enabled(s, step)
    ensures AllNewest(Apply(s, step))
  {
    match step
    case Try(c) =>
      if KeyAt(s.calls[c].pool, s.calls[c].at) !in s.kv { NewestWin(s, c); }
    case TryLaunch(c) => NewestLaunch(s, c);
    case _ => NewestOther(s, step);
  }

  lemma DeleteEvictsNothing(s: Fleet, c: nat, reaches: bool)
    requires Safe(s) && AllNewest(s) && Enabled(s, Delete(c, reaches))
    ensures Apply(s, Delete(c, reaches)).evicted == s.evicted
  {
    var call := s.calls[c];
    assert Kept(s, call.who, call.hold) && Newest(s.kv, call.who, call.hold);
  }

  lemma NothingEvicted(s: Fleet, step: Step)
    requires Safe(s) && AllNewest(s) && Enabled(s, step)
    ensures Apply(s, step).evicted == s.evicted
  {
    if step.Delete? { DeleteEvictsNothing(s, step.c, step.reaches); }
  }

  lemma {:induction false} RunLeased(s: Fleet, steps: seq<Step>)
    requires Safe(s) && Sole(s) && AllNewest(s) && Possible(s, steps) && AllLeased(s, steps)
    ensures After(s, steps).evicted == s.evicted
    decreases |steps|
  {
    if steps != [] {
      NothingEvicted(s, steps[0]);
      StepSafe(s, steps[0]);
      SoleStep(s, steps[0]);
      NewestStep(s, steps[0]);
      RunLeased(Apply(s, steps[0]), steps[1..]);
    }
  }

  /** Runs still admitted whose slot never outlived its TTL, counted without looking at the store. */
  function Unlapsed(s: Fleet): set<Who> {
    set who | who in s.holds && who.kind.Slots? && s.holds[who].ticket !in s.lapsed
  }

  /** With leased runs no release or retry takes a slot away, so the ceiling holds for everyone who keeps renewing. */
  lemma LeasedCeiling(steps: seq<Step>, limit: nat)
    requires Possible(Empty, steps) && AllCapped(limit, steps) && AllLeased(Empty, steps)
    ensures After(Empty, steps).evicted == {} && |Unlapsed(After(Empty, steps))| <= limit
  {
    RunLeased(Empty, steps);
    AtMostLimit(steps, limit);
    assert Unlapsed(After(Empty, steps)) == Holders(After(Empty, steps));
  }

  lemma {:induction false} Extend(s: Fleet, steps: seq<Step>, step: Step)
    requires Possible(s, steps) && Enabled(After(s, steps), step)
    ensures Possible(s, steps + [step]) && After(s, steps + [step]) == Apply(After(s, steps), step)
    decreases |steps|
  {
    if steps == [] {
      assert steps + [step] == [step] && [step][1..] == [];
    } else {
      Extend(Apply(s, steps[0]), steps[1..], step);
      assert (steps + [step])[1..] == steps[1..] + [step];
    }
  }

  function HeldBy(t: Fleet, w: Worker, run: Run): Fleet {
    t.(kv := t.kv[Slot(0) := Entry(run, t.next, t.now + SLOT_TTL_S)],
       holds := t.holds[Who(w, Slots, run) := Hold(Slot(0), t.next)], next := t.next + 1)
  }

  function HoldSteps(c: nat, w: Worker, run: Run): seq<Step> {
    [Acquire(c, w, run, SlotPool(1)), Try(c), Note(c)]
  }

  lemma HoldPossible(t: Fleet, c: nat, w: Worker, run: Run)
    requires c !in t.calls && Who(w, Slots, run) !in t.holds && Slot(0) !in t.kv
    ensures Enabled(t, Acquire(c, w, run, SlotPool(1)))
    ensures var u := Apply(t, Acquire(c, w, run, SlotPool(1)));
            Enabled(u, Try(c)) && Enabled(Apply(u, Try(c)), Note(c))
                && Apply(Apply(u, Try(c)), Note(c)) == HeldBy(t, w, run)
  {
    assert t.calls[c := Won(Who(w, Slots, run), Hold(Slot(0), t.next))] - {c} == t.calls;
  }

  lemma Held(s: Fleet, steps: seq<Step>, c: nat, w: Worker, run: Run)
    requires Possible(s, steps)
    requires var t := After(s, steps); c !in t.calls && Who(w, Slots, run) !in t.holds && Slot(0) !in t.kv
    ensures Possible(s, steps + HoldSteps(c, w, run))
            && After(s, steps + HoldSteps(c, w, run)) == HeldBy(After(s, steps), w, run)
  {
    var t := After(s, steps);
    HoldPossible(t, c, w, run);
    var ask := Acquire(c, w, run, SlotPool(1));
    Extend(s, steps, ask);
    Extend(s, steps + [ask], Try(c));
    Extend(s, steps + [ask] + [Try(c)], Note(c));
    assert steps + [ask] + [Try(c)] + [Note(c)] == steps + HoldSteps(c, w, run);
  }

  /** One worker lets its slot for "r" expire; another takes the same run up in the same slot. */
  lemma SharedRun() returns (steps: seq<Step>)
    ensures Possible(Empty, steps) && AllCapped(1, steps)
    ensures After(Empty, steps)
            == Empty.(now := 300, kv := map[Slot(0) := Entry("r", 1, 600)], next := 2, lapsed := {0},
              holds := map[Who(1, Slots, "r") := Hold(Slot(0), 0), Who(2, Slots, "r") := Hold(Slot(0), 1)])
  {
    Held(Empty, [], 0, 1, "r"); steps := [] + HoldSteps(0, 1, "r");
    Extend(Empty, steps, Pass(300)); steps := steps + [Pass(300)];
    Extend(Empty, steps, Lapse(Slot(0))); steps := steps + [Lapse(Slot(0))];
    assert After(Empty, steps).kv == map[];
    Held(Empty, steps, 0, 2, "r"); steps := steps + HoldSteps(0, 2, "r");
  }

  /** The first worker's late release frees the second's slot. */
  lemma LateRelease() returns (steps: seq<Step>)
    ensures Possible(Empty, steps) && AllCapped(1, steps)
    ensures After(Empty, steps) == Empty.(now := 300, next := 2, lapsed := {0}, evicted := {1},
              holds := map[Who(2, Slots, "r") := Hold(Slot(0), 1)])
  {
    steps := SharedRun();
    var forget := Forget(0, Who(1, Slots, "r"));
    Extend(Empty, steps, forget); steps := steps + [forget];
    assert After(Empty, steps).holds == map[Who(2, Slots, "r") := Hold(Slot(0), 1)];
    Extend(Empty, steps, Delete(0, true)); steps := steps + [Delete(0, true)];
    assert After(Empty, steps).kv == map[] && After(Empty, steps).calls == map[];
  }

  /**
   Without the lease the ceiling of one breaks: the first worker's late release frees the second's slot,
   a third run takes it, and two runs whose slots never expired are admitted.
   */
  lemma StaleReleaseBreaksCeiling() returns (steps: seq<Step>)
    ensures Possible(Empty, steps) && AllCapped(1, steps)
    ensures Unlapsed(After(Empty, steps)) == {Who(2, Slots, "r"), Who(3, Slots, "q")}
            && |Unlapsed(After(Empty, steps))| == 2
  {
    steps := LateRelease();
    Held(Empty, steps, 0, 3, "q"); steps := steps + HoldSteps(0, 3, "q");
  }

  // ---------------------------------------------------------------- daily launches

  predicate Of(key: Key, day: string, source: string) {
    key.Marker? && key.day == day && key.source == source
  }

  ghost predicate Full(kv: map<Key, Entry>, day: string, source: string, n: nat) {
    forall i: nat {:trigger Marker(day, source, i)} :: i < n ==> Marker(day, source, i) in kv
  }

  function Markers(kv: map<Key, Entry>, day: string, source: string): set<Key> {
    set key | key in kv && Of(key, day, source)
  }

  ghost predicate CallFull(kv: map<Key, Entry>, call: Call, day: string, source: string, limit: nat) {
    match call
    case Counting(_, d, so, l, start, mark, again) =>
      d == day && so == source ==>
        l <= limit && Full(kv, day, source, start) && Full(kv, day, source, if again then l else mark)
    case Counted(_, d, so, n) => d == day && so == source ==> Full(kv, day, source, n + 1)
    case _ => true
  }

  /** Every marker below a cursor or behind a scan is taken, and the grants are counted by the markers. */
  ghost predicate Launches(s: Fleet, day: string, source: string, limit: nat, since: nat) {
    && s.now >= since
    && (forall key <- s.kv :: Of(key, day, source) ==> key.n < limit && s.kv[key].until >= since + LAUNCH_TTL_S)
    && (forall k <- s.cursors :: k.day == day && k.source == source ==> Full(s.kv, day, source, s.cursors[k]))
    && (forall c <- s.calls :: CallFull(s.kv, s.calls[c], day, source, limit))
    && Granted(s, day, source) == |Markers(s.kv, day, source)|
  }

  /** Launches of one source and day are asked for with a cap of at most `limit`. */
  predicate Asked(day: string, source: string, limit: nat, step: Step) {
    step.AskLaunch? && step.day == day && step.source == source ==> step.limit <= limit
  }

  lemma FullGrows(kv: map<Key, Entry>, more: map<Key, Entry>, day: string, source: string, limit: nat)
    requires kv.Keys <= more.Keys
    ensures forall n :: Full(kv, day, source, n) ==> Full(more, day, source, n)
    ensures forall call :: CallFull(kv, call, day, source, limit) ==> CallFull(more, call, day, source, limit)
  {
  }

  lemma MarkersGrow(kv: map<Key, Entry>, key: Key, e: Entry, day: string, source: string)
    requires key !in kv
    ensures |Markers(kv[key := e], day, source)| == |Markers(kv, day, source)| + (if Of(key, day, source) then 1 else 0)
  {
    if Of(key, day, source) {
      assert Markers(kv[key := e], day, source) == Markers(kv, day, source) + {key};
    } else {
      assert Markers(kv[key := e], day, source) == Markers(kv, day, source);
    }
  }

  /** A marker set by a scan at its place keeps everything behind every cursor and scan taken. */
  lemma LaunchesMarker(s: Fleet, c: nat, day: string, source: string, limit: nat, since: nat)
    requires Launches(s, day, source, limit, since) && c in s.calls && s.calls[c].Counting?
    requires var call := s.calls[c]; Marker(call.day, call.source, call.mark) !in s.kv
    requires var call := s.calls[c]; call.day == day && call.source == source ==> call.mark < call.limit
    ensures Launches(SetMarker(s, s.calls[c]), day, source, limit, since)
  {
    var call := s.calls[c];
    var key := Marker(call.day, call.source, call.mark);
    FullGrows(s.kv, s.kv[key := MarkerEntry(s)], day, source, limit);
    MarkersGrow(s.kv, key, MarkerEntry(s), day, source);
    assert CallFull(s.kv, call, day, source, limit);
  }

  lemma LaunchesCall(s: Fleet, c: nat, call: Call, day: string, source: string, limit: nat, since: nat)
    requires Launches(s, day, source, limit, since) && CallFull(s.kv, call, day, source, limit)
    ensures Launches(s.(calls := s.calls[c := call]), day, source, limit, since)
  {
  }

  lemma LaunchesGone(s: Fleet, c: nat, cursors: map<Cursor, nat>, day: string, source: string, limit: nat, since: nat)
    requires Launches(s, day, source, limit, since)
    requires forall k <- cursors :: k.day == day && k.source == source ==>
               (k in s.cursors && cursors[k] == s.cursors[k]) || Full(s.kv, day, source, cursors[k])
    ensures Launches(s.(calls := s.calls - {c}, cursors := cursors), day, source, limit, since)
  {
  }

  /** A look that writes no marker moves the scan on, turns it back to the start, or ends it. */
  lemma ScanShape(s: Fleet, c: nat)
    requires Enabled(s, TryLaunch(c)) && TryLaunchStep(s, c).kv == s.kv
    ensures var call := s.calls[c];
            TryLaunchStep(s, c)
            == if call.again && call.mark >= call.start then
                 s.(calls := s.calls - {c}, cursors := s.cursors[Cursor(call.w, call.day, call.source) := call.limit])
               else if !call.again && call.mark >= call.limit then
                 s.(calls := s.calls[c := call.(mark := 0, again := true)])
               else s.(calls := s.calls[c := call.(mark := call.mark + 1)])
    ensures var call := s.calls[c];
            call.mark < (if call.again then call.start else call.limit) ==>
                Marker(call.day, call.source, call.mark) in s.kv
  {
  }

  lemma LaunchesScan(s: Fleet, c: nat, day: string, source: string, limit: nat, since: nat)
    requires Launches(s, day, source, limit, since) && Enabled(s, TryLaunch(c)) && TryLaunchStep(s, c).kv == s.kv
    ensures Launches(TryLaunchStep(s, c), day, source, limit, since)
  {
    var call := s.calls[c];
    ScanShape(s, c);
    assert CallFull(s.kv, call, day, source, limit);
    if call.again && call.mark >= call.start {
      LaunchesGone(s, c, s.cursors[Cursor(call.w, call.day, call.source) := call.limit], day, source, limit, since);
    } else if !call.again && call.mark >= call.limit {
      LaunchesCall(s, c, call.(mark := 0, again := true), day, source, limit, since);
    } else {
      LaunchesCall(s, c, call.(mark := call.mark + 1), day, source, limit, since);
    }
  }

  lemma SetShape(s: Fleet, c: nat)
    requires Enabled(s, TryLaunch(c)) && TryLaunchStep(s, c).kv != s.kv
    ensures var call := s.calls[c]; var t := SetMarker(s, call);
            && Marker(call.day, call.source, call.mark) !in s.kv
            && (if call.again then call.mark < call.start && TryLaunchStep(s, c) == t.(calls := t.calls - {c})
                else call.mark < call.limit
                     && TryLaunchStep(s, c)
                        == t.(calls := t.calls[c := Counted(call.w, call.day, call.source, call.mark)]))
  {
  }

  lemma MarkFree(s: Fleet, call: Call, day: string, source: string, limit: nat)
    requires call.Counting? && CallFull(s.kv, call, day, source, limit)
    requires Marker(call.day, call.source, call.mark) !in s.kv
             && call.mark < (if call.again then call.start else call.limit)
    ensures call.day == day && call.source == source ==> !call.again && Full(s.kv, day, source, call.mark)
  {
  }

  lemma CountedFull(s: Fleet, call: Call, day: string, source: string, limit: nat)
    requires call.Counting? && CallFull(s.kv, call, day, source, limit)
    requires call.day == day && call.source == source ==> !call.again
    ensures CallFull(SetMarker(s, call).kv, Counted(call.w, call.day, call.source, call.mark), day, source, limit)
  {
  }

  lemma LaunchesSet(s: Fleet, c: nat, day: string, source: string, limit: nat, since: nat)
    requires Launches(s, day, source, limit, since) && Enabled(s, TryLaunch(c)) && TryLaunchStep(s, c).kv != s.kv
    ensures Launches(TryLaunchStep(s, c), day, source, limit, since)
  {
    var call := s.calls[c];
    SetShape(s, c);
    assert CallFull(s.kv, call, day, source, limit);
    MarkFree(s, call, day, source, limit);
    LaunchesMarker(s, c, day, source, limit, since);
    var t := SetMarker(s, call);
    if call.again {
      LaunchesGone(t, c, t.cursors, day, source, limit, since);
    } else {
      CountedFull(s, call, day, source, limit);
      LaunchesCall(t, c, Counted(call.w, call.day, call.source, call.mark), day, source, limit, since);
    }
  }

  lemma LaunchesTry(s: Fleet, c: nat, day: string, source: string, limit: nat, since: nat)
    requires Launches(s, day, source, limit, since) && Enabled(s, TryLaunch(c))
    ensures Launches(TryLaunchStep(s, c), day, source, limit, since)
  {
    if TryLaunchStep(s, c).kv == s.kv { LaunchesScan(s, c, day, source, limit, since); }
    else { LaunchesSet(s, c, day, source, limit, since); }
  }

  lemma LaunchesAsk(s: Fleet, step: Step, day: string, source: string, limit: nat, since: nat)
    requires Launches(s, day, source, limit, since) && Enabled(s, step) && step.AskLaunch?
             && Asked(day, source, limit, step)
    ensures Launches(Apply(s, step), day, source, limit, since)
  {
    LaunchesCall(s, step.c, Apply(s, step).calls[step.c], day, source, limit, since);
  }

  ghost predicate SameMarkers(kv: map<Key, Entry>, other: map<Key, Entry>, day: string, source: string) {
    forall key ::
      Of(key, day, source) ==> (key in other <==> key in kv) && (key in kv ==> other[key] == kv[key])
  }

  /** A key that is not one of these markers comes, changes or goes. */
  lemma LaunchesElse(s: Fleet, t: Fleet, day: string, source: string, limit: nat, since: nat)
    requires Launches(s, day, source, limit, since)
    requires t.now >= s.now && t.grants == s.grants && t.cursors == s.cursors
    requires SameMarkers(s.kv, t.kv, day, source)
    requires forall c <- t.calls :: ForRun(t.calls[c]) || (c in s.calls && s.calls[c] == t.calls[c])
    ensures Launches(t, day, source, limit, since)
  {
    assert Markers(t.kv, day, source) == Markers(s.kv, day, source);
    forall c | c in t.calls ensures CallFull(t.kv, t.calls[c], day, source, limit) {
      assert ForRun(t.calls[c]) || CallFull(s.kv, t.calls[c], day, source, limit);
    }
  }

  lemma LaunchesNote(s: Fleet, c: nat, day: string, source: string, limit: nat, since: nat)
    requires Launches(s, day, source, limit, since) && Enabled(s, NoteLaunch(c))
    ensures Launches(NoteLaunchStep(s, c), day, source, limit, since)
  {
    var call := s.calls[c];
    assert CallFull(s.kv, call, day, source, limit);
    LaunchesGone(s, c, s.cursors[Cursor(call.w, call.day, call.source) := call.n + 1], day, source, limit, since);
  }

  lemma LaunchesCrash(s: Fleet, w: Worker, day: string, source: string, limit: nat, since: nat)
    requires Launches(s, day, source, limit, since)
    ensures Launches(CrashStep(s, w), day, source, limit, since)
  {
  }

  lemma SlotMoves(s: Fleet, step: Step, day: string, source: string)
    requires Safe(s) && Enabled(s, step) && (step.Try? || step.Delete? || step.Renew?)
    ensures SameMarkers(s.kv, Apply(s, step).kv, day, source)
  {
    match step
    case Delete(c, _) => assert Kept(s, s.calls[c].who, s.calls[c].hold);
    case Renew(who) => assert Kept(s, who, s.holds[who]);
    case _ =>
  }

  lemma CallsOnlyForRuns(s: Fleet, step: Step)
    requires Enabled(s, step) && (step.Try? || step.Delete? || step.Renew?)
    ensures var t := Apply(s, step);
            t.now == s.now && t.grants == s.grants && t.cursors == s.cursors
            && forall c <- t.calls :: ForRun(t.calls[c]) || (c in s.calls && s.calls[c] == t.calls[c])
  {
  }

  lemma SlotMovesAlone(s: Fleet, step: Step, t: Fleet, day: string, source: string, limit: nat, since: nat)
    requires Launches(s, day, source, limit, since) && Enabled(s, step) && (step.Try? || step.Delete? || step.Renew?)
    requires t == Apply(s, step) && SameMarkers(s.kv, t.kv, day, source)
    ensures Launches(t, day, source, limit, since)
  {
    CallsOnlyForRuns(s, step);
    LaunchesElse(s, t, day, source, limit, since);
  }

  lemma LapseAlone(s: Fleet, key: Key, day: string, source: string, limit: nat, since: nat)
    requires Launches(s, day, source, limit, since) && Enabled(s, Lapse(key)) && s.now < since + LAUNCH_TTL_S
    ensures Launches(Apply(s, Lapse(key)), day, source, limit, since)
  {
    LaunchesElse(s, Apply(s, Lapse(key)), day, source, limit, since);
  }

  lemma RestAlone(s: Fleet, step: Step, day: string, source: string, limit: nat, since: nat)
    requires Launches(s, day, source, limit, since) && Enabled(s, step)
    requires step.Note? || step.Forget? || step.Acquire? || step.Pass?
    ensures Launches(Apply(s, step), day, source, limit, since)
  {
    LaunchesElse(s, Apply(s, step), day, source, limit, since);
  }

  lemma LaunchesStep(s: Fleet, step: Step, day: string, source: string, limit: nat, since: nat)
    requires Safe(s) && Launches(s, day, source, limit, since) && Enabled(s, step) && Asked(day, source, limit, step)
    requires s.now < since + LAUNCH_TTL_S
    ensures Launches(Apply(s, step), day, source, limit, since)
  {
    match step
    case TryLaunch(c) => LaunchesTry(s, c, day, source, limit, since);
    case NoteLaunch(c) => LaunchesNote(s, c, day, source, limit, since);
    case AskLaunch(_, _, _, _, _) => LaunchesAsk(s, step, day, source, limit, since);
    case Crash(w) => LaunchesCrash(s, w, day, source, limit, since);
    case Lapse(key) => LapseAlone(s, key, day, source, limit, since);
    case Note(_) => RestAlone(s, step, day, source, limit, since);
    case Forget(_, _) => RestAlone(s, step, day, source, limit, since);
    case Acquire(_, _, _, _) => RestAlone(s, step, day, source, limit, since);
    case Pass(_) => RestAlone(s, step, day, source, limit, since);
    case _ =>
      SlotMoves(s, step, day, source);
      SlotMovesAlone(s, step, Apply(s, step), day, source, limit, since);
  }

  ghost predicate AllAsked(day: string, source: string, limit: nat, steps: seq<Step>) {
    forall step <- steps :: Asked(day, source, limit, step)
  }

  lemma {:induction false} ClockRises(s: Fleet, steps: seq<Step>)
    requires Possible(s, steps)
    ensures s.now <= After(s, steps).now
    decreases |steps|
  {
    if steps != [] { ClockRises(Apply(s, steps[0]), steps[1..]); }
  }

  lemma {:induction false} RunLaunches(s: Fleet, steps: seq<Step>, day: string, source: string, limit: nat, since: nat)
    requires Safe(s) && Launches(s, day, source, limit, since) && Possible(s, steps)
             && AllAsked(day, source, limit, steps)
    requires After(s, steps).now < since + LAUNCH_TTL_S
    ensures Launches(After(s, steps), day, source, limit, since)
    decreases |steps|
  {
    if steps != [] {
      ClockRises(s, steps);
      LaunchesStep(s, steps[0], day, source, limit, since);
      StepSafe(s, steps[0]);
      RunLaunches(Apply(s, steps[0]), steps[1..], day, source, limit, since);
    }
  }

  /** No launch of that source and day has been asked for. */
  ghost predicate Untouched(s: Fleet, day: string, source: string) {
    && (forall key <- s.kv :: !Of(key, day, source))
    && (forall k <- s.cursors :: k.day == day ==> k.source != source)
    && (forall c <- s.calls :: s.calls[c].Counting? || s.calls[c].Counted? ==> s.calls[c].day == day ==>
       s.calls[c].source != source)
    && Granted(s, day, source) == 0
  }

  lemma MarkersBelow(kv: map<Key, Entry>, day: string, source: string, limit: nat)
    requires forall key <- kv :: Of(key, day, source) ==> key.n < limit
    ensures |Markers(kv, day, source)| <= limit
    ensures Full(kv, day, source, limit) ==> |Markers(kv, day, source)| == limit
  {
    CountMarkers(Markers(kv, day, source), day, source, limit);
  }

  lemma {:induction false} CountMarkers(keys: set<Key>, day: string, source: string, n: nat)
    requires forall key <- keys :: Of(key, day, source) && key.n < n
    ensures |keys| <= n
    ensures (forall i: nat :: i < n ==> Marker(day, source, i) in keys) ==> |keys| == n
  {
    if n == 0 {
      assert keys == {};
    } else {
      CountMarkers(keys - {Marker(day, source, n - 1)}, day, source, n - 1);
    }
  }

  /**
   Within the markers' life, one source's launches of one day never pass the cap, whatever the interleaving;
   and a call that ends with a refusal proves that every launch it asked for was really granted.
   */
  lemma DailyCap(before: seq<Step>, steps: seq<Step>, day: string, source: string, limit: nat)
    requires Possible(Empty, before) && Untouched(After(Empty, before), day, source)
    requires Possible(After(Empty, before), steps) && AllAsked(day, source, limit, steps)
    requires After(After(Empty, before), steps).now < After(Empty, before).now + LAUNCH_TTL_S
    ensures var s := After(After(Empty, before), steps); Granted(s, day, source) <= limit
    ensures var s := After(After(Empty, before), steps);
            forall c <- s.calls ::
              s.calls[c].Counting? && s.calls[c].again && s.calls[c].day == day && s.calls[c].source == source ==>
                Granted(s, day, source) >= s.calls[c].limit
  {
    var s0 := After(Empty, before);
    RunSafe(Empty, before);
    assert Markers(s0.kv, day, source) == {};
    RunLaunches(s0, steps, day, source, limit, s0.now);
    var s := After(s0, steps);
    MarkersBelow(s.kv, day, source, limit);
    forall c | c in s.calls && s.calls[c].Counting? && s.calls[c].again && s.calls[c].day == day
        && s.calls[c].source == source
      ensures Granted(s, day, source) >= s.calls[c].limit
    {
      assert CallFull(s.kv, s.calls[c], day, source, limit);
      MarkersAtLeast(s.kv, day, source, s.calls[c].limit);
    }
  }

  lemma RescanStep(s: Fleet, c: nat, limit: nat, since: nat)
    requires Enabled(s, TryLaunch(c)) && s.calls[c].again
    requires Launches(s, s.calls[c].day, s.calls[c].source, limit, since)
    ensures TryLaunchStep(s, c).kv == s.kv && TryLaunchStep(s, c).grants == s.grants
  {
    assert CallFull(s.kv, s.calls[c], s.calls[c].day, s.calls[c].source, limit);
  }

  /**
   In the same runs every marker behind a cursor is taken, so a call's second scan changes no marker and grants nothing.
   */
  lemma RescanFindsNothing(before: seq<Step>, steps: seq<Step>, c: nat, limit: nat)
    requires Possible(Empty, before) && Possible(After(Empty, before), steps)
    requires var s := After(After(Empty, before), steps); Enabled(s, TryLaunch(c)) && s.calls[c].again
    requires var call := After(After(Empty, before), steps).calls[c];
             Untouched(After(Empty, before), call.day, call.source) && AllAsked(call.day, call.source, limit, steps)
    requires After(After(Empty, before), steps).now < After(Empty, before).now + LAUNCH_TTL_S
    ensures var s := After(After(Empty, before), steps);
            TryLaunchStep(s, c).kv == s.kv && TryLaunchStep(s, c).grants == s.grants
  {
    var s0 := After(Empty, before);
    RunSafe(Empty, before);
    var s := After(s0, steps);
    var call := s.calls[c];
    assert Markers(s0.kv, call.day, call.source) == {};
    RunLaunches(s0, steps, call.day, call.source, limit, s0.now);
    RescanStep(s, c, limit, s0.now);
  }

  lemma MarkersAtLeast(kv: map<Key, Entry>, day: string, source: string, n: nat)
    requires Full(kv, day, source, n)
    ensures |Markers(kv, day, source)| >= n
  {
    var below := set key | key in Markers(kv, day, source) && key.n < n;
    CountMarkers(below, day, source, n);
    SubsetSize(below, Markers(kv, day, source));
  }
}
