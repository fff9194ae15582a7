/** What admission grants and refuses, and how long what it granted lasts. */
module AdmissionAnswers {
  import opened AdmissionSteps

  // ---------------------------------------------------------------- one access at a time

  /**
   A look at the next key takes it if and only if it is free, for five minutes and under a ticket of its own; the call
   gives up if and only if it is taken and was the last.
   */
  lemma TryIff(s: Fleet, c: nat)
    requires Enabled(s, Try(c))
    ensures var call := s.calls[c]; var t := Apply(s, Try(c));
            var key := if call.pool.SlotPool? then Slot(call.at) else RepoLock(call.pool.name);
            var last := call.pool.SlotPool? ==> call.at + 1 == call.pool.limit;
            if key !in s.kv then
              && t.kv == s.kv[key := Entry(call.who.run, s.next, s.now + 300)] && t.next == s.next + 1
              && t.calls == s.calls[c := Won(call.who, Hold(key, s.next))]
            else
              t.kv == s.kv && t.next == s.next
              && t.calls == if last then s.calls - {c} else s.calls[c := Scanning(call.who, call.pool, call.at + 1)]
  {
  }

  /** The worker remembers what it won, forgets it before its delete goes out, and with a crash forgets everything. */
  lemma MemoryIs(s: Fleet, c: nat, who: Who, w: Worker)
    ensures Enabled(s, Note(c)) ==>
              var t := Apply(s, Note(c));
              t.holds == s.holds[s.calls[c].who := s.calls[c].hold] && t.calls == s.calls - {c} && t.kv == s.kv
    ensures Enabled(s, Forget(c, who)) ==>
              var t := Apply(s, Forget(c, who));
              t.holds == s.holds - {who} && t.calls == s.calls[c := Releasing(who, s.holds[who])] && t.kv == s.kv
    ensures var t := Apply(s, Crash(w));
            && t.kv == s.kv
            && (forall x :: x in t.holds <==> x in s.holds && x.w != w)
            && (forall d :: d in t.calls <==> d in s.calls && WorkerOf(s.calls[d]) != w)
            && (forall k :: k in t.cursors <==> k in s.cursors && k.w != w)
  {
  }

  /** A delete that arrives removes the key if and only if it still holds this run's value; it removes no other. */
  lemma DeleteIff(s: Fleet, c: nat, reaches: bool)
    requires Enabled(s, Delete(c, reaches))
    ensures var call := s.calls[c]; var t := Apply(s, Delete(c, reaches));
            && c !in t.calls
            && t.kv == (if reaches && call.hold.key in s.kv && s.kv[call.hold.key].value == call.who.run
                        then s.kv - {call.hold.key} else s.kv)
  {
  }

  /** A renewal gives the key five more minutes from now if and only if it still holds this run's value. */
  lemma RenewIff(s: Fleet, who: Who)
    requires Enabled(s, Renew(who))
    ensures var key := s.holds[who].key; var t := Apply(s, Renew(who));
            if key in s.kv && s.kv[key].value == who.run
            then t == s.(kv := s.kv[key := Entry(who.run, s.kv[key].ticket, s.now + 300)]) else t == s
  {
  }

  /** A launch marker is taken for two days, when it is free and within the limit, and counts one launch. */
  lemma LaunchIff(s: Fleet, c: nat)
    requires Enabled(s, TryLaunch(c))
    ensures var call := s.calls[c]; var t := Apply(s, TryLaunch(c));
            var key := Marker(call.day, call.source, call.mark);
            var inRange := call.mark < (if call.again then call.start else call.limit);
            if inRange && key !in s.kv then
              && t.kv == s.kv[key := Entry("1", s.next, s.now + 2 * 24 * 60 * 60)]
              && t.grants == s.grants[(call.day, call.source) := Granted(s, call.day, call.source) + 1]
            else t.kv == s.kv && t.grants == s.grants
  {
  }

  /** A granted launch is noted: the worker's next call for that day and source starts right behind the marker taken. */
  lemma NextScanStartsBehind(s: Fleet, c: nat, limit: nat)
    requires Enabled(s, TryLaunch(c)) && !s.calls[c].again && s.calls[c].mark < s.calls[c].limit && limit > 0
    requires Marker(s.calls[c].day, s.calls[c].source, s.calls[c].mark) !in s.kv
    ensures var call := s.calls[c]; var next := call.mark + 1;
            var t := Apply(s, TryLaunch(c));
            && Enabled(t, NoteLaunch(c)) && c !in Apply(t, NoteLaunch(c)).calls
            && Apply(t, NoteLaunch(c)).cursors == s.cursors[Cursor(call.w, call.day, call.source) := next]
            && var ask := AskLaunch(c, call.w, call.day, call.source, limit);
               Enabled(Apply(t, NoteLaunch(c)), ask)
               && Apply(Apply(t, NoteLaunch(c)), ask).calls[c]
                  == Counting(call.w, call.day, call.source, limit, next, next, false)
  {
  }

  // ---------------------------------------------------------------- what is granted lasts

  /** No release that arrives takes the key away. */
  predicate Spared(s: Fleet, steps: seq<Step>, key: Key)
    requires Possible(s, steps)
    decreases |steps|
  {
    steps == []
    || ((steps[0].Delete? && steps[0].reaches ==>
           s.calls[steps[0].c].hold.key != key || !Matches(s, key, s.calls[steps[0].c].who.run))
        && Spared(Apply(s, steps[0]), steps[1..], key))
  }

  /** Of the steps only a delete, a renewal and an expiry touch a key that is taken. */
  lemma OthersLeaveIt(s: Fleet, step: Step, key: Key)
    requires key in s.kv && Enabled(s, step) && !step.Delete? && !step.Renew? && !step.Lapse?
    ensures key in Apply(s, step).kv && Apply(s, step).kv[key] == s.kv[key] && s.now <= Apply(s, step).now
  {
    match step
    case Try(c) => TryIff(s, c);
    case TryLaunch(c) => LaunchIff(s, c);
    case _ =>
  }

  lemma EntryStays(s: Fleet, step: Step, key: Key)
    requires key in s.kv && Enabled(s, step) && s.now < s.kv[key].until && Spared(s, [step], key)
    ensures var t := Apply(s, step);
            && key in t.kv && t.kv[key].ticket == s.kv[key].ticket && t.kv[key].value == s.kv[key].value
            && (t.kv[key].until == s.kv[key].until || t.kv[key].until == s.now + 300) && s.now <= t.now
  {
    match step
    case Delete(c, reaches) => DeleteIff(s, c, reaches);
    case Renew(who) => RenewIff(s, who);
    case Lapse(_) =>
    case _ => OthersLeaveIt(s, step, key);
  }

  /** The time left of a key never falls below what it was: a renewal only puts the end off. */
  predicate Short(s: Fleet) {
    forall key <- s.kv :: !key.Marker? ==> s.kv[key].until <= s.now + 300
  }

  lemma ShortStep(s: Fleet, step: Step)
    requires Short(s) && Enabled(s, step)
    ensures Short(Apply(s, step))
  {
  }

  /** So in every reachable fleet. */
  lemma {:induction false} ShortRun(s: Fleet, steps: seq<Step>)
    requires Short(s) && Possible(s, steps)
    ensures Short(After(s, steps))
    decreases |steps|
  {
    if steps != [] {
      ShortStep(s, steps[0]);
      ShortRun(Apply(s, steps[0]), steps[1..]);
    }
  }

  /** Time never runs back. */
  lemma {:induction false} TimeOnlyPasses(s: Fleet, steps: seq<Step>)
    requires Possible(s, steps)
    ensures s.now <= After(s, steps).now
    decreases |steps|
  {
    if steps != [] { TimeOnlyPasses(Apply(s, steps[0]), steps[1..]); }
  }

  /** Until its time is up a slot or lock stays with the acquisition that took it, unless a release takes it away. */
  lemma {:induction false} UnexpiredStays(s: Fleet, steps: seq<Step>, key: Key)
    requires Short(s) && Possible(s, steps) && Spared(s, steps, key) && !key.Marker?
    requires key in s.kv && After(s, steps).now < s.kv[key].until
    ensures var t := After(s, steps);
            && key in t.kv && t.kv[key].ticket == s.kv[key].ticket && t.kv[key].value == s.kv[key].value
            && s.kv[key].until <= t.kv[key].until
    decreases |steps|
  {
    if steps != [] {
      TimeOnlyPasses(Apply(s, steps[0]), steps[1..]);
      TimeOnlyPasses(s, [steps[0]]);
      EntryStays(s, steps[0], key);
      ShortStep(s, steps[0]);
      UnexpiredStays(Apply(s, steps[0]), steps[1..], key);
    }
  }

  // ---------------------------------------------------------------- nobody is refused what is free

  predicate StaysFree(s: Fleet, steps: seq<Step>, key: Key)
    requires Possible(s, steps)
    decreases |steps|
  {
    key !in s.kv && (steps == [] || StaysFree(Apply(s, steps[0]), steps[1..], key))
  }

  /** The call is never told that everything is taken. */
  predicate NeverRefused(s: Fleet, steps: seq<Step>, c: nat)
    requires Possible(s, steps)
    decreases |steps|
  {
    steps == []
    || ((steps[0] == Try(c) ==> c in Apply(s, steps[0]).calls) && NeverRefused(Apply(s, steps[0]), steps[1..], c))
  }

  /** The call has the key still before it. */
  predicate Before(s: Fleet, c: nat, j: nat) {
    c in s.calls && s.calls[c].Scanning? ==>
      s.calls[c].pool.SlotPool? && s.calls[c].at <= j < s.calls[c].pool.limit
  }

  lemma TryBefore(s: Fleet, c: nat, j: nat)
    requires Before(s, c, j) && Enabled(s, Try(c)) && Slot(j) !in s.kv && Slot(j) !in Apply(s, Try(c)).kv
    ensures Before(Apply(s, Try(c)), c, j) && c in Apply(s, Try(c)).calls
  {
    TryIff(s, c);
  }

  /** A scan goes on only by its own looks. */
  lemma ScanIsItsOwn(s: Fleet, step: Step, c: nat)
    requires Enabled(s, step) && step != Try(c) && !(step.Acquire? && step.c == c)
    ensures c in Apply(s, step).calls && Apply(s, step).calls[c].Scanning? ==>
              c in s.calls && Apply(s, step).calls[c] == s.calls[c]
  {
    match step
    case Try(d) => TryIff(s, d);
    case Crash(w) =>
    case _ =>
  }

  lemma StillBefore(s: Fleet, step: Step, c: nat, j: nat)
    requires Before(s, c, j) && Enabled(s, step) && !(step.Acquire? && step.c == c)
    requires Slot(j) !in s.kv && Slot(j) !in Apply(s, step).kv
    ensures Before(Apply(s, step), c, j) && (step == Try(c) ==> c in Apply(s, step).calls)
  {
    if step == Try(c) { TryBefore(s, c, j); } else { ScanIsItsOwn(s, step, c); }
  }

  /** While some slot under the limit stays free no call for a slot is refused, whoever else comes and goes. */
  lemma {:induction false} FreeSlotNotRefused(s: Fleet, steps: seq<Step>, c: nat, j: nat)
    requires Possible(s, steps) && Before(s, c, j) && StaysFree(s, steps, Slot(j))
    requires forall step <- steps :: !(step.Acquire? && step.c == c)
    ensures NeverRefused(s, steps, c)
    decreases |steps|
  {
    if steps != [] {
      StillBefore(s, steps[0], c, j);
      FreeSlotNotRefused(Apply(s, steps[0]), steps[1..], c, j);
    }
  }
}
