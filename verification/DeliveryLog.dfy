/** The ledger of seen deliveries: one append-only log per day, the last two days consulted. */
module DeliveryLogSpec {
  type Key = string
  type Logs = map<int, seq<string>>

  datatype Op = Claim(key: Key, day: int) | Release(key: Key, day: int)

  function LinesOn(logs: Logs, day: int): seq<string> {
    if day in logs then logs[day] else []
  }

  /** What the last line about the key says, or `before` when none speaks of it. */
  function LastSays(lines: seq<string>, key: Key, before: bool): bool
    decreases |lines|
  {
    if lines == [] then before
    else
      var last := lines[|lines| - 1];
      if last == key then true else if last == "-" + key then false else LastSays(lines[..|lines| - 1], key, before)
  }

  /** Yesterday first, so a later day's line wins. */
  function Seen(logs: Logs, key: Key, today: int): bool {
    LastSays(LinesOn(logs, today), key, LastSays(LinesOn(logs, today - 1), key, false))
  }

  function Append(logs: Logs, day: int, line: string): Logs {
    logs[day := LinesOn(logs, day) + [line]]
  }

  /** True answers a claim that is new; a release answers nothing. */
  function Do(logs: Logs, op: Op): (Logs, bool) {
    match op
    case Claim(key, day) => if Seen(logs, key, day) then (logs, false) else (Append(logs, day, key), true)
    case Release(key, day) => (Append(logs, day, "-" + key), false)
  }

  function After(logs: Logs, ops: seq<Op>): Logs
    decreases |ops|
  {
    if ops == [] then logs else Do(After(logs, ops[..|ops| - 1]), ops[|ops| - 1]).0
  }

  /** The answer to the `i`-th operation of a run. */
  function Answer(ops: seq<Op>, i: nat): bool
    requires i < |ops|
  {
    Do(After(map[], ops[..i]), ops[i]).1
  }
}

/** At most one claim is granted between releases, on the same day or the next. */
module DeliveryLogTheorems {
  import opened DeliveryLogSpec

  /** The clock never runs backwards. */
  predicate Timely(ops: seq<Op>) {
    forall i, j :: 0 <= i <= j < |ops| ==> ops[i].day <= ops[j].day
  }

  /** A key that cannot be mistaken for another's release line. */
  predicate Plain(key: Key) {
    key == "" || key[0] != '-'
  }

  predicate AllPlain(ops: seq<Op>) {
    forall op <- ops :: Plain(op.key)
  }

  /** Some operation between the two places releases the key. */
  predicate Releases(ops: seq<Op>, from: nat, to: nat, key: Key) {
    exists k :: from <= k < to && k < |ops| && ops[k].Release? && ops[k].key == key
  }

  lemma PlainLines(a: Key, b: Key)
    requires Plain(a) && Plain(b)
    ensures "-" + a != b && ("-" + a == "-" + b ==> a == b)
  {
    if "-" + a == "-" + b { assert ("-" + a)[1..] == ("-" + b)[1..]; }
    assert ("-" + a)[0] == '-';
  }

  /** From the granted claim on, its own day's log says claimed and the next day's does not say released. */
  ghost predicate Remembered(logs: Logs, key: Key, day: int) {
    && (forall before :: LastSays(LinesOn(logs, day), key, before))
    && LastSays(LinesOn(logs, day + 1), key, true)
  }

  lemma RememberedIsSeen(logs: Logs, key: Key, day: int, today: int)
    requires Remembered(logs, key, day) && day <= today <= day + 1
    ensures Seen(logs, key, today)
  {
  }

  lemma AppendSays(lines: seq<string>, line: string, key: Key, before: bool)
    ensures LastSays(lines + [line], key, before) == if line == key then true else if line == "-" + key then false
            else LastSays(lines, key, before)
  {
    assert (lines + [line])[..|lines|] == lines;
  }

  lemma AppendRemembers(logs: Logs, key: Key, day: int, on: int, line: string)
    requires Remembered(logs, key, day) && line != "-" + key
    ensures Remembered(Append(logs, on, line), key, day)
  {
    forall before ensures LastSays(LinesOn(Append(logs, on, line), day), key, before) {
      AppendSays(LinesOn(logs, day), line, key, before);
    }
    AppendSays(LinesOn(logs, day + 1), line, key, true);
  }

  lemma StepRemembers(logs: Logs, op: Op, key: Key, day: int)
    requires Remembered(logs, key, day) && Plain(key) && Plain(op.key) && !(op.Release? && op.key == key)
    ensures Remembered(Do(logs, op).0, key, day)
  {
    PlainLines(key, op.key);
    PlainLines(op.key, key);
    match op
    case Claim(k, d) => if !Seen(logs, k, d) { AppendRemembers(logs, key, day, d, k); }
    case Release(k, d) => AppendRemembers(logs, key, day, d, "-" + k);
  }

  /** No log exists for a day the clock has not reached. */
  lemma {:induction false} NoFuture(ops: seq<Op>, day: int)
    requires forall op <- ops :: op.day <= day
    ensures forall later :: later > day ==> LinesOn(After(map[], ops), later) == []
    decreases |ops|
  {
    if ops != [] {
      var last := ops[|ops| - 1];
      assert last in ops;
      NoFuture(ops[..|ops| - 1], day);
      forall later | later > day ensures LinesOn(After(map[], ops), later) == [] {
        assert LinesOn(After(map[], ops[..|ops| - 1]), later) == [] && last.day <= day;
      }
    }
  }

  lemma GrantRemembers(ops: seq<Op>, i: nat)
    requires i < |ops| && Timely(ops) && ops[i].Claim? && Answer(ops, i)
    ensures Remembered(After(map[], ops[..i + 1]), ops[i].key, ops[i].day)
  {
    var logs := After(map[], ops[..i]);
    var key, day := ops[i].key, ops[i].day;
    forall op | op in ops[..i] ensures op.day <= day {
      var k :| 0 <= k < i && ops[..i][k] == op;
      assert ops[k].day <= ops[i].day;
    }
    NoFuture(ops[..i], day);
    assert ops[..i + 1][..i] == ops[..i] && ops[..i + 1][i] == ops[i];
    assert After(map[], ops[..i + 1]) == Append(logs, day, key);
    assert LinesOn(logs, day + 1) == [];
    assert LinesOn(Append(logs, day, key), day + 1) == []
           && LinesOn(Append(logs, day, key), day) == LinesOn(logs, day) + [key];
    forall before ensures LastSays(LinesOn(logs, day) + [key], key, before) {
      AppendSays(LinesOn(logs, day), key, key, before);
    }
  }

  lemma LastStep(ops: seq<Op>, j: nat)
    requires 0 < j <= |ops|
    ensures After(map[], ops[..j]) == Do(After(map[], ops[..j - 1]), ops[j - 1]).0
  {
    assert ops[..j][..j - 1] == ops[..j - 1];
  }

  lemma NoneReleased(ops: seq<Op>, from: nat, j: nat, key: Key)
    requires from < j <= |ops| && !Releases(ops, from, j, key)
    ensures !Releases(ops, from, j - 1, key) && !(ops[j - 1].Release? && ops[j - 1].key == key)
  {
  }

  lemma NextRemembers(ops: seq<Op>, j: nat, key: Key, day: int)
    requires 0 < j <= |ops| && Plain(key) && Plain(ops[j - 1].key)
    requires !(ops[j - 1].Release? && ops[j - 1].key == key) && Remembered(After(map[], ops[..j - 1]), key, day)
    ensures Remembered(After(map[], ops[..j]), key, day)
  {
    LastStep(ops, j);
    StepRemembers(After(map[], ops[..j - 1]), ops[j - 1], key, day);
  }

  lemma {:induction false} StaysRemembered(ops: seq<Op>, i: nat, j: nat, key: Key, day: int)
    requires i < j <= |ops| && AllPlain(ops) && Plain(key) && Remembered(After(map[], ops[..i + 1]), key, day)
    requires !Releases(ops, i + 1, j, key)
    ensures Remembered(After(map[], ops[..j]), key, day)
    decreases j
  {
    if j > i + 1 {
      NoneReleased(ops, i + 1, j, key);
      StaysRemembered(ops, i, j - 1, key, day);
      assert ops[j - 1] in ops;
      NextRemembers(ops, j, key, day);
    }
  }

  /** Two grants of one key on the same or consecutive days have a release of it between them. */
  lemma GrantedOnceBetweenReleases(ops: seq<Op>, i: nat, j: nat)
    requires i < j < |ops| && Timely(ops) && AllPlain(ops)
    requires ops[i].Claim? && ops[j].Claim? && ops[i].key == ops[j].key && ops[j].day <= ops[i].day + 1
    requires Answer(ops, i) && Answer(ops, j)
    ensures Releases(ops, i + 1, j, ops[i].key)
  {
    if !Releases(ops, i + 1, j, ops[i].key) {
      GrantRemembers(ops, i);
      assert ops[i] in ops;
      StaysRemembered(ops, i, j, ops[i].key, ops[i].day);
      assert ops[i].day <= ops[j].day;
      RememberedIsSeen(After(map[], ops[..j]), ops[i].key, ops[i].day, ops[j].day);
      assert false;
    }
  }

  /** No line about the key stands under a day later than this. */
  ghost predicate Silent(logs: Logs, key: Key, day: int) {
    forall later, before :: later > day ==> LastSays(LinesOn(logs, later), key, before) == before
  }

  lemma AppendSilent(logs: Logs, key: Key, day: int, on: int, line: string)
    requires Silent(logs, key, day) && (on > day ==> line != key && line != "-" + key)
    ensures Silent(Append(logs, on, line), key, day)
  {
    forall later, before | later > day
      ensures LastSays(LinesOn(Append(logs, on, line), later), key, before) == before
    {
      AppendSays(LinesOn(logs, later), line, key, before);
      assert LastSays(LinesOn(logs, later), key, before) == before;
    }
  }

  /** The operation writes nothing about the key. */
  predicate SaysNothing(logs: Logs, op: Op, key: Key) {
    op.key == key ==> op.Claim? && Seen(logs, key, op.day)
  }

  lemma StepSilent(logs: Logs, op: Op, key: Key, day: int)
    requires Silent(logs, key, day) && Plain(key) && Plain(op.key) && SaysNothing(logs, op, key)
    ensures Silent(Do(logs, op).0, key, day)
  {
    PlainLines(key, op.key);
    PlainLines(op.key, key);
    match op
    case Claim(k, d) => if !Seen(logs, k, d) { AppendSilent(logs, key, day, d, k); }
    case Release(k, d) => AppendSilent(logs, key, day, d, "-" + k);
  }

  /**
   The claim granted at place `i` is the last word on its key: later ones of it were refused, and nobody released it.
   */
  predicate LastWord(ops: seq<Op>, i: nat)
    requires i < |ops|
  {
    forall k :: i < k < |ops| && ops[k].key == ops[i].key ==> ops[k].Claim? && !Answer(ops, k)
  }

  lemma {:induction false} StaysSilent(ops: seq<Op>, i: nat, j: nat)
    requires i < j <= |ops| && AllPlain(ops) && Timely(ops) && LastWord(ops, i)
    ensures Silent(After(map[], ops[..j]), ops[i].key, ops[i].day)
    decreases j
  {
    var key, day := ops[i].key, ops[i].day;
    LastStep(ops, j);
    assert ops[j - 1] in ops && ops[i] in ops;
    if j == i + 1 {
      forall op | op in ops[..i] ensures op.day <= day {
        var k :| 0 <= k < i && ops[..i][k] == op;
        assert ops[k].day <= ops[i].day;
      }
      NoFuture(ops[..i], day);
      FutureIsSilent(After(map[], ops[..i]), key, day);
      if !Seen(After(map[], ops[..i]), key, day) || ops[i].Release? {
        AppendSilent(After(map[], ops[..i]), key, day, day, if ops[i].Claim? then key else "-" + key);
      }
    } else {
      StaysSilent(ops, i, j - 1);
      StepSilent(After(map[], ops[..j - 1]), ops[j - 1], key, day);
    }
  }

  lemma FutureIsSilent(logs: Logs, key: Key, day: int)
    requires forall later :: later > day ==> LinesOn(logs, later) == []
    ensures Silent(logs, key, day)
  {
  }

  lemma SilentIsUnseen(logs: Logs, key: Key, day: int, today: int)
    requires Silent(logs, key, day) && today >= day + 2
    ensures !Seen(logs, key, today)
  {
    assert LastSays(LinesOn(logs, today - 1), key, false) == false;
  }

  /**
   In any history of plain keys on a clock that does not run backwards: while a granted claim is the last word on its
   key, the key is granted again if and only if two days have passed.
   */
  lemma RememberedUntilIff(ops: seq<Op>, i: nat, later: int)
    requires i < |ops| && Timely(ops) && AllPlain(ops) && ops[i].Claim? && Answer(ops, i) && LastWord(ops, i)
    requires ops[i].day <= later
    ensures Do(After(map[], ops), Claim(ops[i].key, later)).1 <==> later >= ops[i].day + 2
  {
    assert ops[..|ops|] == ops && ops[i] in ops;
    if later >= ops[i].day + 2 {
      StaysSilent(ops, i, |ops|);
      SilentIsUnseen(After(map[], ops), ops[i].key, ops[i].day, later);
    } else {
      GrantRemembers(ops, i);
      StaysRemembered(ops, i, |ops|, ops[i].key, ops[i].day);
      RememberedIsSeen(After(map[], ops), ops[i].key, ops[i].day, later);
    }
  }

  /** Why keys must be plain: claiming the key with a dash in front reads as a release of the key. */
  lemma DashedKeyReleases(logs: Logs, key: Key, day: int)
    requires Seen(logs, key, day) && !Seen(logs, "-" + key, day)
    ensures !Seen(Do(logs, Claim("-" + key, day)).0, key, day)
  {
    assert |"-" + key| > |key|;
    AppendSays(LinesOn(logs, day), "-" + key, key, LastSays(LinesOn(logs, day - 1), key, false));
  }
}

/** The file log object. */
module DeliveryLogObject {
  import opened DeliveryLogSpec
  import opened DeliveryLogTheorems

  class FileDeliveryLog {
    var logs: Logs
    ghost var history: seq<Op>

    ghost predicate Valid()
      reads this
    {
      logs == DeliveryLogSpec.After(map[], history)
    }

    constructor ()
      ensures Valid() && history == []
    {
      logs, history := map[], [];
    }

    /** Scans yesterday's lines, then today's, updating what has been seen. */
    method ReadSeen(key: Key, today: int) returns (state: bool)
      ensures state == Seen(logs, key, today)
    {
      state := false;
      var yesterday := LinesOn(logs, today - 1);
      for i := 0 to |yesterday|
        invariant state == LastSays(yesterday[..i], key, false)
      {
        AppendSays(yesterday[..i], yesterday[i], key, false);
        assert yesterday[..i + 1] == yesterday[..i] + [yesterday[i]];
        if yesterday[i] == key { state := true; } else if yesterday[i] == "-" + key { state := false; }
      }
      assert yesterday[..|yesterday|] == yesterday;
      ghost var before := state;
      var lines := LinesOn(logs, today);
      for i := 0 to |lines|
        invariant state == LastSays(lines[..i], key, before)
      {
        AppendSays(lines[..i], lines[i], key, before);
        assert lines[..i + 1] == lines[..i] + [lines[i]];
        if lines[i] == key { state := true; } else if lines[i] == "-" + key { state := false; }
      }
      assert lines[..|lines|] == lines;
    }

    method ClaimDelivery(key: Key, today: int) returns (granted: bool)
      requires Valid()
      modifies this
      ensures Valid() && history == old(history) + [Claim(key, today)] && granted == Answer(history, |history| - 1)
    {
      var seen := ReadSeen(key, today);
      if !seen { logs := Append(logs, today, key); }
      granted := !seen;
      history := history + [Claim(key, today)];
      assert history[..|history| - 1] == old(history);
    }

    method ReleaseDelivery(key: Key, today: int)
      requires Valid()
      modifies this
      ensures Valid() && history == old(history) + [Release(key, today)]
    {
      logs := Append(logs, today, "-" + key);
      history := history + [Release(key, today)];
      assert history[..|history| - 1] == old(history);
    }
  }
}
