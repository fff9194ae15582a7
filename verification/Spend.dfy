/**
 Attributed spend: every add reads the bucket's total, adds, and writes it back; a guard key decides who may insert
 the first row. One bucket, any number of concurrent adds, each store access a step. Amounts are whole micro-USD.
 */
module SpendSteps {
  import opened Options

  type Id = nat

  const GUARD_TTL_S := 30

  /** A stored total; `parts` remembers which adds it is made of. */
  datatype Value = Value(amount: int, parts: map<Id, int>)

  datatype Call =
    | First                 // about to read the bucket
    | Claiming              // found nothing; about to try for the guard
    | Rechecking            // won the guard; about to read again
    | Inserting             // still nothing; about to insert
    | Losing                // lost the guard; about to read the winner's row
    | Writing(base: Value)  // read a total; about to write the sum

  datatype Guard = Guard(owner: Id, until: nat)

  datatype Bucket = Bucket(now: nat, rows: seq<Value>, guard: Option<Guard>, added: map<Id, int>, calls: map<Id, Call>)

  const Empty := Bucket(0, [], None, map[], map[])

  datatype Step =
    | Add(id: Id, amount: int)
    | Read(id: Id)
    | Claim(id: Id)
    | Recheck(id: Id)
    | Insert(id: Id)
    | ReadTheirs(id: Id)
    | Write(id: Id)
    | Crash(id: Id)
    | Pass(seconds: nat)
    | Lapse

  predicate Enabled(s: Bucket, step: Step) {
    match step
    case Add(id, amount) => id !in s.added && amount > 0
    case Read(id) => id in s.calls && s.calls[id].First?
    case Claim(id) => id in s.calls && s.calls[id].Claiming?
    case Recheck(id) => id in s.calls && s.calls[id].Rechecking?
    case Insert(id) => id in s.calls && s.calls[id].Inserting? && id in s.added
    case ReadTheirs(id) => id in s.calls && s.calls[id].Losing?
    case Write(id) => id in s.calls && s.calls[id].Writing? && id in s.added
    case Crash(id) => id in s.calls
    case Pass(_) => true
    case Lapse => s.guard.Some? && s.guard.value.until <= s.now
  }

  /** The new total: what was read, plus this add. */
  function Summed(base: Value, id: Id, amount: int): Value {
    Value(base.amount + amount, base.parts[id := amount])
  }

  function Apply(s: Bucket, step: Step): Bucket
    requires Enabled(s, step)
  {
    match step
    case Add(id, amount) => s.(added := s.added[id := amount], calls := s.calls[id := First])
    case Read(id) => s.(calls := s.calls[id := if s.rows != [] then Writing(s.rows[0]) else Claiming])
    case Claim(id) =>
      if s.guard.None? then s.(guard := Some(Guard(id, s.now + GUARD_TTL_S)), calls := s.calls[id := Rechecking])
      else s.(calls := s.calls[id := Losing])
    case Recheck(id) => s.(calls := s.calls[id := if s.rows != [] then Writing(s.rows[0]) else Inserting])
    case Insert(id) => s.(rows := s.rows + [Value(s.added[id], map[id := s.added[id]])], calls := s.calls - {id})
    case ReadTheirs(id) =>
      if s.rows != [] then s.(calls := s.calls[id := Writing(s.rows[0])]) else s.(calls := s.calls - {id})
    case Write(id) =>
      // An UPDATE by bucket: every matching row gets the value.
      var value := Summed(s.calls[id].base, id, s.added[id]);
      s.(rows := seq(|s.rows|, i => value), calls := s.calls - {id})
    case Crash(id) => s.(calls := s.calls - {id})
    case Pass(seconds) => s.(now := s.now + seconds)
    case Lapse => s.(guard := None)
  }

  /** The insert lands while its guard is still its own. */
  predicate OnTime(s: Bucket, step: Step) {
    step.Insert? ==> s.guard.Some? && s.guard.value.owner == step.id
  }

  predicate Possible(s: Bucket, steps: seq<Step>)
    decreases |steps|
  {
    steps == [] || (Enabled(s, steps[0]) && Possible(Apply(s, steps[0]), steps[1..]))
  }

  predicate AllOnTime(s: Bucket, steps: seq<Step>)
    requires Possible(s, steps)
    decreases |steps|
  {
    steps == [] || (OnTime(s, steps[0]) && AllOnTime(Apply(s, steps[0]), steps[1..]))
  }

  function After(s: Bucket, steps: seq<Step>): Bucket
    requires Possible(s, steps)
    decreases |steps|
  {
    if steps == [] then s else After(Apply(s, steps[0]), steps[1..])
  }

  /** What `list` reports: the rows of the bucket, summed. */
  function Listed(rows: seq<Value>): int
    decreases |rows|
  {
    if rows == [] then 0 else rows[0].amount + Listed(rows[1..])
  }
}

/** Increments may be lost, never invented. */
module SpendTheorems {
  import opened Options
  import opened Sums
  import opened SpendSteps

  /** A total is the sum of distinct adds, each counted once at its own amount. */
  ghost predicate Real(v: Value, added: map<Id, int>) {
    v.amount == Total(v.parts) && forall id <- v.parts :: id in added && v.parts[id] == added[id]
  }

  /** No add that is still going is counted yet. */
  predicate Settled(v: Value, calls: map<Id, Call>) {
    forall id <- v.parts :: id !in calls
  }

  ghost predicate Inv(s: Bucket) {
    && |s.rows| <= 1
    && (forall v <- s.rows :: Real(v, s.added) && Settled(v, s.calls))
    && (forall id <- s.calls :: s.calls[id].Writing? ==>
       Real(s.calls[id].base, s.added) && Settled(s.calls[id].base, s.calls))
    && (forall id <- s.calls :: id in s.added)
    && (forall id <- s.added :: s.added[id] > 0)
    && (forall id <- s.calls :: s.calls[id].Inserting? && s.guard.Some? && s.guard.value.owner == id ==> s.rows == [])
    && (forall id <- s.calls :: s.calls[id].First? || s.calls[id].Claiming? ==> s.guard.Some? ==>
       s.guard.value.owner != id)
  }

  lemma SummedReal(base: Value, id: Id, added: map<Id, int>)
    requires Real(base, added) && id in added && id !in base.parts
    ensures Real(Summed(base, id, added[id]), added)
  {
    TotalPut(base.parts, base.parts[id := added[id]], id);
  }

  lemma InsertedReal(id: Id, added: map<Id, int>)
    requires id in added
    ensures Real(Value(added[id], map[id := added[id]]), added)
  {
    TotalSingle(map[id := added[id]], id);
  }

  lemma WriteKeeps(s: Bucket, id: Id)
    requires Inv(s) && Enabled(s, Write(id))
    ensures Inv(Apply(s, Write(id)))
  {
    SummedReal(s.calls[id].base, id, s.added);
  }

  lemma InsertKeeps(s: Bucket, id: Id)
    requires Inv(s) && Enabled(s, Insert(id)) && OnTime(s, Insert(id))
    ensures Inv(Apply(s, Insert(id)))
  {
    InsertedReal(id, s.added);
  }

  lemma AddKeeps(s: Bucket, id: Id, amount: int)
    requires Inv(s) && Enabled(s, Add(id, amount)) && (s.guard.Some? ==> s.guard.value.owner in s.added)
    ensures Inv(Apply(s, Add(id, amount)))
  {
  }

  lemma StepKeeps(s: Bucket, step: Step)
    requires Inv(s) && Enabled(s, step) && OnTime(s, step) && (s.guard.Some? ==> s.guard.value.owner in s.added)
    ensures Inv(Apply(s, step))
            && (Apply(s, step).guard.Some? ==> Apply(s, step).guard.value.owner in Apply(s, step).added)
  {
    match step
    case Add(id, amount) => AddKeeps(s, id, amount);
    case Write(id) => WriteKeeps(s, id);
    case Insert(id) => InsertKeeps(s, id);
    case _ =>
  }

  lemma {:induction false} RunKeeps(s: Bucket, steps: seq<Step>)
    requires Inv(s) && Possible(s, steps) && AllOnTime(s, steps) && (s.guard.Some? ==> s.guard.value.owner in s.added)
    ensures Inv(After(s, steps))
    decreases |steps|
  {
    if steps != [] {
      StepKeeps(s, steps[0]);
      RunKeeps(Apply(s, steps[0]), steps[1..]);
    }
  }

  lemma {:induction false} PartAtMost(part: map<Id, int>, all: map<Id, int>)
    requires forall id <- part :: id in all && part[id] == all[id]
    requires forall id <- all :: all[id] > 0
    ensures Total(part) <= Total(all)
    decreases |all|
  {
    if part.Keys == all.Keys {
      TotalSame(part, all);
    } else {
      var id :| id in all && id !in part;
      TotalRemove(all, id);
      Smaller(all, id);
      PartAtMost(part, all - {id});
    }
  }

  /**
   However the adds interleave or crash, as long as inserts land within their guard: the bucket has at most one row,
   its total is the sum of distinct adds, so `list` never reports more than was added.
   */
  lemma NeverMoreThanAdded(steps: seq<Step>)
    requires Possible(Empty, steps) && AllOnTime(Empty, steps)
    ensures var s := After(Empty, steps);
            && |s.rows| <= 1 && Listed(s.rows) <= Total(s.added)
            && (forall v <- s.rows ::
                  && v.amount == Total(v.parts)
                  && forall id <- v.parts :: id in s.added && v.parts[id] == s.added[id])
  {
    RunKeeps(Empty, steps);
    OneRowIsTruthful(After(Empty, steps));
  }

  // ---------------------------------------------------------------- what becomes of an add

  /** A row's total is made of it. */
  predicate Counted(s: Bucket, id: Id) {
    exists v <- s.rows :: id in v.parts
  }

  /** Still going, or counted. */
  predicate InHand(s: Bucket, id: Id) {
    id in s.calls || Counted(s, id)
  }

  /**
   The step loses the add: its worker stops; it lost the guard and there is no row yet to add to; or another's write
   puts a total in place that was worked out without it.
   */
  predicate Loses(s: Bucket, step: Step, id: Id) {
    match step
    case Crash(j) => j == id
    case ReadTheirs(j) => j == id && s.rows == []
    case Write(j) => j != id && j in s.calls && s.calls[j].Writing? && id !in s.calls[j].base.parts && Counted(s, id)
    case _ => false
  }

  ghost predicate RowsThere(s: Bucket) {
    forall id <- s.calls :: s.calls[id].Writing? ==> s.rows != []
  }

  /** A write puts its sum in every row: what it read, and its own amount; an insert adds a row of its own amount. */
  lemma WriteCounts(s: Bucket, id: Id)
    requires Enabled(s, Write(id))
    ensures var t := Apply(s, Write(id));
            && id !in t.calls && |t.rows| == |s.rows|
            && forall v <- t.rows :: v.amount == s.calls[id].base.amount + s.added[id]
                                     && v.parts == s.calls[id].base.parts[id := s.added[id]]
  {
  }

  lemma InsertCounts(s: Bucket, id: Id)
    requires Enabled(s, Insert(id))
    ensures var t := Apply(s, Insert(id));
            id !in t.calls && t.rows == s.rows + [Value(s.added[id], map[id := s.added[id]])]
  {
  }

  /** Where a call goes from each read, whether it found a row, and from the guard, whether it won it. */
  lemma CallGoesOn(s: Bucket, id: Id)
    ensures Enabled(s, Read(id)) ==>
              Apply(s, Read(id)) == s.(calls := s.calls[id := if s.rows == [] then Claiming else Writing(s.rows[0])])
    ensures Enabled(s, Recheck(id)) ==>
              Apply(s, Recheck(id))
                  == s.(calls := s.calls[id := if s.rows == [] then Inserting else Writing(s.rows[0])])
    ensures Enabled(s, ReadTheirs(id)) ==>
              s.calls[id] == Losing
              && Apply(s, ReadTheirs(id))
                 == s.(calls := if s.rows == [] then s.calls - {id} else s.calls[id := Writing(s.rows[0])])
    ensures Enabled(s, Claim(id)) ==>
              && (Apply(s, Claim(id)).calls == s.calls[id := if s.guard.None? then Rechecking else Losing])
              && (Apply(s, Claim(id)).guard == if s.guard.None? then Some(Guard(id, s.now + 30)) else s.guard)
    ensures Enabled(s, Crash(id)) ==> Apply(s, Crash(id)) == s.(calls := s.calls - {id})
  {
  }

  lemma InHandStays(s: Bucket, step: Step, id: Id)
    requires RowsThere(s) && Enabled(s, step) && InHand(s, id) && !Loses(s, step, id)
    ensures InHand(Apply(s, step), id)
  {
    var t := Apply(s, step);
    if step.Insert? {
      assert t.rows[|s.rows|] in t.rows;
      assert forall v <- s.rows :: v in t.rows;
    } else if step.Write? {
      assert t.rows[0] in t.rows;
    }
  }

  /** Of the adds still going or counted a step loses exactly those, however late an insert lands. */
  lemma LostIff(s: Bucket, step: Step, id: Id)
    requires Inv(s) && RowsThere(s) && Enabled(s, step) && InHand(s, id)
    ensures !InHand(Apply(s, step), id) <==> Loses(s, step, id)
  {
    if !Loses(s, step, id) { InHandStays(s, step, id); }
    assert forall v <- s.rows :: id in v.parts ==> id !in s.calls;
  }

  lemma RowsStay(s: Bucket, step: Step)
    requires RowsThere(s) && Enabled(s, step)
    ensures RowsThere(Apply(s, step))
  {
  }

  /** An add is counted in the end unless, at some step after it was made, one of the three things happened to it. */
  lemma {:induction false} AddIsCountedUnlessLost(s: Bucket, steps: seq<Step>, id: Id) returns (k: nat)
    requires RowsThere(s) && Possible(s, steps) && InHand(s, id)
    ensures InHand(After(s, steps), id)
            || (k < |steps| && Possible(s, steps[..k]) && Loses(After(s, steps[..k]), steps[k], id))
    decreases |steps|
  {
    k := 0;
    if steps != [] {
      var t := Apply(s, steps[0]);
      RowsStay(s, steps[0]);
      if InHand(t, id) {
        var j := AddIsCountedUnlessLost(t, steps[1..], id);
        if !InHand(After(s, steps), id) {
          k := j + 1;
          assert steps[..k][1..] == steps[1..][..j];
        }
      } else {
        if !Loses(s, steps[0], id) { InHandStays(s, steps[0], id); }
        assert steps[..0] == [];
      }
    }
  }

  // ---------------------------------------------------------------- an insert after its guard lapsed

  lemma {:induction false} Extend(s: Bucket, steps: seq<Step>, step: Step)
    requires Possible(s, steps) && Enabled(After(s, steps), step)
    ensures Possible(s, steps + [step]) && After(s, steps + [step]) == Apply(After(s, steps), step)
    decreases |steps|
  {
    if steps == [] {
      assert steps + [step] == [step] && [step][1..] == [];
    } else {
      Extend(Apply(s, steps[0]), steps[1..], step);
      assert (steps + [step])[1..] == steps[1..] + [step];
    }
  }

  /** A caller stalls between its second read and its insert; the guard expires; another caller gets as far. */
  lemma BothInserting() returns (steps: seq<Step>)
    ensures Possible(Empty, steps)
    ensures After(Empty, steps)
            == Bucket(30, [], Some(Guard(1, 60)), map[0 := 1, 1 := 5], map[0 := Inserting, 1 := Inserting])
  {
    steps := [];
    Extend(Empty, steps, Add(0, 1)); steps := steps + [Add(0, 1)];
    Extend(Empty, steps, Read(0)); steps := steps + [Read(0)];
    Extend(Empty, steps, Claim(0)); steps := steps + [Claim(0)];
    Extend(Empty, steps, Recheck(0)); steps := steps + [Recheck(0)];
    assert After(Empty, steps) == Bucket(0, [], Some(Guard(0, 30)), map[0 := 1], map[0 := Inserting]);
    Extend(Empty, steps, Pass(30)); steps := steps + [Pass(30)];
    Extend(Empty, steps, Lapse); steps := steps + [Lapse];
    Extend(Empty, steps, Add(1, 5)); steps := steps + [Add(1, 5)];
    assert After(Empty, steps) == Bucket(30, [], None, map[0 := 1, 1 := 5], map[0 := Inserting, 1 := First]);
    Extend(Empty, steps, Read(1)); steps := steps + [Read(1)];
    Extend(Empty, steps, Claim(1)); steps := steps + [Claim(1)];
    Extend(Empty, steps, Recheck(1)); steps := steps + [Recheck(1)];
  }

  /** Both insert, and the next add is written into both rows: 7 was added, 12 is listed. */
  lemma LateInsertInvents() returns (steps: seq<Step>)
    ensures Possible(Empty, steps)
    ensures var s := After(Empty, steps); |s.rows| == 2 && Total(s.added) == 7 && Listed(s.rows) == 12
  {
    steps := BothInserting();
    Extend(Empty, steps, Insert(1)); steps := steps + [Insert(1)];
    Extend(Empty, steps, Insert(0)); steps := steps + [Insert(0)];
    assert After(Empty, steps).rows == [Value(5, map[1 := 5]), Value(1, map[0 := 1])]
           && After(Empty, steps).calls == map[];
    Extend(Empty, steps, Add(2, 1)); steps := steps + [Add(2, 1)];
    Extend(Empty, steps, Read(2)); steps := steps + [Read(2)];
    assert After(Empty, steps).calls == map[2 := Writing(Value(5, map[1 := 5]))];
    Extend(Empty, steps, Write(2)); steps := steps + [Write(2)];
    var s := After(Empty, steps);
    assert s.rows == [Value(6, map[1 := 5, 2 := 1]), Value(6, map[1 := 5, 2 := 1])];
    assert Listed(s.rows[1..]) == 6 && s.rows[1..][1..] == [];
    ThreeAdds(s.added);
  }

  lemma ThreeAdds(added: map<Id, int>)
    requires added == map[0 := 1, 1 := 5, 2 := 1]
    ensures Total(added) == 7
  {
    TotalRemove(added, 0);
    TotalRemove(added - {0}, 1);
    TotalRemove(added - {0} - {1}, 2);
    TotalZero(added - {0} - {1} - {2});
  }

  /** Somebody else holds the guard and has found nothing twice: its insert will be on time. */
  predicate RivalInserting(s: Bucket, id: Id) {
    s.guard.Some? && s.guard.value.owner != id && s.guard.value.owner in s.calls
        && s.calls[s.guard.value.owner].Inserting?
  }

  ghost predicate Truthful(s: Bucket) {
    |s.rows| <= 1 && Listed(s.rows) <= Total(s.added)
  }

  lemma OneRowIsTruthful(s: Bucket)
    requires Inv(s)
    ensures Truthful(s)
  {
    if s.rows == [] {
      TotalNonNegative(s.added);
    } else {
      assert s.rows[0] in s.rows && Listed(s.rows[1..]) == 0;
      PartAtMost(s.rows[0].parts, s.added);
    }
  }

  lemma AlonePuts(s: Bucket, id: Id)
    requires Inv(s) && Enabled(s, Insert(id)) && s.rows == [] && !RivalInserting(s, id)
    ensures Inv(Apply(s, Insert(id)))
  {
    InsertedReal(id, s.added);
  }

  lemma Ahead(s: Bucket, step: Step, rest: seq<Step>)
    requires Enabled(s, step) && OnTime(s, step) && Possible(Apply(s, step), rest) && AllOnTime(Apply(s, step), rest)
    ensures var steps := [step] + rest;
            Possible(s, steps) && AllOnTime(s, steps) && After(s, steps) == After(Apply(s, step), rest)
  {
    assert ([step] + rest)[1..] == rest;
  }

  lemma NewId(s: Bucket, ids: set<Id>) returns (id: Id)
    requires ids == s.added.Keys
    ensures id !in s.added
  {
    id := Past(ids);
  }

  lemma {:induction false} Past(ids: set<Id>) returns (top: Id)
    ensures forall id <- ids :: id < top
  {
    if ids == {} { return 0; }
    var id :| id in ids;
    var rest := Past(ids - {id});
    assert forall other <- ids :: other == id || other in ids - {id};
    top := if id < rest then rest else id + 1;
  }

  /** With two rows the next add is written into both: a large one is listed twice. */
  lemma TwinsInvent(s: Bucket) returns (steps: seq<Step>)
    requires |s.rows| == 2 && s.rows[0].amount >= 0 && forall id <- s.added :: s.added[id] > 0
    ensures Possible(s, steps) && AllOnTime(s, steps) && !Truthful(After(s, steps))
  {
    var id := NewId(s, s.added.Keys);
    TotalNonNegative(s.added);
    var amount := Total(s.added) + 1;
    var asked := Apply(s, Add(id, amount));
    var read := Apply(asked, Read(id));
    var base := s.rows[0];
    assert read.calls[id] == Writing(base);
    var written := Apply(read, Write(id));
    TotalPut(s.added, s.added[id := amount], id);
    var value := Summed(base, id, amount);
    assert written.rows == [value, value] && written.rows[1..] == [value] && [value][1..] == [];
    steps := [Add(id, amount)] + ([Read(id)] + ([Write(id)] + []));
    Ahead(read, Write(id), []);
    Ahead(asked, Read(id), [Write(id)] + []);
    Ahead(s, Add(id, amount), [Read(id)] + ([Write(id)] + []));
  }

  /** An insert that lands beside a row, or just before a rival's, leads to two. */
  lemma TwinsAhead(s: Bucket, id: Id) returns (steps: seq<Step>)
    requires Inv(s) && Enabled(s, Insert(id)) && (s.rows != [] || RivalInserting(s, id))
    ensures Possible(Apply(s, Insert(id)), steps) && AllOnTime(Apply(s, Insert(id)), steps)
    ensures !Truthful(After(Apply(s, Insert(id)), steps))
  {
    var t := Apply(s, Insert(id));
    if s.rows != [] {
      assert s.rows[0] in s.rows;
      PartsPositive(s.rows[0], s.added);
      steps := TwinsInvent(t);
    } else {
      var rival := s.guard.value.owner;
      var rest := TwinsInvent(Apply(t, Insert(rival)));
      Ahead(t, Insert(rival), rest);
      steps := [Insert(rival)] + rest;
    }
  }

  lemma PartsPositive(v: Value, added: map<Id, int>)
    requires Real(v, added) && forall id <- added :: added[id] > 0
    ensures v.amount >= 0
  {
    TotalNonNegative(v.parts);
  }

  /**
   From a sound bucket an insert, on time or not, leaves every on-time continuation with at most one row and a list that
   reports no more than was added, if and only if it lands in an empty bucket while nobody else stands before an insert
   of its own under the guard.
   */
  lemma InsertSafeIff(s: Bucket, id: Id)
    requires Inv(s) && Enabled(s, Insert(id)) && (s.guard.Some? ==> s.guard.value.owner in s.added)
    ensures var t := Apply(s, Insert(id));
            (forall steps :: Possible(t, steps) && AllOnTime(t, steps) ==> Truthful(After(t, steps)))
            <==> s.rows == [] && !RivalInserting(s, id)
  {
    var t := Apply(s, Insert(id));
    if s.rows == [] && !RivalInserting(s, id) {
      AlonePuts(s, id);
      forall steps | Possible(t, steps) && AllOnTime(t, steps) ensures Truthful(After(t, steps)) {
        RunKeeps(t, steps);
        OneRowIsTruthful(After(t, steps));
      }
    } else {
      var steps := TwinsAhead(s, id);
    }
  }
}

/** The store as one caller at a time uses it. */
module SpendObject {
  datatype Key = Key(kind: string, name: string, day: string)
  datatype Row = Row(key: Key, amount: int)

  predicate OneRowEach(rows: seq<Row>) {
    forall i, j :: 0 <= i < j < |rows| ==> rows[i].key != rows[j].key
  }

  /** The rows are the totals, one row per bucket. */
  ghost predicate Holds(rows: seq<Row>, totals: map<Key, int>) {
    && OneRowEach(rows)
    && (forall row <- rows :: row.key in totals && totals[row.key] == row.amount)
    && (forall key <- totals :: exists row <- rows :: row.key == key)
  }

  function SumFor(rows: seq<Row>, key: Key): int
    decreases |rows|
  {
    if rows == [] then 0
    else SumFor(rows[..|rows| - 1], key) + (if rows[|rows| - 1].key == key then rows[|rows| - 1].amount else 0)
  }

  function KeysOf(rows: seq<Row>): set<Key> {
    set row | row in rows :: row.key
  }

  lemma {:induction false} NoneFor(rows: seq<Row>, key: Key)
    requires key !in KeysOf(rows)
    ensures SumFor(rows, key) == 0
    decreases |rows|
  {
    if rows != [] {
      assert rows[|rows| - 1] in rows;
      NoneFor(rows[..|rows| - 1], key);
    }
  }

  lemma {:induction false} SumOfOne(rows: seq<Row>, row: Row)
    requires OneRowEach(rows) && row in rows
    ensures SumFor(rows, row.key) == row.amount
    decreases |rows|
  {
    var last := rows[|rows| - 1];
    assert rows == rows[..|rows| - 1] + [last];
    if row == last { NoneFor(rows[..|rows| - 1], row.key); } else { SumOfOne(rows[..|rows| - 1], row); }
  }

  lemma HoldsAfterWrite(rows: seq<Row>, totals: map<Key, int>, i: nat, amount: int)
    requires Holds(rows, totals) && i < |rows|
    ensures rows[i].key in totals && totals[rows[i].key] == rows[i].amount
    ensures var key := rows[i].key; Holds(rows[i := Row(key, rows[i].amount + amount)],
            totals[key := totals[key] + amount])
  {
    var key := rows[i].key;
    var after := rows[i := Row(key, rows[i].amount + amount)];
    forall k | k in totals ensures exists row <- after :: row.key == k {
      var row :| row in rows && row.key == k;
      var j :| 0 <= j < |rows| && rows[j] == row;
      assert after[j].key == k && after[j] in after;
    }
  }

  lemma HoldsAfterInsert(rows: seq<Row>, totals: map<Key, int>, key: Key, amount: int)
    requires Holds(rows, totals) && key !in totals
    ensures Holds(rows + [Row(key, amount)], totals[key := amount])
  {
    var after := rows + [Row(key, amount)];
    forall k: Key | k in totals.Keys + {key} ensures exists row <- after :: row.key == k {
      if k == key {
        assert after[|rows|] in after;
      } else {
        var row :| row in rows && row.key == k;
        assert row in after;
      }
    }
  }

  lemma Absent(rows: seq<Row>, totals: map<Key, int>, key: Key)
    requires Holds(rows, totals) && forall j :: 0 <= j < |rows| ==> rows[j].key != key
    ensures key !in totals
  {
    assert key in totals ==> exists row <- rows :: row.key == key;
  }

  class AttributedSpend {
    var rows: seq<Row>
    var guards: set<Key>
    /** Everything added so far, by bucket. */
    ghost var totals: map<Key, int>

    ghost predicate Valid()
      reads this
    {
      Holds(rows, totals) && guards <= totals.Keys
    }

    constructor ()
      ensures Valid() && totals == map[]
    {
      rows, guards, totals := [], {}, map[];
    }

    /** The index of the bucket's first row, or the number of rows. */
    method Find(key: Key) returns (i: nat)
      ensures i <= |rows| && (i < |rows| ==> rows[i].key == key) && forall j :: 0 <= j < i ==> rows[j].key != key
    {
      i := 0;
      while i < |rows| && rows[i].key != key
        invariant i <= |rows| && forall j :: 0 <= j < i ==> rows[j].key != key
      {
        i := i + 1;
      }
    }

    /** A guard that expired. */
    method Expire(key: Key)
      requires Valid()
      modifies this
      ensures Valid() && totals == old(totals)
    {
      guards := guards - {key};
    }

    method WriteRow(i: nat, amount: int)
      requires Valid() && i < |rows|
      modifies this`rows, this`totals
      ensures Valid() && |rows| == |old(rows)| && rows[i].key == old(rows[i].key) && rows[i].key in old(totals)
      ensures totals == old(totals)[rows[i].key := amount + old(totals)[rows[i].key]]
    {
      HoldsAfterWrite(rows, totals, i, amount);
      totals := totals[rows[i].key := totals[rows[i].key] + amount];
      rows := rows[i := Row(rows[i].key, rows[i].amount + amount)];
    }

    method InsertRow(key: Key, amount: int)
      requires Holds(rows, totals) && key !in totals && guards <= totals.Keys + {key}
      modifies this`rows, this`totals
      ensures Valid() && totals == old(totals)[key := amount]
    {
      HoldsAfterInsert(rows, totals, key, amount);
      rows := rows + [Row(key, amount)];
      totals := totals[key := amount];
    }

    method Add(key: Key, amount: int)
      requires Valid()
      modifies this
      ensures Valid()
      ensures totals == if amount > 0 then
              old(totals)[key := amount + (if key in old(totals) then old(totals)[key] else 0)]
                        else old(totals)
    {
      if !(amount > 0) { return; }
      var i := Find(key);
      if i < |rows| {
        WriteRow(i, amount);
        return;
      }
      Absent(rows, totals, key);
      // One caller at a time: a guard without a row, which would lose this add, cannot be met (`Valid`).
      if key !in guards {
        guards := guards + {key};
        InsertRow(key, amount);
      } else {
        assert false;
      }
    }

    /** Sums the rows of each bucket; run one after another, the adds are all reported, and nothing else. */
    method List() returns (entries: map<Key, int>)
      ensures entries.Keys == KeysOf(rows) && forall key <- entries :: entries[key] == SumFor(rows, key)
      ensures Valid() ==> entries == totals
    {
      entries := map[];
      for n := 0 to |rows|
        invariant entries.Keys == KeysOf(rows[..n]) && forall key <- entries :: entries[key] == SumFor(rows[..n], key)
      {
        var row := rows[n];
        assert rows[..n + 1][..n] == rows[..n] && rows[..n + 1] == rows[..n] + [row];
        if row.key in entries {
          entries := entries[row.key := entries[row.key] + row.amount];
        } else {
          NoneFor(rows[..n], row.key);
          entries := entries[row.key := row.amount];
        }
      }
      assert rows[..|rows|] == rows;
      if Valid() {
        forall key | key in totals ensures key in entries && entries[key] == totals[key] {
          var row :| row in rows && row.key == key;
          SumOfOne(rows, row);
        }
      }
    }
  }
}
