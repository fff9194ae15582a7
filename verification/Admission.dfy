/**
 Fleet admission: many workers race for named keys with set-if-absent, remember in memory what they took,
 and give it back with a value-conditional delete. Every store access is a step of its own.
 */
module AdmissionSteps {
  type Worker = nat
  type Run = string

  const SLOT_TTL_S := 300
  const LAUNCH_TTL_S := 48 * 60 * 60

  datatype Kind = Slots | Repos
  datatype Key = Slot(i: nat) | RepoLock(name: string) | Marker(day: string, source: string, n: nat)

  /** What one acquisition scans: `limit` slots, or one repository's lock. */
  datatype Pool = SlotPool(limit: nat) | RepoPool(name: string)

  function Size(p: Pool): nat {
    if p.SlotPool? then p.limit else 1
  }

  function KeyAt(p: Pool, i: nat): Key {
    if p.SlotPool? then Slot(i) else RepoLock(p.name)
  }

  function KindOf(p: Pool): Kind {
    if p.SlotPool? then Slots else Repos
  }

  /** A worker's memory entry for a run. */
  datatype Who = Who(w: Worker, kind: Kind, run: Run)

  /** `ticket` tells acquisitions apart; the store itself compares only `value`. */
  datatype Entry = Entry(value: Run, ticket: nat, until: nat)
  datatype Hold = Hold(key: Key, ticket: nat)

  datatype Call =
    | Scanning(who: Who, pool: Pool, at: nat)
    | Won(who: Who, hold: Hold)         // the store said yes; the worker has not noted it yet
    | Releasing(who: Who, hold: Hold)   // forgotten by the worker; the conditional delete is on its way
    | Counting(w: Worker, day: string, source: string, limit: nat, start: nat, mark: nat, again: bool)
    | Counted(w: Worker, day: string, source: string, n: nat)

  datatype Cursor = Cursor(w: Worker, day: string, source: string)

  /**
   `lapsed` and `evicted` are tickets lost to the TTL and to another acquisition's delete; `grants` counts launches.
   */
  datatype Fleet = Fleet(
    now: nat, kv: map<Key, Entry>, holds: map<Who, Hold>, cursors: map<Cursor, nat>, calls: map<nat, Call>,
    next: nat, lapsed: set<nat>, evicted: set<nat>, grants: map<(string, string), nat>)

  const Empty := Fleet(0, map[], map[], map[], map[], 0, {}, {}, map[])

  datatype Step =
    | Acquire(c: nat, w: Worker, run: Run, pool: Pool)
    | Try(c: nat)
    | Note(c: nat)
    | Forget(c: nat, who: Who)
    | Delete(c: nat, reaches: bool)
    | Renew(who: Who)
    | Crash(w: Worker)
    | Pass(seconds: nat)
    | Lapse(key: Key)
    | AskLaunch(c: nat, w: Worker, day: string, source: string, limit: nat)
    | TryLaunch(c: nat)
    | NoteLaunch(c: nat)

  function WorkerOf(c: Call): Worker {
    match c
    case Scanning(who, _, _) => who.w
    case Won(who, _) => who.w
    case Releasing(who, _) => who.w
    case Counting(w, _, _, _, _, _, _) => w
    case Counted(w, _, _, _) => w
  }

  predicate Enabled(s: Fleet, step: Step) {
    match step
    case Acquire(c, w, run, pool) => c !in s.calls && Who(w, KindOf(pool), run) !in s.holds && Size(pool) > 0
    case Try(c) => c in s.calls && s.calls[c].Scanning? && s.calls[c].at < Size(s.calls[c].pool)
    case Note(c) => c in s.calls && s.calls[c].Won?
    case Forget(c, who) => c !in s.calls && who in s.holds
    case Delete(c, _) => c in s.calls && s.calls[c].Releasing?
    case Renew(who) => who in s.holds
    case Crash(_) => true
    case Pass(_) => true
    case Lapse(key) => key in s.kv && s.kv[key].until <= s.now
    case AskLaunch(c, w, day, source, limit) => c !in s.calls && limit > 0
    case TryLaunch(c) => c in s.calls && s.calls[c].Counting?
    case NoteLaunch(c) => c in s.calls && s.calls[c].Counted?
  }

  /** Set-if-absent on the next key of the scan. */
  function TryStep(s: Fleet, c: nat): Fleet
    requires Enabled(s, Try(c))
  {
    var call := s.calls[c];
    var key := KeyAt(call.pool, call.at);
    if key !in s.kv then
      s.(kv := s.kv[key := Entry(call.who.run, s.next, s.now + SLOT_TTL_S)],
         calls := s.calls[c := Won(call.who, Hold(key, s.next))], next := s.next + 1)
    else if call.at + 1 < Size(call.pool) then s.(calls := s.calls[c := Scanning(call.who, call.pool, call.at + 1)])
    else s.(calls := s.calls - {c})
  }

  function NoteStep(s: Fleet, c: nat): Fleet
    requires Enabled(s, Note(c))
  {
    s.(holds := s.holds[s.calls[c].who := s.calls[c].hold], calls := s.calls - {c})
  }

  function ForgetStep(s: Fleet, c: nat, who: Who): Fleet
    requires Enabled(s, Forget(c, who))
  {
    s.(holds := s.holds - {who}, calls := s.calls[c := Releasing(who, s.holds[who])])
  }

  /** The value the store holds under a key is this run's. */
  predicate Matches(s: Fleet, key: Key, run: Run) {
    key in s.kv && s.kv[key].value == run
  }

  function DeleteStep(s: Fleet, c: nat, reaches: bool): Fleet
    requires Enabled(s, Delete(c, reaches))
  {
    var call := s.calls[c];
    if reaches && Matches(s, call.hold.key, call.who.run) then
      s.(kv := s.kv - {call.hold.key}, calls := s.calls - {c},
         evicted := if s.kv[call.hold.key].ticket != call.hold.ticket then s.evicted + {s.kv[call.hold.key].ticket}
             else s.evicted)
    else s.(calls := s.calls - {c})
  }

  function RenewStep(s: Fleet, who: Who): Fleet
    requires Enabled(s, Renew(who))
  {
    var key := s.holds[who].key;
    if Matches(s, key, who.run) then s.(kv := s.kv[key := s.kv[key].(until := s.now + SLOT_TTL_S)]) else s
  }

  function CrashStep(s: Fleet, w: Worker): Fleet {
    s.(holds := map who | who in s.holds && who.w != w :: s.holds[who],
       calls := map c | c in s.calls && WorkerOf(s.calls[c]) != w :: s.calls[c],
       cursors := map k | k in s.cursors && k.w != w :: s.cursors[k])
  }

  function CursorAt(s: Fleet, w: Worker, day: string, source: string): nat {
    var k := Cursor(w, day, source);
    if k in s.cursors then s.cursors[k] else 0
  }

  function Granted(s: Fleet, day: string, source: string): nat {
    if (day, source) in s.grants then s.grants[(day, source)] else 0
  }

  function SetMarker(s: Fleet, call: Call): Fleet
    requires call.Counting?
  {
    s.(kv := s.kv[Marker(call.day, call.source, call.mark) := Entry("1", s.next, s.now + LAUNCH_TTL_S)],
        next := s.next + 1,
       grants := s.grants[(call.day, call.source) := Granted(s, call.day, call.source) + 1])
  }

  /** First from the cursor to the limit, then once more from zero to the cursor. */
  function TryLaunchStep(s: Fleet, c: nat): Fleet
    requires Enabled(s, TryLaunch(c))
  {
    var call := s.calls[c];
    var key := Marker(call.day, call.source, call.mark);
    if !call.again then
      if call.mark >= call.limit then s.(calls := s.calls[c := call.(mark := 0, again := true)])
      else if key in s.kv then s.(calls := s.calls[c := call.(mark := call.mark + 1)])
      else SetMarker(s, call).(calls := s.calls[c := Counted(call.w, call.day, call.source, call.mark)])
    else
      if call.mark >= call.start then
        s.(cursors := s.cursors[Cursor(call.w, call.day, call.source) := call.limit], calls := s.calls - {c})
      else if key in s.kv then s.(calls := s.calls[c := call.(mark := call.mark + 1)])
      else SetMarker(s, call).(calls := s.calls - {c})
  }

  function NoteLaunchStep(s: Fleet, c: nat): Fleet
    requires Enabled(s, NoteLaunch(c))
  {
    var call := s.calls[c];
    s.(cursors := s.cursors[Cursor(call.w, call.day, call.source) := call.n + 1], calls := s.calls - {c})
  }

  function Apply(s: Fleet, step: Step): Fleet
    requires Enabled(s, step)
  {
    match step
    case Acquire(c, w, run, pool) => s.(calls := s.calls[c := Scanning(Who(w, KindOf(pool), run), pool, 0)])
    case Try(c) => TryStep(s, c)
    case Note(c) => NoteStep(s, c)
    case Forget(c, who) => ForgetStep(s, c, who)
    case Delete(c, reaches) => DeleteStep(s, c, reaches)
    case Renew(who) => RenewStep(s, who)
    case Crash(w) => CrashStep(s, w)
    case Pass(seconds) => s.(now := s.now + seconds)
    case Lapse(key) => s.(kv := s.kv - {key}, lapsed := s.lapsed + {s.kv[key].ticket})
    case AskLaunch(c, w, day, source, limit) =>
      var start := CursorAt(s, w, day, source);
      s.(calls := s.calls[c := Counting(w, day, source, limit, start, start, false)])
    case TryLaunch(c) => TryLaunchStep(s, c)
    case NoteLaunch(c) => NoteLaunchStep(s, c)
  }

  predicate Possible(s: Fleet, steps: seq<Step>)
    decreases |steps|
  {
    steps == [] || (Enabled(s, steps[0]) && Possible(Apply(s, steps[0]), steps[1..]))
  }

  function After(s: Fleet, steps: seq<Step>): Fleet
    requires Possible(s, steps)
    decreases |steps|
  {
    if steps == [] then s else After(Apply(s, steps[0]), steps[1..])
  }
}
