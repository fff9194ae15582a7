/** Base64 as the artifact store uses it: three bytes become four digits, the last group padded. */
module Base64 {
  type Byte = x: int | 0 <= x < 256
  type Sextet = x: int | 0 <= x < 64

  function Digit(v: Sextet): (c: char)
    ensures c != '=' && Value(c) == v
  {
    if v < 26 then ('A' as int + v) as char
    else if v < 52 then ('a' as int + v - 26) as char
    else if v < 62 then ('0' as int + v - 52) as char
    else if v == 62 then '+' else '/'
  }

  function Value(c: char): Sextet {
    if 'A' <= c <= 'Z' then c as int - 'A' as int
    else if 'a' <= c <= 'z' then c as int - 'a' as int + 26
    else if '0' <= c <= '9' then c as int - '0' as int + 52
    else if c == '+' then 62 else 63
  }

  function Encode(b: seq<Byte>): (s: string)
    ensures |s| == (|b| + 2) / 3 * 4
    decreases |b|
  {
    if |b| == 0 then ""
    else if |b| == 1 then [Digit(b[0] / 4), Digit(b[0] % 4 * 16), '=', '=']
    else if |b| == 2 then [Digit(b[0] / 4), Digit(b[0] % 4 * 16 + b[1] / 16), Digit(b[1] % 16 * 4), '=']
    else
      [Digit(b[0] / 4), Digit(b[0] % 4 * 16 + b[1] / 16), Digit(b[1] % 16 * 4 + b[2] / 64), Digit(b[2] % 64)]
      + Encode(b[3..])
  }

  function Decode(s: string): seq<Byte>
    decreases |s|
  {
    if |s| < 4 then []
    else
      var first := (Value(s[0]) * 4 + Value(s[1]) / 16) % 256;
      var second := (Value(s[1]) % 16 * 16 + Value(s[2]) / 4) % 256;
      var third := (Value(s[2]) % 4 * 64 + Value(s[3])) % 256;
      if s[2] == '=' then [first] else if s[3] == '=' then [first, second] else [first, second, third] + Decode(s[4..])
  }

  /** Three bytes are worked out again from the four values they were cut into. */
  lemma Group(a: Byte, b: Byte, c: Byte)
    ensures var v0 := a / 4; var v1 := a % 4 * 16 + b / 16; var v2 := b % 16 * 4 + c / 64; var v3 := c % 64;
            && 0 <= v0 < 64 && 0 <= v1 < 64 && 0 <= v2 < 64 && 0 <= v3 < 64
            && v0 * 4 + v1 / 16 == a && v1 % 16 * 16 + v2 / 4 == b && v2 % 4 * 64 + v3 == c
  {
    assert (a % 4 * 16 + b / 16) / 16 == a % 4 && (a % 4 * 16 + b / 16) % 16 == b / 16;
    assert (b % 16 * 4 + c / 64) / 4 == b % 16 && (b % 16 * 4 + c / 64) % 4 == c / 64;
  }

  /** Four digits, none of them padding, give three bytes. */
  lemma FourDigits(v0: Sextet, v1: Sextet, v2: Sextet, v3: Sextet, s: string, rest: string)
    requires s == [Digit(v0), Digit(v1), Digit(v2), Digit(v3)] + rest
    ensures Decode(s) == [(v0 * 4 + v1 / 16) % 256, (v1 % 16 * 16 + v2 / 4) % 256, (v2 % 4 * 64 + v3) % 256]
            + Decode(rest)
  {
    assert s[0] == Digit(v0) && s[1] == Digit(v1) && s[2] == Digit(v2) && s[3] == Digit(v3) && s[4..] == rest;
  }

  lemma GroupBack(a: Byte, b: Byte, c: Byte, s: string, rest: string)
    requires s == [Digit(a / 4), Digit(a % 4 * 16 + b / 16), Digit(b % 16 * 4 + c / 64), Digit(c % 64)] + rest
    ensures Decode(s) == [a, b, c] + Decode(rest)
  {
    Group(a, b, c);
    var v0: Sextet, v1: Sextet, v2: Sextet, v3: Sextet := a / 4, a % 4 * 16 + b / 16, b % 16 * 4 + c / 64, c % 64;
    FourDigits(v0, v1, v2, v3, s, rest);
    assert v0 * 4 + v1 / 16 == a && v1 % 16 * 16 + v2 / 4 == b && v2 % 4 * 64 + v3 == c;
    Small(a);
    Small(b);
    Small(c);
  }

  lemma Small(a: Byte)
    ensures a % 256 == a
  {
  }

  lemma OneBack(a: Byte, s: string)
    requires s == [Digit(a / 4), Digit(a % 4 * 16), '=', '=']
    ensures Decode(s) == [a]
  {
    Group(a, 0, 0);
    assert Value(s[0]) == a / 4 && Value(s[1]) == a % 4 * 16 && s[2] == '=';
  }

  lemma TwoBack(a: Byte, b: Byte, s: string)
    requires s == [Digit(a / 4), Digit(a % 4 * 16 + b / 16), Digit(b % 16 * 4), '=']
    ensures Decode(s) == [a, b]
  {
    Group(a, b, 0);
    assert Value(s[0]) == a / 4 && Value(s[1]) == a % 4 * 16 + b / 16 && Value(s[2]) == b % 16 * 4 && s[2] != '='
           && s[3] == '=';
  }

  lemma {:induction false} RoundTrip(b: seq<Byte>)
    ensures Decode(Encode(b)) == b
    decreases |b|
  {
    if |b| >= 3 {
      RoundTrip(b[3..]);
      GroupBack(b[0], b[1], b[2], Encode(b), Encode(b[3..]));
      assert b == [b[0], b[1], b[2]] + b[3..];
    } else if |b| == 2 {
      TwoBack(b[0], b[1], Encode(b));
    } else if |b| == 1 {
      OneBack(b[0], Encode(b));
    }
  }
}

/** Chunked artifacts: every chunk is written before the manifest that names them. */
module ArtifactSpec {
  import opened Options
  import opened Base64

  type Id = string
  type Digest = string

  const SIZE: nat := 8192
  const MAX_BYTES: nat := 4 * 1024 * 1024
  const MAX_CHUNKS: nat := 683

  datatype Artifact = Artifact(id: Id, name: string, bytes: seq<Byte>, digest: Option<Digest>, expiresAt: Option<nat>)
  datatype Manifest = Manifest(name: string, bytes: nat, digest: Option<Digest>, expiresAt: Option<nat>, chunks: nat)
  datatype Key = ChunkKey(id: Id, i: nat) | ManifestKey(id: Id)
  datatype Value = Text(text: string) | Meta(manifest: Manifest)

  type Table = map<Key, Value>

  function ChunkCount(length: nat): nat {
    (length + SIZE - 1) / SIZE
  }

  function Min(a: nat, b: nat): nat {
    if a <= b then a else b
  }

  /** The `i`-th chunk of a text. */
  function Piece(data: string, i: nat): string {
    data[Min(i * SIZE, |data|)..Min((i + 1) * SIZE, |data|)]
  }

  function ManifestOf(a: Artifact): Manifest {
    Manifest(a.name, |a.bytes|, a.digest, a.expiresAt, ChunkCount(|Encode(a.bytes)|))
  }

  /** The size the writer accepts. */
  predicate Acceptable(a: Artifact) {
    1 <= |a.bytes| <= MAX_BYTES
  }

  predicate Expired(expiresAt: Option<nat>, now: nat) {
    expiresAt.Some? && expiresAt.value <= now
  }

  datatype Outcome = Null | Got(name: string, bytes: seq<Byte>) | Broken

  /** The end of a read: the bytes must have the recorded length and digest. */
  function Checked(hash: seq<Byte> -> Digest, id: Id, m: Manifest, data: string): Outcome {
    var bytes := Decode(data);
    if |bytes| == m.bytes && hash(bytes) == (if m.digest.Some? then m.digest.value else id) then Got(m.name, bytes)
        else Broken
  }

  // ---------------------------------------------------------------- concurrent writers, readers and pruning

  datatype Call =
    | Storing(a: Artifact, done: nat)
    | Reading(id: Id, m: Manifest, i: nat, data: string)
    | Pruning(id: Id, chunks: nat, i: nat)

  /** `expiry`: the index of temporary artifacts. `pruned`: ids a prune has started on. */
  datatype Store = Store(now: nat, table: Table, expiry: map<Id, (nat, nat)>, calls: map<nat, Call>,
      results: map<nat, Outcome>, pruned: set<Id>)

  const Empty := Store(0, map[], map[], map[], map[], {})

  datatype Step =
    | Put(c: nat, a: Artifact)
    | Write(c: nat)
    | Get(c: nat, id: Id)
    | Read(c: nat)
    | Prune(c: nat, id: Id)
    | Delete(c: nat)
    | Crash(c: nat)
    | Pass(seconds: nat)

  predicate Enabled(s: Store, step: Step) {
    match step
    case Put(c, a) => c !in s.calls && c !in s.results && Acceptable(a)
    case Write(c) => c in s.calls && s.calls[c].Storing?
    case Get(c, _) => c !in s.calls && c !in s.results
    case Read(c) => c in s.calls && s.calls[c].Reading?
    case Prune(c, id) => c !in s.calls && c !in s.results && id in s.expiry && s.expiry[id].0 < s.now
    case Delete(c) => c in s.calls && s.calls[c].Pruning?
    case Crash(c) => c in s.calls
    case Pass(_) => true
  }

  function PutStep(s: Store, c: nat, a: Artifact): Store {
    s.(calls := s.calls[c := Storing(a, 0)],
       expiry := if a.expiresAt.Some? then s.expiry[a.id := (a.expiresAt.value, ChunkCount(|Encode(a.bytes)|))]
           else s.expiry)
  }

  /** The chunks in order, the manifest last. */
  function WriteStep(s: Store, c: nat): Store
    requires Enabled(s, Write(c))
  {
    var a := s.calls[c].a;
    var k := s.calls[c].done;
    var data := Encode(a.bytes);
    if k < ChunkCount(|data|) then
      s.(table := s.table[ChunkKey(a.id, k) := Text(Piece(data, k))], calls := s.calls[c := Storing(a, k + 1)])
    else s.(table := s.table[ManifestKey(a.id) := Meta(ManifestOf(a))], calls := s.calls - {c})
  }

  function Ended(s: Store, c: nat, outcome: Outcome): Store {
    s.(calls := s.calls - {c}, results := s.results[c := outcome])
  }

  function GetStep(s: Store, c: nat, id: Id): Store {
    var key := ManifestKey(id);
    if key !in s.table || !s.table[key].Meta? then Ended(s, c, Null)
    else
      var m := s.table[key].manifest;
      if Expired(m.expiresAt, s.now) then Ended(s, c, Null)
      else if !(1 <= m.chunks <= MAX_CHUNKS) then Ended(s, c, Broken)
      else s.(calls := s.calls[c := Reading(id, m, 0, "")])
  }

  function ReadStep(hash: seq<Byte> -> Digest, s: Store, c: nat): Store
    requires Enabled(s, Read(c))
  {
    var call := s.calls[c];
    if call.i >= call.m.chunks then Ended(s, c, Checked(hash, call.id, call.m, call.data))
    else
      var key := ChunkKey(call.id, call.i);
      if key in s.table && s.table[key].Text?
      then s.(calls := s.calls[c := Reading(call.id, call.m, call.i + 1, call.data + s.table[key].text)])
      else Ended(s, c, Broken)
  }

  /** The chunks first, then the manifest and the index row. */
  function DeleteStep(s: Store, c: nat): Store
    requires Enabled(s, Delete(c))
  {
    var call := s.calls[c];
    if call.i < call.chunks then
      s.(table := s.table - {ChunkKey(call.id, call.i)},
          calls := s.calls[c := Pruning(call.id, call.chunks, call.i + 1)])
    else s.(table := s.table - {ManifestKey(call.id)}, expiry := s.expiry - {call.id}, calls := s.calls - {c})
  }

  function Apply(hash: seq<Byte> -> Digest, s: Store, step: Step): Store
    requires Enabled(s, step)
  {
    match step
    case Put(c, a) => PutStep(s, c, a)
    case Write(c) => WriteStep(s, c)
    case Get(c, id) => GetStep(s, c, id)
    case Read(c) => ReadStep(hash, s, c)
    case Prune(c, id) => s.(calls := s.calls[c := Pruning(id, s.expiry[id].1, 0)], pruned := s.pruned + {id})
    case Delete(c) => DeleteStep(s, c)
    case Crash(c) => s.(calls := s.calls - {c})
    case Pass(seconds) => s.(now := s.now + seconds)
  }

  predicate Possible(hash: seq<Byte> -> Digest, s: Store, steps: seq<Step>)
    decreases |steps|
  {
    steps == [] || (Enabled(s, steps[0]) && Possible(hash, Apply(hash, s, steps[0]), steps[1..]))
  }

  function After(hash: seq<Byte> -> Digest, s: Store, steps: seq<Step>): Store
    requires Possible(hash, s, steps)
    decreases |steps|
  {
    if steps == [] then s else After(hash, Apply(hash, s, steps[0]), steps[1..])
  }
}

/** A reader sees nothing or everything. */
module ArtifactTheorems {
  import opened Options
  import opened Base64
  import opened ArtifactSpec

  // ---------------------------------------------------------------- sizes and pieces

  /** Everything the writer accepts has between one and 683 chunks, and 683 is reached: the reader's bound is exact. */
  lemma BoundIsExact(a: Artifact)
    requires Acceptable(a)
    ensures 1 <= ChunkCount(|Encode(a.bytes)|) <= MAX_CHUNKS
    ensures |a.bytes| == MAX_BYTES ==> ChunkCount(|Encode(a.bytes)|) == MAX_CHUNKS
  {
  }

  lemma PieceExtends(data: string, i: nat)
    requires i < ChunkCount(|data|)
    ensures data[..Min(i * SIZE, |data|)] + Piece(data, i) == data[..Min((i + 1) * SIZE, |data|)]
  {
  }

  lemma PiecesCover(data: string)
    ensures Min(ChunkCount(|data|) * SIZE, |data|) == |data|
  {
  }

  /** The bytes an id stands for, with the digest that is checked on reading. */
  predicate Named(hash: seq<Byte> -> Digest, content: map<Id, seq<Byte>>, a: Artifact) {
    && a.id in content && content[a.id] == a.bytes
    && hash(a.bytes) == (if a.digest.Some? then a.digest.value else a.id)
  }

  predicate AllNamed(hash: seq<Byte> -> Digest, content: map<Id, seq<Byte>>, steps: seq<Step>) {
    forall step <- steps :: step.Put? ==> Named(hash, content, step.a)
  }

  // ---------------------------------------------------------------- the invariant

  predicate Right(hash: seq<Byte> -> Digest, content: map<Id, seq<Byte>>, id: Id, m: Manifest) {
    && id in content && 1 <= |content[id]| <= MAX_BYTES
    && m.bytes == |content[id]| && m.chunks == ChunkCount(|Encode(content[id])|)
    && hash(content[id]) == (if m.digest.Some? then m.digest.value else id)
  }

  ghost predicate Chunks(table: Table, id: Id, n: nat) {
    forall i: nat {:trigger ChunkKey(id, i)} :: i < n ==> ChunkKey(id, i) in table
  }

  /** Whatever chunk is in the table is the right one. */
  ghost predicate PiecesRight(content: map<Id, seq<Byte>>, table: Table) {
    forall key <- table :: key.ChunkKey? ==>
        key.id in content && table[key] == Text(Piece(Encode(content[key.id]), key.i))
  }

  ghost predicate CallOk(hash: seq<Byte> -> Digest, content: map<Id, seq<Byte>>, s: Store, call: Call) {
    match call
    case Storing(a, done) =>
      Named(hash, content, a) && Acceptable(a) && done <= ChunkCount(|Encode(a.bytes)|)
      && (a.id !in s.pruned ==> Chunks(s.table, a.id, done))
    case Reading(id, m, i, data) =>
      Right(hash, content, id, m) && i <= m.chunks
          && data == Encode(content[id])[..Min(i * SIZE, |Encode(content[id])|)]
      && (id !in s.pruned ==> Chunks(s.table, id, m.chunks))
    case Pruning(id, _, _) => id in s.pruned
  }

  ghost predicate ManifestOk(hash: seq<Byte> -> Digest, content: map<Id, seq<Byte>>, s: Store, id: Id) {
    ManifestKey(id) in s.table ==>
      && s.table[ManifestKey(id)].Meta? && Right(hash, content, id, s.table[ManifestKey(id)].manifest)
      && (id !in s.pruned ==> Chunks(s.table, id, s.table[ManifestKey(id)].manifest.chunks))
  }

  ghost predicate Inv(hash: seq<Byte> -> Digest, content: map<Id, seq<Byte>>, s: Store) {
    && PiecesRight(content, s.table)
    && (forall id :: ManifestOk(hash, content, s, id))
    && (forall c <- s.calls :: CallOk(hash, content, s, s.calls[c]))
  }

  /** A table that keeps every chunk of every id not pruned keeps the invariant for what did not change. */
  predicate KeepsChunks(before: Store, after: Store) {
    && before.pruned <= after.pruned
    && (forall key <- before.table :: key.ChunkKey? && key.id !in after.pruned ==> key in after.table)
  }

  lemma CallStays(hash: seq<Byte> -> Digest, content: map<Id, seq<Byte>>, s: Store, t: Store, call: Call)
    requires CallOk(hash, content, s, call) && KeepsChunks(s, t)
    ensures CallOk(hash, content, t, call)
  {
  }

  lemma ManifestStays(hash: seq<Byte> -> Digest, content: map<Id, seq<Byte>>, s: Store, t: Store, id: Id)
    requires ManifestOk(hash, content, s, id) && KeepsChunks(s, t)
    requires ManifestKey(id) in t.table ==>
             ManifestKey(id) in s.table && t.table[ManifestKey(id)] == s.table[ManifestKey(id)]
    ensures ManifestOk(hash, content, t, id)
  {
  }

  /** Calls that stay, and manifests that stay or go, are kept when chunks are. */
  lemma Carry(hash: seq<Byte> -> Digest, content: map<Id, seq<Byte>>, s: Store, t: Store)
    requires Inv(hash, content, s) && KeepsChunks(s, t) && PiecesRight(content, t.table)
    requires forall id :: ManifestKey(id) in t.table ==>
             ManifestKey(id) in s.table && t.table[ManifestKey(id)] == s.table[ManifestKey(id)]
    requires forall c <- t.calls :: (c in s.calls && t.calls[c] == s.calls[c]) || CallOk(hash, content, t, t.calls[c])
    ensures Inv(hash, content, t)
  {
    forall id ensures ManifestOk(hash, content, t, id) { ManifestStays(hash, content, s, t, id); }
    forall c | c in t.calls ensures CallOk(hash, content, t, t.calls[c]) {
      if c in s.calls && t.calls[c] == s.calls[c] { CallStays(hash, content, s, t, s.calls[c]); }
    }
  }

  lemma WriteChunk(hash: seq<Byte> -> Digest, content: map<Id, seq<Byte>>, s: Store, c: nat)
    requires Inv(hash, content, s) && Enabled(s, Write(c)) && s.calls[c].done < ChunkCount(|Encode(s.calls[c].a.bytes)|)
    ensures Inv(hash, content, WriteStep(s, c))
  {
    assert CallOk(hash, content, s, s.calls[c]);
    var t := WriteStep(s, c);
    var a, k := s.calls[c].a, s.calls[c].done;
    ChunkRight(content, s.table, a, k);
    assert CallOk(hash, content, t, Storing(a, k + 1)) by { CallStays(hash, content, s, t, s.calls[c]); }
    Carry(hash, content, s, t);
  }

  lemma ChunkRight(content: map<Id, seq<Byte>>, table: Table, a: Artifact, k: nat)
    requires PiecesRight(content, table) && a.id in content && content[a.id] == a.bytes
    ensures PiecesRight(content, table[ChunkKey(a.id, k) := Text(Piece(Encode(a.bytes), k))])
  {
  }

  lemma WriteManifest(hash: seq<Byte> -> Digest, content: map<Id, seq<Byte>>, s: Store, c: nat)
    requires Inv(hash, content, s) && Enabled(s, Write(c))
             && s.calls[c].done >= ChunkCount(|Encode(s.calls[c].a.bytes)|)
    ensures Inv(hash, content, WriteStep(s, c))
  {
    assert CallOk(hash, content, s, s.calls[c]);
    var a := s.calls[c].a;
    var t := WriteStep(s, c);
    forall id ensures ManifestOk(hash, content, t, id) {
      if id != a.id { ManifestStays(hash, content, s, t, id); }
    }
    forall d | d in t.calls ensures CallOk(hash, content, t, t.calls[d]) { CallStays(hash, content, s, t, s.calls[d]); }
  }

  lemma GetKeeps(hash: seq<Byte> -> Digest, content: map<Id, seq<Byte>>, s: Store, c: nat, id: Id)
    requires Inv(hash, content, s) && Enabled(s, Get(c, id))
    ensures Inv(hash, content, GetStep(s, c, id))
    ensures c in GetStep(s, c, id).results ==> GetStep(s, c, id).results[c].Null?
  {
    assert ManifestOk(hash, content, s, id);
    var t := GetStep(s, c, id);
    if ManifestKey(id) in s.table {
      BoundIsExact(Artifact(id, "", content[id], None, None));
      assert Encode(content[id])[..0] == "";
    }
    Carry(hash, content, s, t);
  }

  lemma ReadOn(hash: seq<Byte> -> Digest, content: map<Id, seq<Byte>>, s: Store, t: Store, call: Call, next: Call)
    requires call.Reading? && CallOk(hash, content, s, call) && PiecesRight(content, s.table) && t.table == s.table
             && t.pruned == s.pruned
    requires call.i < call.m.chunks && ChunkKey(call.id, call.i) in s.table && s.table[ChunkKey(call.id, call.i)].Text?
    requires next == Reading(call.id, call.m, call.i + 1, call.data + s.table[ChunkKey(call.id, call.i)].text)
    ensures CallOk(hash, content, t, next)
  {
    PieceExtends(Encode(content[call.id]), call.i);
  }

  lemma ReadKeeps(hash: seq<Byte> -> Digest, content: map<Id, seq<Byte>>, s: Store, c: nat)
    requires Inv(hash, content, s) && Enabled(s, Read(c))
    ensures Inv(hash, content, ReadStep(hash, s, c))
  {
    var call := s.calls[c];
    assert CallOk(hash, content, s, call);
    var t := ReadStep(hash, s, c);
    if c in t.calls { ReadOn(hash, content, s, t, call, t.calls[c]); }
    Carry(hash, content, s, t);
  }

  lemma WholeTextChecks(hash: seq<Byte> -> Digest, content: map<Id, seq<Byte>>, call: Call)
    requires call.Reading? && Right(hash, content, call.id, call.m) && call.i == call.m.chunks
    requires call.data == Encode(content[call.id])[..Min(call.i * SIZE, |Encode(content[call.id])|)]
    ensures Checked(hash, call.id, call.m, call.data) == Got(call.m.name, content[call.id])
  {
    var data := Encode(content[call.id]);
    PiecesCover(data);
    assert data[..|data|] == data;
    RoundTrip(content[call.id]);
  }

  /** A read ends with the stored bytes, or finds a chunk gone of an id a prune has touched. */
  lemma ReadEnds(hash: seq<Byte> -> Digest, content: map<Id, seq<Byte>>, s: Store, c: nat)
    requires Inv(hash, content, s) && Enabled(s, Read(c)) && c in ReadStep(hash, s, c).results && c !in s.results
    ensures s.calls[c].id in content
    ensures ReadStep(hash, s, c).results[c] == Got(s.calls[c].m.name, content[s.calls[c].id])
            || (ReadStep(hash, s, c).results[c] == Broken && s.calls[c].id in s.pruned)
  {
    var call := s.calls[c];
    assert CallOk(hash, content, s, call);
    if call.i >= call.m.chunks {
      WholeTextChecks(hash, content, call);
    } else {
      assert Chunks(s.table, call.id, call.m.chunks) || call.id in s.pruned;
    }
  }

  lemma DeleteKeeps(hash: seq<Byte> -> Digest, content: map<Id, seq<Byte>>, s: Store, c: nat)
    requires Inv(hash, content, s) && Enabled(s, Delete(c))
    ensures Inv(hash, content, DeleteStep(s, c))
  {
    assert CallOk(hash, content, s, s.calls[c]);
    Carry(hash, content, s, DeleteStep(s, c));
  }

  lemma OtherKeeps(hash: seq<Byte> -> Digest, content: map<Id, seq<Byte>>, s: Store, step: Step)
    requires Inv(hash, content, s) && Enabled(s, step) && (step.Put? || step.Prune? || step.Crash? || step.Pass?)
    requires step.Put? ==> Named(hash, content, step.a)
    ensures Inv(hash, content, Apply(hash, s, step))
  {
    Carry(hash, content, s, Apply(hash, s, step));
  }

  lemma StepKeeps(hash: seq<Byte> -> Digest, content: map<Id, seq<Byte>>, s: Store, step: Step)
    requires Inv(hash, content, s) && Enabled(s, step) && (step.Put? ==> Named(hash, content, step.a))
    ensures Inv(hash, content, Apply(hash, s, step))
  {
    match step
    case Write(c) =>
      if s.calls[c].done < ChunkCount(|Encode(s.calls[c].a.bytes)|) {
        WriteChunk(hash, content, s, c);
      } else {
        WriteManifest(hash, content, s, c);
      }
    case Get(c, id) => GetKeeps(hash, content, s, c, id);
    case Read(c) => ReadKeeps(hash, content, s, c);
    case Delete(c) => DeleteKeeps(hash, content, s, c);
    case _ => OtherKeeps(hash, content, s, step);
  }

  // ---------------------------------------------------------------- main results

  lemma {:induction false} RunKeeps(hash: seq<Byte> -> Digest, content: map<Id, seq<Byte>>, s: Store, steps: seq<Step>)
    requires Inv(hash, content, s) && Possible(hash, s, steps) && AllNamed(hash, content, steps)
    ensures Inv(hash, content, After(hash, s, steps))
    decreases |steps|
  {
    if steps != [] {
      StepKeeps(hash, content, s, steps[0]);
      RunKeeps(hash, content, Apply(hash, s, steps[0]), steps[1..]);
    }
  }

  /**
   In every run of concurrent puts, reads, prunes and crashes, a read that ends does so with nothing, with exactly the
   bytes the id stands for, or, if a prune has touched the id, with the report of a broken artifact; never with other
   bytes.
   */
  lemma ReadsAreWhole(hash: seq<Byte> -> Digest, content: map<Id, seq<Byte>>, steps: seq<Step>, c: nat, last: Step)
    requires Possible(hash, Empty, steps) && AllNamed(hash, content, steps)
    requires var s := After(hash, Empty, steps);
             Enabled(s, last) && c !in s.results && c in Apply(hash, s, last).results
    ensures var s := After(hash, Empty, steps);
            || (last.Get? && Apply(hash, s, last).results[c].Null?)
            || (last == Read(c) && s.calls[c].id in content
                && (Apply(hash, s, last).results[c] == Got(s.calls[c].m.name, content[s.calls[c].id])
                    || (Apply(hash, s, last).results[c] == Broken && s.calls[c].id in s.pruned)))
  {
    var s := After(hash, Empty, steps);
    RunKeeps(hash, content, Empty, steps);
    match last
    case Get(d, id) => GetKeeps(hash, content, s, d, id);
    case Read(d) => ReadEnds(hash, content, s, c);
    case _ =>
  }

  /** The write that puts the artifact's manifest in place. */
  predicate WritesManifest(s: Store, step: Step, id: Id) {
    step.Write? && step.c in s.calls && s.calls[step.c].Storing? && s.calls[step.c].a.id == id
    && s.calls[step.c].done >= ChunkCount(|Encode(s.calls[step.c].a.bytes)|)
  }

  predicate NoManifestWritten(hash: seq<Byte> -> Digest, s: Store, steps: seq<Step>, id: Id)
    requires Possible(hash, s, steps)
    decreases |steps|
  {
    steps == [] || (!WritesManifest(s, steps[0], id)
        && NoManifestWritten(hash, Apply(hash, s, steps[0]), steps[1..], id))
  }

  /**
   In every run until an id's manifest is written, however many of its chunks are and by whomever, a read yields
   nothing.
   */
  lemma {:induction false} NothingBeforeManifest(hash: seq<Byte> -> Digest, s: Store, steps: seq<Step>, reader: nat,
      id: Id)
    requires ManifestKey(id) !in s.table && Possible(hash, s, steps) && NoManifestWritten(hash, s, steps, id)
    requires Enabled(After(hash, s, steps), Get(reader, id))
    ensures GetStep(After(hash, s, steps), reader, id) == Ended(After(hash, s, steps), reader, Null)
    decreases |steps|
  {
    if steps != [] { NothingBeforeManifest(hash, Apply(hash, s, steps[0]), steps[1..], reader, id); }
  }

  /** Once the manifest of an unexpired artifact is written, a read of it begins. */
  lemma ReadableAfterManifest(s: Store, c: nat, reader: nat)
    requires Enabled(s, Write(c)) && Acceptable(s.calls[c].a)
             && s.calls[c].done >= ChunkCount(|Encode(s.calls[c].a.bytes)|)
    requires !Expired(s.calls[c].a.expiresAt, s.now) && Enabled(WriteStep(s, c), Get(reader, s.calls[c].a.id))
    ensures var a := s.calls[c].a;
            GetStep(WriteStep(s, c), reader, a.id).calls[reader] == Reading(a.id, ManifestOf(a), 0, "")
  {
    BoundIsExact(s.calls[c].a);
  }

  // ---------------------------------------------------------------- a prune that overtakes a reader

  /** How the call ends in a run, if it does: None while it goes on, and when it crashes. */
  function Fate(hash: seq<Byte> -> Digest, s: Store, steps: seq<Step>, c: nat): Option<Outcome>
    requires Possible(hash, s, steps)
    decreases |steps|
  {
    if c !in s.calls then (if c in s.results then Some(s.results[c]) else None)
    else if steps == [] then None
    else Fate(hash, Apply(hash, s, steps[0]), steps[1..], c)
  }

  predicate DeletesOf(s: Store, step: Step, id: Id) {
    step.Delete? && step.c in s.calls && s.calls[step.c].Pruning? && s.calls[step.c].id == id
  }

  /** Nothing of the artifact is deleted. */
  predicate Undeleted(hash: seq<Byte> -> Digest, s: Store, steps: seq<Step>, id: Id)
    requires Possible(hash, s, steps)
    decreases |steps|
  {
    steps == [] || (!DeletesOf(s, steps[0], id) && Undeleted(hash, Apply(hash, s, steps[0]), steps[1..], id))
  }

  /** Every chunk from `i` on is there. */
  ghost predicate RestThere(table: Table, id: Id, i: nat, n: nat) {
    forall k: nat {:trigger ChunkKey(id, k)} :: i <= k < n ==> ChunkKey(id, k) in table
  }

  /** A call's id is given to no other call: a result is never there before its call ended. */
  predicate Apart(s: Store) {
    forall c <- s.calls :: c !in s.results
  }

  lemma ApartStep(hash: seq<Byte> -> Digest, s: Store, step: Step)
    requires Apart(s) && Enabled(s, step)
    ensures Apart(Apply(hash, s, step))
  {
  }

  lemma RestStays(hash: seq<Byte> -> Digest, s: Store, step: Step, id: Id, i: nat, n: nat)
    requires Enabled(s, step) && !DeletesOf(s, step, id) && RestThere(s.table, id, i, n)
    ensures RestThere(Apply(hash, s, step).table, id, i, n)
  {
  }

  lemma ReaderStep(hash: seq<Byte> -> Digest, content: map<Id, seq<Byte>>, s: Store, step: Step, c: nat)
    requires Inv(hash, content, s) && Apart(s) && c in s.calls && s.calls[c].Reading? && Enabled(s, step)
    requires RestThere(s.table, s.calls[c].id, s.calls[c].i, s.calls[c].m.chunks)
    ensures var t := Apply(hash, s, step); var call := s.calls[c];
            if c in t.calls then t.calls[c].Reading? && t.calls[c].id == call.id && t.calls[c].m == call.m
                && call.i <= t.calls[c].i
            else c in t.results ==> call.id in content && t.results[c] == Got(call.m.name, content[call.id])
  {
    if step == Read(c) {
      assert CallOk(hash, content, s, s.calls[c]);
      var call := s.calls[c];
      if call.i < call.m.chunks {
        assert ChunkKey(call.id, call.i) in s.table;
      } else {
        WholeTextChecks(hash, content, call);
      }
    }
  }

  /** With the rest of its chunks there and none deleted, a read ends with the exact bytes, if it ends. */
  lemma {:induction false} RestIsRead(hash: seq<Byte> -> Digest, content: map<Id, seq<Byte>>, s: Store,
      steps: seq<Step>, c: nat)
    requires Inv(hash, content, s) && Apart(s) && c in s.calls && s.calls[c].Reading?
    requires Possible(hash, s, steps) && AllNamed(hash, content, steps) && Undeleted(hash, s, steps, s.calls[c].id)
    requires RestThere(s.table, s.calls[c].id, s.calls[c].i, s.calls[c].m.chunks)
    ensures var fate := Fate(hash, s, steps, c);
            fate.Some? ==> s.calls[c].id in content && fate.value == Got(s.calls[c].m.name, content[s.calls[c].id])
    decreases |steps|
  {
    if steps != [] {
      var t := Apply(hash, s, steps[0]);
      StepKeeps(hash, content, s, steps[0]);
      ApartStep(hash, s, steps[0]);
      ReaderStep(hash, content, s, steps[0], c);
      RestStays(hash, s, steps[0], s.calls[c].id, s.calls[c].i, s.calls[c].m.chunks);
      if c in t.calls { RestIsRead(hash, content, t, steps[1..], c); }
    }
  }

  /** With a chunk missing, nothing but reading leads to a broken end. */
  lemma {:induction false} GapBreaks(hash: seq<Byte> -> Digest, s: Store, c: nat, k: nat) returns (steps: seq<Step>)
    requires c in s.calls && s.calls[c].Reading? && s.calls[c].i <= k < s.calls[c].m.chunks
    requires ChunkKey(s.calls[c].id, k) !in s.table
    ensures Possible(hash, s, steps) && Undeleted(hash, s, steps, s.calls[c].id)
            && Fate(hash, s, steps, c) == Some(Broken)
    ensures forall step <- steps :: step == Read(c)
    decreases k - s.calls[c].i
  {
    var t := ReadStep(hash, s, c);
    if c in t.calls {
      var rest := GapBreaks(hash, t, c, k);
      steps := [Read(c)] + rest;
      assert steps[1..] == rest;
    } else {
      steps := [Read(c)];
      assert steps[1..] == [];
    }
  }

  /**
   In any state a run of named artifacts can reach, a reader ends with the exact bytes, however it goes on as long as
   nothing more of the artifact is deleted, if and only if every chunk it has not read yet is still there.
   */
  lemma ReaderWholeIff(hash: seq<Byte> -> Digest, content: map<Id, seq<Byte>>, s: Store, c: nat)
    requires Inv(hash, content, s) && Apart(s) && c in s.calls && s.calls[c].Reading?
    ensures (forall steps ::
               Possible(hash, s, steps) && AllNamed(hash, content, steps) && Undeleted(hash, s, steps, s.calls[c].id)
               ==> Fate(hash, s, steps, c) != Some(Broken))
            <==> RestThere(s.table, s.calls[c].id, s.calls[c].i, s.calls[c].m.chunks)
  {
    var call := s.calls[c];
    if RestThere(s.table, call.id, call.i, call.m.chunks) {
      forall steps | Possible(hash, s, steps) && AllNamed(hash, content, steps) && Undeleted(hash, s, steps, call.id)
        ensures Fate(hash, s, steps, c) != Some(Broken)
      {
        RestIsRead(hash, content, s, steps, c);
      }
    } else {
      var k: nat :| call.i <= k < call.m.chunks && ChunkKey(call.id, k) !in s.table;
      var steps := GapBreaks(hash, s, c, k);
      assert AllNamed(hash, content, steps);
    }
  }

  /**
   So a prune's next delete breaks a reader of the same artifact that so far had everything before it, in some
   continuation that deletes nothing more, if and only if the index it deletes is one the reader has still to read.
   */
  lemma OvertakenIff(hash: seq<Byte> -> Digest, content: map<Id, seq<Byte>>, s: Store, p: nat, c: nat)
    requires Inv(hash, content, s) && Apart(s) && Enabled(s, Delete(p)) && Enabled(s, Read(c))
             && s.calls[c].id == s.calls[p].id
    requires RestThere(s.table, s.calls[c].id, s.calls[c].i, s.calls[c].m.chunks)
    ensures var t := DeleteStep(s, p);
            (exists steps :: Possible(hash, t, steps) && AllNamed(hash, content, steps)
                && Undeleted(hash, t, steps, s.calls[c].id)
               && Fate(hash, t, steps, c) == Some(Broken))
            <==> s.calls[p].i < s.calls[p].chunks && s.calls[c].i <= s.calls[p].i < s.calls[c].m.chunks
  {
    var t := DeleteStep(s, p);
    DeleteKeeps(hash, content, s, p);
    ApartStep(hash, s, Delete(p));
    assert t.calls[c] == s.calls[c];
    ReaderWholeIff(hash, content, t, c);
    if s.calls[p].i < s.calls[p].chunks && s.calls[c].i <= s.calls[p].i < s.calls[c].m.chunks {
      assert ChunkKey(s.calls[c].id, s.calls[p].i) !in t.table;
    }
  }

  lemma {:induction false} RunApart(hash: seq<Byte> -> Digest, s: Store, steps: seq<Step>)
    requires Apart(s) && Possible(hash, s, steps)
    ensures Apart(After(hash, s, steps))
    decreases |steps|
  {
    if steps != [] {
      ApartStep(hash, s, steps[0]);
      RunApart(hash, Apply(hash, s, steps[0]), steps[1..]);
    }
  }

  lemma Ahead(hash: seq<Byte> -> Digest, s: Store, step: Step, rest: seq<Step>)
    requires Enabled(s, step) && Possible(hash, Apply(hash, s, step), rest)
    ensures Possible(hash, s, [step] + rest) && After(hash, s, [step] + rest) == After(hash, Apply(hash, s, step), rest)
  {
    assert ([step] + rest)[1..] == rest;
  }

  /** One byte, kept for a second. */
  function Brief(hash: seq<Byte> -> Digest): Artifact {
    Artifact("t", "n", [0], Some(hash([0])), Some(1))
  }

  /** A temporary artifact is stored and a read of it begins. */
  lemma StoredAndRead(hash: seq<Byte> -> Digest) returns (steps: seq<Step>)
    ensures Possible(hash, Empty, steps) && AllNamed(hash, map["t" := [0]], steps)
    ensures var s := After(hash, Empty, steps);
            && s.now == 0 && s.expiry == map["t" := (1, 1)] && s.results == map[]
            && s.calls == map[1 := Reading("t", ManifestOf(Brief(hash)), 0, "")] && ManifestOf(Brief(hash)).chunks == 1
  {
    var a := Brief(hash);
    assert |Encode(a.bytes)| == 4;
    var s1 := Apply(hash, Empty, Put(0, a));
    var s2 := Apply(hash, s1, Write(0));
    assert s2.calls == map[0 := Storing(a, 1)];
    var s3 := Apply(hash, s2, Write(0));
    assert s3.calls == map[] && s3.table[ManifestKey("t")] == Meta(ManifestOf(a));
    Ahead(hash, s3, Get(1, "t"), []);
    Ahead(hash, s2, Write(0), [Get(1, "t")] + []);
    Ahead(hash, s1, Write(0), [Write(0)] + ([Get(1, "t")] + []));
    Ahead(hash, Empty, Put(0, a), [Write(0)] + ([Write(0)] + ([Get(1, "t")] + [])));
    steps := [Put(0, a)] + ([Write(0)] + ([Write(0)] + ([Get(1, "t")] + [])));
  }

  lemma {:induction false} Joined(hash: seq<Byte> -> Digest, s: Store, a: seq<Step>, b: seq<Step>)
    requires Possible(hash, s, a) && Possible(hash, After(hash, s, a), b)
    ensures Possible(hash, s, a + b) && After(hash, s, a + b) == After(hash, After(hash, s, a), b)
    decreases |a|
  {
    if a == [] {
      assert a + b == b;
    } else {
      Joined(hash, Apply(hash, s, a[0]), a[1..], b);
      assert (a + b)[1..] == a[1..] + b;
    }
  }

  /** From the empty store: the reader saw the manifest in time, the prune was faster, the read ends broken. */
  lemma OvertakenReaderBreaks(hash: seq<Byte> -> Digest) returns (steps: seq<Step>)
    ensures Possible(hash, Empty, steps) && AllNamed(hash, map["t" := [0]], steps)
    ensures 1 in After(hash, Empty, steps).results && After(hash, Empty, steps).results[1] == Broken
  {
    var before := StoredAndRead(hash);
    var s := After(hash, Empty, before);
    var s1 := Apply(hash, s, Pass(2));
    var s2 := Apply(hash, s1, Prune(2, "t"));
    assert s2.calls[2] == Pruning("t", 1, 0);
    var s3 := Apply(hash, s2, Delete(2));
    Ahead(hash, s3, Read(1), []);
    Ahead(hash, s2, Delete(2), [Read(1)] + []);
    Ahead(hash, s1, Prune(2, "t"), [Delete(2)] + ([Read(1)] + []));
    Ahead(hash, s, Pass(2), [Prune(2, "t")] + ([Delete(2)] + ([Read(1)] + [])));
    var last := [Pass(2)] + ([Prune(2, "t")] + ([Delete(2)] + ([Read(1)] + [])));
    Joined(hash, Empty, before, last);
    steps := before + last;
  }

  // ---------------------------------------------------------------- chunks, answers and pruning, spelled out

  /** There are as many chunks as it takes and no more: all but the last are full and the last is not empty. */
  lemma ChunksAreFull(data: string, i: nat)
    requires i < ChunkCount(|data|)
    ensures if i + 1 < ChunkCount(|data|) then |Piece(data, i)| == 8192 else 1 <= |Piece(data, i)| <= 8192
    ensures forall j: nat :: j < |Piece(data, i)| ==> Piece(data, i)[j] == data[i * 8192 + j]
    ensures (ChunkCount(|data|) - 1) * 8192 < |data| <= ChunkCount(|data|) * 8192
  {
  }

  /** A read ends with the bytes if and only if they have the recorded length and digest, the id standing in for one. */
  lemma CheckedIff(hash: seq<Byte> -> Digest, id: Id, m: Manifest, data: string)
    ensures var bytes := Decode(data);
            if |bytes| == m.bytes && (m.digest.Some? ==> m.digest.value == hash(bytes))
                && (m.digest.None? ==> id == hash(bytes))
            then Checked(hash, id, m, data) == Got(m.name, bytes) else Checked(hash, id, m, data) == Broken
  {
  }

  /**
   A read ends at once with nothing if and only if there is no manifest or it has expired, as it has from its very
   moment on; at once broken, if and only if the manifest names no chunk or more than 683; and otherwise begins at the
   first.
   */
  lemma GetAnswers(s: Store, c: nat, id: Id)
    requires Enabled(s, Get(c, id))
    ensures var t := GetStep(s, c, id); var there := ManifestKey(id) in s.table && s.table[ManifestKey(id)].Meta?;
            var m := if there then s.table[ManifestKey(id)].manifest else Manifest("", 0, None, None, 0);
            var gone := !there || (m.expiresAt.Some? && s.now >= m.expiresAt.value);
            && (c in t.results && t.results[c] == Null <==> gone)
            && (c in t.results && t.results[c] == Broken <==> !gone && !(1 <= m.chunks <= 683))
            && (c in t.calls <==> !gone && 1 <= m.chunks <= 683)
            && (c in t.calls ==> t.calls[c] == Reading(id, m, 0, "") && t.results == s.results)
            && t.table == s.table && t.expiry == s.expiry
  {
  }

  /** Only what has expired is pruned, and only temporary artifacts are indexed, with the chunks they have. */
  lemma PruneBegins(hash: seq<Byte> -> Digest, s: Store, c: nat, id: Id)
    requires c !in s.calls && c !in s.results
    ensures Enabled(s, Prune(c, id)) <==> id in s.expiry && s.expiry[id].0 < s.now
    ensures Enabled(s, Prune(c, id)) ==>
              Apply(hash, s, Prune(c, id)).calls == s.calls[c := Pruning(id, s.expiry[id].1, 0)]
  {
  }

  lemma PutIndexes(hash: seq<Byte> -> Digest, s: Store, c: nat, a: Artifact)
    requires Enabled(s, Put(c, a))
    ensures var t := Apply(hash, s, Put(c, a));
            && t.calls == s.calls[c := Storing(a, 0)] && t.table == s.table
            && (a.expiresAt.None? ==> t.expiry == s.expiry)
            && (a.expiresAt.Some? ==>
                  t.expiry == s.expiry[a.id := (a.expiresAt.value, ChunkCount(|Encode(a.bytes)|))])
  {
  }

  /** As many deletes, one after another. */
  function Deletes(c: nat, n: nat): seq<Step> {
    seq(n, i => Delete(c))
  }

  /** The keys a prune has still to delete. */
  predicate Doomed(id: Id, i: nat, chunks: nat, key: Key) {
    key == ManifestKey(id) || (key.ChunkKey? && key.id == id && i <= key.i < chunks)
  }

  /** Left alone a prune takes one delete a chunk and one more, and removes exactly its artifact and its index row. */
  lemma {:induction false} PruneRemovesAll(hash: seq<Byte> -> Digest, s: Store, c: nat, id: Id, chunks: nat, i: nat)
    requires c in s.calls && s.calls[c] == Pruning(id, chunks, i) && i <= chunks
    ensures Possible(hash, s, Deletes(c, chunks - i + 1))
    ensures var t := After(hash, s, Deletes(c, chunks - i + 1));
            && t.calls == s.calls - {c} && t.expiry == s.expiry - {id} && t.results == s.results
            && (forall key :: key in t.table <==> key in s.table && !Doomed(id, i, chunks, key))
            && (forall key <- t.table :: t.table[key] == s.table[key])
    decreases chunks - i
  {
    var steps := Deletes(c, chunks - i + 1);
    var t := Apply(hash, s, Delete(c));
    if i < chunks {
      assert steps[1..] == Deletes(c, chunks - (i + 1) + 1);
      PruneRemovesAll(hash, t, c, id, chunks, i + 1);
      assert t.calls - {c} == s.calls - {c};
    } else {
      assert steps[1..] == [];
    }
  }
}

/** The store's write and read loops for one caller. */
module ArtifactObject {
  import opened Options
  import opened Base64
  import opened ArtifactSpec
  import opened ArtifactTheorems

  /** The artifact's chunks and manifest are all there. */
  predicate Holds(table: Table, a: Artifact) {
    && ManifestKey(a.id) in table && table[ManifestKey(a.id)] == Meta(ManifestOf(a))
    && forall i: nat :: i < ChunkCount(|Encode(a.bytes)|) ==>
         ChunkKey(a.id, i) in table && table[ChunkKey(a.id, i)] == Text(Piece(Encode(a.bytes), i))
  }

  predicate Readable(hash: seq<Byte> -> Digest, table: Table, id: Id, a: Artifact) {
    a.id == id && Acceptable(a) && Holds(table, a) && hash(a.bytes) == (if a.digest.Some? then a.digest.value else id)
  }

  /** Nothing filed under other ids has changed. */
  ghost predicate OthersSame(before: Table, after: Table, id: Id) {
    forall key: Key :: key.id != id ==>
        (key in after <==> key in before) && (key in before ==> after[key] == before[key])
  }

  class NucleusArtifacts {
    var table: Table

    constructor ()
      ensures table == map[]
    {
      table := map[];
    }

    method StoreArtifact(a: Artifact)
      requires Acceptable(a)
      modifies this
      ensures Holds(table, a) && OthersSame(old(table), table, a.id)
    {
      var data := Encode(a.bytes);
      var chunks := ChunkCount(|data|);
      for i := 0 to chunks
        invariant OthersSame(old(table), table, a.id)
        invariant forall k: nat :: k < i ==>
                  ChunkKey(a.id, k) in table && table[ChunkKey(a.id, k)] == Text(Piece(data, k))
      {
        table := table[ChunkKey(a.id, i) := Text(Piece(data, i))];
      }
      table := table[ManifestKey(a.id) := Meta(ManifestOf(a))];
    }

    /** Null before the manifest or after expiry; the exact bytes of an artifact that is all there. */
    method GetArtifact(hash: seq<Byte> -> Digest, id: Id, now: nat, ghost a: Artifact) returns (outcome: Outcome)
      ensures ManifestKey(id) !in table ==> outcome == Null
      ensures Readable(hash, table, id, a) ==>
              outcome == if Expired(a.expiresAt, now) then Null else Got(a.name, a.bytes)
    {
      var key := ManifestKey(id);
      if key !in table || !table[key].Meta? { return Null; }
      var m := table[key].manifest;
      if Expired(m.expiresAt, now) { return Null; }
      if Readable(hash, table, id, a) { BoundIsExact(a); }
      if !(1 <= m.chunks <= MAX_CHUNKS) { return Broken; }
      var data := "";
      ghost var whole := Encode(a.bytes);
      for i := 0 to m.chunks
        invariant Readable(hash, table, id, a) ==> data == whole[..Min(i * SIZE, |whole|)]
      {
        if ChunkKey(id, i) !in table || !table[ChunkKey(id, i)].Text? { return Broken; }
        if Readable(hash, table, id, a) { PieceExtends(whole, i); }
        data := data + table[ChunkKey(id, i)].text;
      }
      PiecesCover(whole);
      assert whole[..|whole|] == whole;
      RoundTrip(a.bytes);
      outcome := Checked(hash, id, m, data);
    }
  }
}
