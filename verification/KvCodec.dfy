/** The canonical little-endian wire format of superblocks, records and journals, and what the
    validators make of the bytes. */
module KvCodec {
  import opened Crc32
  import opened KvDisk

  // ---------------------------------------------------------------- integers

  function Put16(v: bv16): (s: Bytes)
    ensures |s| == 2
  {
    [(v & 0xFF) as bv8, (v >> 8) as bv8]
  }

  function Put32(v: bv32): (s: Bytes)
    ensures |s| == 4
  {
    [(v & 0xFF) as bv8, ((v >> 8) & 0xFF) as bv8, ((v >> 16) & 0xFF) as bv8, (v >> 24) as bv8]
  }

  function Put64(v: bv64): (s: Bytes)
    ensures |s| == 8
  {
    Put32((v & 0xFFFF_FFFF) as bv32) + Put32((v >> 32) as bv32)
  }

  function Get16(s: Bytes): bv16
    requires |s| == 2
  {
    (s[0] as bv16) | ((s[1] as bv16) << 8)
  }

  function Get32(s: Bytes): bv32
    requires |s| == 4
  {
    (s[0] as bv32) | ((s[1] as bv32) << 8) | ((s[2] as bv32) << 16) | ((s[3] as bv32) << 24)
  }

  function Get64(s: Bytes): bv64
    requires |s| == 8
  {
    (Get32(s[..4]) as bv64) | ((Get32(s[4..]) as bv64) << 32)
  }

  lemma RoundTrip16(v: bv16)
    ensures Get16(Put16(v)) == v
  {
  }

  lemma RoundTrip32(v: bv32)
    ensures Get32(Put32(v)) == v
  {
  }

  lemma Halves(v: bv64)
    ensures (((v & 0xFFFF_FFFF) as bv32) as bv64) | ((((v >> 32) as bv32) as bv64) << 32) == v
  {
  }

  lemma RoundTrip64(v: bv64)
    ensures Get64(Put64(v)) == v
  {
    var lo, hi := (v & 0xFFFF_FFFF) as bv32, (v >> 32) as bv32;
    assert Put64(v)[..4] == Put32(lo) && Put64(v)[4..] == Put32(hi);
    RoundTrip32(lo);
    RoundTrip32(hi);
    Halves(v);
  }

  lemma Bytes16(s: Bytes)
    requires |s| == 2
    ensures Put16(Get16(s)) == s
  {
  }

  lemma FourBytes(b0: bv8, b1: bv8, b2: bv8, b3: bv8)
    ensures
      var v := (b0 as bv32) | ((b1 as bv32) << 8) | ((b2 as bv32) << 16) | ((b3 as bv32) << 24);
      (v & 0xFF) as bv8 == b0 && ((v >> 8) & 0xFF) as bv8 == b1 && ((v >> 16) & 0xFF) as bv8 == b2 && (v >> 24) as bv8 == b3
  {
  }

  lemma Bytes32(s: Bytes)
    requires |s| == 4
    ensures Put32(Get32(s)) == s
  {
    FourBytes(s[0], s[1], s[2], s[3]);
  }

  lemma JoinHalves(lo: bv32, hi: bv32)
    ensures var v := (lo as bv64) | ((hi as bv64) << 32); (v & 0xFFFF_FFFF) as bv32 == lo && (v >> 32) as bv32 == hi
  {
  }

  lemma Bytes64(s: Bytes)
    requires |s| == 8
    ensures Put64(Get64(s)) == s
  {
    Bytes32(s[..4]);
    Bytes32(s[4..]);
    JoinHalves(Get32(s[..4]), Get32(s[4..]));
    assert s[..4] + s[4..] == s;
  }

  // ---------------------------------------------------------------- superblocks

  const SUPER_SIZE: nat := 64
  const SUPER_CRC: nat := 20
  const HEADER_MAGIC: bv32 := 0x41435452
  const HEADER_VERSION: bv16 := 2
  const LAYOUT_VERSION: bv16 := 1

  datatype SuperWire = SuperWire(magic: bv32, version: bv16, layout: bv16, generation: bv64, count: bv32, crc: bv32)

  /** The bytes the checksum covers. */
  function SuperBody(s: SuperWire): (b: Bytes)
    ensures |b| == SUPER_CRC
  {
    Put32(s.magic) + Put16(s.version) + Put16(s.layout) + Put64(s.generation) + Put32(s.count)
  }

  function EncodeSuper(s: SuperWire): (b: Bytes)
    ensures |b| == SUPER_SIZE
  {
    SuperBody(s) + Put32(s.crc) + seq(40, _ => 0)
  }

  function DecodeSuper(b: Bytes): SuperWire
    requires |b| == SUPER_SIZE
  {
    SuperWire(Get32(b[0..4]), Get16(b[4..6]), Get16(b[6..8]), Get64(b[8..16]), Get32(b[16..20]), Get32(b[20..24]))
  }

  function SuperChecksum(s: SuperWire): bv32 {
    Checksum(SuperBody(s))
  }

  predicate ValidSuper(s: SuperWire, capacity: nat) {
    && s.magic == HEADER_MAGIC
    && s.version == HEADER_VERSION
    && s.layout == LAYOUT_VERSION
    && s.count as nat <= capacity
    && s.crc == SuperChecksum(s)
  }

  function MakeSuper(generation: bv64, count: bv32): SuperWire {
    var s := SuperWire(HEADER_MAGIC, HEADER_VERSION, LAYOUT_VERSION, generation, count, 0);
    s.(crc := SuperChecksum(s))
  }

  lemma SuperSlices(s: SuperWire)
    ensures
      var b := EncodeSuper(s);
      && b[0..4] == Put32(s.magic) && b[4..6] == Put16(s.version) && b[6..8] == Put16(s.layout)
      && b[8..16] == Put64(s.generation) && b[16..20] == Put32(s.count) && b[20..24] == Put32(s.crc)
  {
    hide Put16, Put32, Put64;
    var b := EncodeSuper(s);
    var front, back := Put32(s.magic) + Put16(s.version) + Put16(s.layout), Put64(s.generation) + Put32(s.count) + Put32(s.crc);
    assert b == front + back + seq(40, _ => 0);
    assert b[..8] == front && b[8..24] == back;
    assert b[0..4] == front[..4] && b[4..6] == front[4..6] && b[6..8] == front[6..];
    assert b[8..16] == back[..8] && b[16..20] == back[8..12] && b[20..24] == back[12..];
  }

  /** Reading a written superblock gives it back. */
  lemma SuperRoundTrip(s: SuperWire)
    ensures DecodeSuper(EncodeSuper(s)) == s
  {
    hide Put16, Put32, Put64, Get16, Get32, Get64, EncodeSuper;
    SuperSlices(s);
    RoundTrip32(s.magic);
    RoundTrip16(s.version);
    RoundTrip16(s.layout);
    RoundTrip64(s.generation);
    RoundTrip32(s.count);
    RoundTrip32(s.crc);
  }

  /** The superblock a commit publishes is read back as valid, with its generation and count. */
  lemma PublishedSuperReadsBack(generation: bv64, count: bv32, capacity: nat)
    requires count as nat <= capacity
    ensures
      var s := DecodeSuper(EncodeSuper(MakeSuper(generation, count)));
      ValidSuper(s, capacity) && s.generation == generation && s.count == count
  {
    hide Checksum, EncodeSuper, DecodeSuper;
    SuperRoundTrip(MakeSuper(generation, count));
  }

  /** The checksum that validation recomputes from the decoded fields is that of the bytes. */
  lemma SuperBodyOfImage(b: Bytes)
    requires |b| == SUPER_SIZE
    ensures SuperBody(DecodeSuper(b)) == b[..SUPER_CRC]
  {
    hide Put16, Put32, Put64, Get16, Get32, Get64;
    Bytes32(b[0..4]);
    Bytes16(b[4..6]);
    Bytes16(b[6..8]);
    Bytes64(b[8..16]);
    Bytes32(b[16..20]);
    assert b[..8] == b[0..4] + b[4..6] + b[6..8];
    assert b[8..20] == b[8..16] + b[16..20];
    assert b[..20] == b[..8] + b[8..20];
  }

  /** A superblock torn byte by byte between two valid ones still starts like one of ours. */
  lemma MixedSuperKeepsPrefix(was: SuperWire, now: SuperWire, capacity: nat, mixed: Bytes)
    requires ValidSuper(was, capacity) && ValidSuper(now, capacity) && |mixed| == SUPER_SIZE
    requires forall i | 0 <= i < SUPER_SIZE :: mixed[i] == EncodeSuper(was)[i] || mixed[i] == EncodeSuper(now)[i]
    ensures DecodeSuper(mixed).magic == HEADER_MAGIC && DecodeSuper(mixed).version == HEADER_VERSION
  {
    var a, b := EncodeSuper(was), EncodeSuper(now);
    SuperSlices(was);
    SuperSlices(now);
    RoundTrip32(HEADER_MAGIC);
    RoundTrip16(HEADER_VERSION);
    hide Put16, Put32, Put64, Get16, Get32, Get64, EncodeSuper, SuperChecksum;
    assert forall i | 0 <= i < 4 :: a[i] == a[0..4][i] == b[0..4][i] == b[i];
    assert forall i | 4 <= i < 6 :: a[i] == a[4..6][i - 4] == b[4..6][i - 4] == b[i];
    assert mixed[0..4] == a[0..4] && mixed[4..6] == a[4..6];
  }

  /** `x` at offset `at`. */
  function Overwrite(b: Bytes, at: nat, x: Bytes): (r: Bytes)
    requires at + |x| <= |b|
    ensures |r| == |b|
  {
    b[..at] + x + b[at + |x|..]
  }

  lemma OverwriteWithin(b: Bytes, at: nat, x: Bytes, i: nat, j: nat)
    requires i <= at && at + |x| <= j <= |b|
    ensures Overwrite(b, at, x)[i..j] == b[i..j][..at - i] + x + b[i..j][at + |x| - i..]
    ensures b[i..j][at - i..at + |x| - i] == b[at..at + |x|]
  {
    var inner, outer := b[i..j][at - i..at + |x| - i], b[at..at + |x|];
    assert forall k | 0 <= k < |x| :: inner[k] == b[i..j][at - i + k] == outer[k];
  }

  lemma OverwriteOutside(b: Bytes, at: nat, x: Bytes, i: nat, j: nat)
    requires at + |x| <= |b| && i <= j <= |b| && (j <= at || at + |x| <= i)
    ensures Overwrite(b, at, x)[i..j] == b[i..j]
  {
  }

  /** Damage to up to four consecutive bytes of a valid superblock's body is always noticed. */
  lemma SuperDamageDetected(b: Bytes, at: nat, x: Bytes, capacity: nat)
    requires |b| == SUPER_SIZE && ValidSuper(DecodeSuper(b), capacity)
    requires |x| <= 4 && at + |x| <= SUPER_CRC
    requires x != b[at..at + |x|]
    ensures !ValidSuper(DecodeSuper(Overwrite(b, at, x)), capacity)
  {
    hide Checksum, SuperBody, Overwrite, Get16, Get32, Get64;
    var b' := Overwrite(b, at, x);
    var end, body := at + |x|, b[0..SUPER_CRC];
    SuperBodyOfImage(b);
    SuperBodyOfImage(b');
    assert body == b[..SUPER_CRC] && b'[0..SUPER_CRC] == b'[..SUPER_CRC];
    OverwriteWithin(b, at, x, 0, SUPER_CRC);
    OverwriteOutside(b, at, x, 20, 24);
    assert body == body[..at] + body[at..end] + body[end..];
    BurstDetected(body[..at], body[at..end], x, body[end..]);
  }

  // ---------------------------------------------------------------- records

  const KEY_SIZE: nat := 32
  const RECORD_HEAD: nat := 44

  /** `key` and `value` are the whole fixed-size fields, padding included. */
  datatype RecordWire = RecordWire(used: bv8, keyLength: bv8, reserved: bv16, crc: bv32, valueLength: bv32,
                                   key: Bytes, value: Bytes)

  predicate RecordShape(r: RecordWire, size: nat) {
    |r.key| == KEY_SIZE && |r.value| == size
  }

  function EncodeRecord(r: RecordWire, size: nat): (b: Bytes)
    requires RecordShape(r, size)
    ensures |b| == RECORD_HEAD + size
  {
    [r.used, r.keyLength] + Put16(r.reserved) + Put32(r.crc) + Put32(r.valueLength) + r.key + r.value
  }

  function DecodeRecord(b: Bytes, size: nat): (r: RecordWire)
    requires |b| == RECORD_HEAD + size
    ensures RecordShape(r, size)
  {
    RecordWire(b[0], b[1], Get16(b[2..4]), Get32(b[4..8]), Get32(b[8..12]), b[12..44], b[44..])
  }

  lemma RecordSlices(r: RecordWire, size: nat)
    requires RecordShape(r, size)
    ensures
      var b := EncodeRecord(r, size);
      && b[0] == r.used && b[1] == r.keyLength && b[2..4] == Put16(r.reserved) && b[4..8] == Put32(r.crc)
      && b[8..12] == Put32(r.valueLength) && b[12..44] == r.key && b[44..] == r.value
  {
    hide Put16, Put32;
  }

  lemma RecordRoundTrip(r: RecordWire, size: nat)
    requires RecordShape(r, size)
    ensures DecodeRecord(EncodeRecord(r, size), size) == r
  {
    hide Put16, Put32, Get16, Get32, EncodeRecord;
    RecordSlices(r, size);
    RoundTrip16(r.reserved);
    RoundTrip32(r.crc);
    RoundTrip32(r.valueLength);
  }

  /** ... and no byte of a record image is lost by decoding it. */
  lemma RecordImage(b: Bytes, size: nat)
    requires |b| == RECORD_HEAD + size
    ensures EncodeRecord(DecodeRecord(b, size), size) == b
  {
    hide Put16, Put32, Get16, Get32;
    Bytes16(b[2..4]);
    Bytes32(b[4..8]);
    Bytes32(b[8..12]);
    assert b == [b[0], b[1]] + b[2..4] + b[4..8] + b[8..12] + b[12..44] + b[44..];
  }

  function RecordChecksum(r: RecordWire, size: nat): bv32
    requires RecordShape(r, size) && r.valueLength as nat <= size
  {
    Checksum(EncodeRecord(r.(crc := 0), size)[..RECORD_HEAD + r.valueLength as nat])
  }

  predicate ValidRecord(r: RecordWire, size: nat)
    requires RecordShape(r, size)
  {
    || r.used == 0
    || (&& r.used == 1
        && 0 < r.keyLength as nat <= KEY_SIZE
        && r.valueLength as nat <= size
        && r.crc == RecordChecksum(r, size))
  }

  function Zeros(n: nat): (b: Bytes)
    ensures |b| == n
  {
    seq(n, _ => 0)
  }

  /** The cell that a record image stands for. */
  function RecordCell(b: Bytes, size: nat): Record
    requires |b| == RECORD_HEAD + size
  {
    var r := DecodeRecord(b, size);
    if b == Zeros(|b|) then Blank
    else if r.used == 0 then Stale
    else if !ValidRecord(r, size) then BadRecord
    else InUse(r.key[..r.keyLength as nat], r.value[..r.valueLength as nat])
  }

  /** The record `actrust_kv_set` builds; the two lengths are stored without loss. */
  function MakeRecord(key: Bytes, keyLength: bv8, value: Bytes, valueLength: bv32, size: nat): (r: RecordWire)
    requires 0 < keyLength as nat == |key| <= KEY_SIZE && valueLength as nat == |value| <= size
    ensures RecordShape(r, size)
  {
    hide RecordChecksum;
    var r := RecordWire(1, keyLength, 0, 0, valueLength, key + Zeros(KEY_SIZE - |key|), value + Zeros(size - |value|));
    r.(crc := RecordChecksum(r, size))
  }

  /** A record written by a set is read back as exactly that key and value. */
  lemma SetRecordReadsBack(key: Bytes, keyLength: bv8, value: Bytes, valueLength: bv32, size: nat)
    requires 0 < keyLength as nat == |key| <= KEY_SIZE && valueLength as nat == |value| <= size
    ensures RecordCell(EncodeRecord(MakeRecord(key, keyLength, value, valueLength, size), size), size) == InUse(key, value)
  {
    var r := MakeRecord(key, keyLength, value, valueLength, size);
    assert r == r.(crc := 0).(crc := r.crc);
    assert RecordChecksum(r, size) == r.crc;
    hide RecordChecksum, DecodeRecord;
    var b := EncodeRecord(r, size);
    RecordRoundTrip(r, size);
    assert b[0] == 1;
    hide EncodeRecord;
    assert r.key[..|key|] == key && r.value[..|value|] == value;
  }

  /** The record `actrust_kv_del` writes is blank. */
  lemma DeletedRecordReadsBack(size: nat)
    ensures RecordCell(EncodeRecord(RecordWire(0, 0, 0, 0, 0, Zeros(KEY_SIZE), Zeros(size)), size), size) == Blank
  {
  }

  // ---------------------------------------------------------------- journals

  const JOURNAL_RECORD: nat := 36
  const JOURNAL_MAGIC: bv32 := 0x4A4E4C32
  const COMMIT_MAGIC: bv32 := 0x434F4D32

  datatype JournalWire = JournalWire(
    magic: bv32, version: bv16, state: bv8, operation: bv8, generation: bv64, base: bv64, index: bv32, count: bv32,
    crc: bv32, record: RecordWire, commitMagic: bv32, commitGeneration: bv64, commitCrc: bv32)

  function JournalHead(j: JournalWire): (b: Bytes)
    ensures |b| == 32
  {
    Put32(j.magic) + Put16(j.version) + [j.state, j.operation] + Put64(j.generation) + Put64(j.base)
    + Put32(j.index) + Put32(j.count)
  }

  function JournalTail(j: JournalWire): (b: Bytes)
    ensures |b| == 16
  {
    Put32(j.commitMagic) + Put64(j.commitGeneration) + Put32(j.commitCrc)
  }

  function CommitOffset(size: nat): nat {
    JOURNAL_RECORD + RECORD_HEAD + size
  }

  function EncodeJournal(j: JournalWire, size: nat): (b: Bytes)
    requires RecordShape(j.record, size)
    ensures |b| == CommitOffset(size) + 16
  {
    JournalHead(j) + Put32(j.crc) + EncodeRecord(j.record, size) + JournalTail(j)
  }

  function DecodeJournal(b: Bytes, size: nat): (j: JournalWire)
    requires |b| == CommitOffset(size) + 16
    ensures RecordShape(j.record, size)
  {
    var c := CommitOffset(size);
    JournalWire(
      Get32(b[0..4]), Get16(b[4..6]), b[6], b[7], Get64(b[8..16]), Get64(b[16..24]), Get32(b[24..28]), Get32(b[28..32]),
      Get32(b[32..36]), DecodeRecord(b[36..c], size),
      Get32(b[c..c + 4]), Get64(b[c + 4..c + 12]), Get32(b[c + 12..c + 16]))
  }

  lemma JournalSlices(j: JournalWire, size: nat)
    requires RecordShape(j.record, size)
    ensures
      var b, c := EncodeJournal(j, size), CommitOffset(size);
      && b[..32] == JournalHead(j) && b[32..36] == Put32(j.crc) && b[36..c] == EncodeRecord(j.record, size)
      && b[c..] == JournalTail(j)
  {
    hide Put32, JournalHead, JournalTail, EncodeRecord;
  }

  lemma JournalHeadSlices(j: JournalWire)
    ensures
      var h := JournalHead(j);
      && h[0..4] == Put32(j.magic) && h[4..6] == Put16(j.version) && h[6] == j.state && h[7] == j.operation
      && h[8..16] == Put64(j.generation) && h[16..24] == Put64(j.base)
      && h[24..28] == Put32(j.index) && h[28..32] == Put32(j.count)
  {
    hide Put16, Put32, Put64;
    var front := Put32(j.magic) + Put16(j.version) + [j.state, j.operation];
    var middle := Put64(j.generation) + Put64(j.base);
    var back := Put32(j.index) + Put32(j.count);
    assert JournalHead(j) == front + middle + back;
    assert JournalHead(j)[..8] == front && JournalHead(j)[8..24] == middle && JournalHead(j)[24..] == back;
    assert JournalHead(j)[24..28] == back[..4] && JournalHead(j)[28..32] == back[4..];
  }

  lemma JournalTailSlices(j: JournalWire)
    ensures
      var t := JournalTail(j);
      && t[0..4] == Put32(j.commitMagic) && t[4..12] == Put64(j.commitGeneration) && t[12..16] == Put32(j.commitCrc)
  {
    hide Put32, Put64;
  }

  lemma JournalRoundTrip(j: JournalWire, size: nat)
    requires RecordShape(j.record, size)
    ensures DecodeJournal(EncodeJournal(j, size), size) == j
  {
    hide Put16, Put32, Put64, Get16, Get32, Get64, EncodeJournal, JournalHead, JournalTail, EncodeRecord, DecodeRecord;
    var b, c := EncodeJournal(j, size), CommitOffset(size);
    JournalSlices(j, size);
    JournalHeadSlices(j);
    JournalTailSlices(j);
    var h, t := b[..32], b[c..];
    assert b[0..4] == h[0..4] && b[4..6] == h[4..6] && b[6] == h[6] && b[7] == h[7];
    assert b[8..16] == h[8..16] && b[16..24] == h[16..24] && b[24..28] == h[24..28] && b[28..32] == h[28..32];
    assert b[c..c + 4] == t[0..4] && b[c + 4..c + 12] == t[4..12] && b[c + 12..c + 16] == t[12..16];
    RoundTrip32(j.magic);
    RoundTrip16(j.version);
    RoundTrip64(j.generation);
    RoundTrip64(j.base);
    RoundTrip32(j.index);
    RoundTrip32(j.count);
    RoundTrip32(j.crc);
    RecordRoundTrip(j.record, size);
    RoundTrip32(j.commitMagic);
    RoundTrip64(j.commitGeneration);
    RoundTrip32(j.commitCrc);
  }

  /** The image with its checksum field cleared, up to the commit fields. */
  function JournalChecksum(j: JournalWire, size: nat): bv32
    requires RecordShape(j.record, size)
  {
    Checksum(JournalHead(j) + Put32(0) + EncodeRecord(j.record, size))
  }

  function CommitChecksum(j: JournalWire): bv32 {
    Checksum(Put32(j.commitMagic) + Put64(j.commitGeneration))
  }

  predicate ValidJournal(j: JournalWire, capacity: nat, size: nat)
    requires RecordShape(j.record, size)
  {
    && j.magic == JOURNAL_MAGIC
    && j.version == 1
    && (j.state == 1 || j.state == 2)
    && 1 <= j.operation <= 3
    && j.generation != 0
    && j.crc == JournalChecksum(j, size)
    && (j.operation != 3 ==> j.index as nat < capacity && ValidRecord(j.record, size))
    && (j.state == 2 ==>
          && j.commitMagic == COMMIT_MAGIC
          && j.commitGeneration == j.generation
          && j.commitCrc == CommitChecksum(j))
  }

  /** The entry a transaction writes, first PREPARED and then COMMITTED. */
  function MakeJournal(committed: bool, operation: bv8, base: bv64, index: bv32, count: bv32, record: RecordWire, size: nat)
    : (j: JournalWire)
    requires RecordShape(record, size)
    ensures RecordShape(j.record, size)
  {
    var j := JournalWire(JOURNAL_MAGIC, 1, if committed then 2 else 1, operation, base + 1, base, index, count, 0, record,
                         if committed then COMMIT_MAGIC else 0, if committed then base + 1 else 0, 0);
    var j1 := if committed then j.(commitCrc := CommitChecksum(j)) else j;
    j1.(crc := JournalChecksum(j1, size))
  }

  /** That entry is read back as valid, with its operation, generation, base, index, count and record. */
  lemma WrittenJournalReadsBack(committed: bool, operation: bv8, base: bv64, index: bv32, count: bv32, record: RecordWire,
                                capacity: nat, size: nat)
    requires RecordShape(record, size) && ValidRecord(record, size)
    requires 1 <= operation <= 3 && base + 1 != 0 && index as nat < capacity
    ensures
      var made := MakeJournal(committed, operation, base, index, count, record, size);
      var j := DecodeJournal(EncodeJournal(made, size), size);
      && ValidJournal(j, capacity, size)
      && j.operation == operation && j.generation == base + 1 && j.base == base && j.index == index && j.count == count
      && j.record == record
  {
    MadeJournalIsValid(committed, operation, base, index, count, record, capacity, size);
    hide EncodeJournal, DecodeJournal, ValidJournal, JournalChecksum, CommitChecksum;
    JournalRoundTrip(MakeJournal(committed, operation, base, index, count, record, size), size);
  }

  lemma MadeJournalIsValid(committed: bool, operation: bv8, base: bv64, index: bv32, count: bv32, record: RecordWire,
                           capacity: nat, size: nat)
    requires RecordShape(record, size) && ValidRecord(record, size)
    requires 1 <= operation <= 3 && base + 1 != 0 && index as nat < capacity
    ensures ValidJournal(MakeJournal(committed, operation, base, index, count, record, size), capacity, size)
  {
    hide JournalChecksum, CommitChecksum, ValidRecord;
    var j := JournalWire(JOURNAL_MAGIC, 1, if committed then 2 else 1, operation, base + 1, base, index, count, 0, record,
                         if committed then COMMIT_MAGIC else 0, if committed then base + 1 else 0, 0);
    var j1 := if committed then j.(commitCrc := CommitChecksum(j)) else j;
    JournalChecksumAside(j1, JournalChecksum(j1, size), size);
    CommitChecksumAside(j, CommitChecksum(j), JournalChecksum(j1, size));
  }

  /** Neither checksum covers itself. */
  lemma JournalChecksumAside(j: JournalWire, crc: bv32, size: nat)
    requires RecordShape(j.record, size)
    ensures JournalChecksum(j.(crc := crc), size) == JournalChecksum(j, size)
  {
    hide Checksum, EncodeRecord;
  }

  lemma CommitChecksumAside(j: JournalWire, commitCrc: bv32, crc: bv32)
    ensures CommitChecksum(j.(commitCrc := commitCrc).(crc := crc)) == CommitChecksum(j)
  {
    hide Checksum;
  }

  lemma JournalHeadOfImage(b: Bytes, size: nat)
    requires |b| == CommitOffset(size) + 16
    ensures JournalHead(DecodeJournal(b, size)) == b[..32]
  {
    hide Put16, Put32, Put64, Get16, Get32, Get64, DecodeRecord;
    Bytes32(b[0..4]);
    Bytes16(b[4..6]);
    Bytes64(b[8..16]);
    Bytes64(b[16..24]);
    Bytes32(b[24..28]);
    Bytes32(b[28..32]);
    assert b[..32] == b[0..4] + b[4..6] + [b[6], b[7]] + b[8..16] + b[16..24] + b[24..28] + b[28..32];
  }

  /** The bytes of an image that the journal checksum covers, with the stored one cleared. */
  function JournalBody(b: Bytes, size: nat): Bytes
    requires |b| == CommitOffset(size) + 16
  {
    b[..32] + Put32(0) + b[36..CommitOffset(size)]
  }

  lemma JournalChecksumOfImage(b: Bytes, size: nat)
    requires |b| == CommitOffset(size) + 16
    ensures JournalChecksum(DecodeJournal(b, size), size) == Checksum(JournalBody(b, size))
  {
    hide Checksum, JournalHead, DecodeRecord, EncodeRecord;
    JournalHeadOfImage(b, size);
    RecordImage(b[36..CommitOffset(size)], size);
  }

  /** Replacing part of the first or of the last of three pieces replaces it in the whole. */
  lemma SpliceFirst(p: Bytes, z: Bytes, q: Bytes, at: nat, end: nat, x: Bytes)
    requires at <= end <= |p|
    ensures p + z + q == (p + z + q)[..at] + p[at..end] + (p + z + q)[end..]
    ensures (p[..at] + x + p[end..]) + z + q == (p + z + q)[..at] + x + (p + z + q)[end..]
  {
  }

  lemma SpliceLast(p: Bytes, z: Bytes, q: Bytes, at: nat, end: nat, x: Bytes)
    requires at <= end <= |q|
    ensures var n := |p + z|;
            && p + z + q == (p + z + q)[..n + at] + q[at..end] + (p + z + q)[n + end..]
            && p + z + (q[..at] + x + q[end..]) == (p + z + q)[..n + at] + x + (p + z + q)[n + end..]
  {
  }

  lemma FirstDamaged(p: Bytes, z: Bytes, q: Bytes, at: nat, x: Bytes)
    requires at + |x| <= |p| && |x| <= 4 && x != p[at..at + |x|]
    ensures Checksum((p[..at] + x + p[at + |x|..]) + z + q) != Checksum(p + z + q)
  {
    hide Checksum;
    var end := at + |x|;
    SpliceFirst(p, z, q, at, end, x);
    BurstDetected((p + z + q)[..at], p[at..end], x, (p + z + q)[end..]);
  }

  lemma LastDamaged(p: Bytes, z: Bytes, q: Bytes, at: nat, x: Bytes)
    requires at + |x| <= |q| && |x| <= 4 && x != q[at..at + |x|]
    ensures Checksum(p + z + (q[..at] + x + q[at + |x|..])) != Checksum(p + z + q)
  {
    hide Checksum;
    var end, n := at + |x|, |p + z|;
    SpliceLast(p, z, q, at, end, x);
    BurstDetected((p + z + q)[..n + at], q[at..end], x, (p + z + q)[n + end..]);
  }

  lemma JournalBodyDamaged(b: Bytes, at: nat, x: Bytes, size: nat)
    requires |b| == CommitOffset(size) + 16
    requires |x| <= 4 && (at + |x| <= 32 || (JOURNAL_RECORD <= at && at + |x| <= CommitOffset(size)))
    requires x != b[at..at + |x|]
    ensures Checksum(JournalBody(Overwrite(b, at, x), size)) != Checksum(JournalBody(b, size))
  {
    hide Checksum, Put32, Overwrite;
    var offset := CommitOffset(size);
    assert b[0..32] == b[..32] && Overwrite(b, at, x)[0..32] == Overwrite(b, at, x)[..32];
    if at + |x| <= 32 {
      OverwriteWithin(b, at, x, 0, 32);
      OverwriteOutside(b, at, x, 36, offset);
      FirstDamaged(b[0..32], Put32(0), b[36..offset], at, x);
    } else {
      OverwriteOutside(b, at, x, 0, 32);
      OverwriteWithin(b, at, x, 36, offset);
      LastDamaged(b[0..32], Put32(0), b[36..offset], at - 36, x);
    }
  }

  /** Damage to up to four consecutive bytes of a valid journal, anywhere in its header or its
      record, is always noticed. */
  lemma JournalDamageDetected(b: Bytes, at: nat, x: Bytes, capacity: nat, size: nat)
    requires |b| == CommitOffset(size) + 16
    requires ValidJournal(DecodeJournal(b, size), capacity, size)
    requires |x| <= 4 && (at + |x| <= 32 || (JOURNAL_RECORD <= at && at + |x| <= CommitOffset(size)))
    requires x != b[at..at + |x|]
    ensures !ValidJournal(DecodeJournal(Overwrite(b, at, x), size), capacity, size)
  {
    hide Checksum, JournalChecksum, JournalBody, DecodeRecord, ValidRecord, CommitChecksum;
    JournalChecksumOfImage(b, size);
    JournalChecksumOfImage(Overwrite(b, at, x), size);
    JournalBodyDamaged(b, at, x, size);
    assert Overwrite(b, at, x)[32..36] == b[32..36];
  }
}
