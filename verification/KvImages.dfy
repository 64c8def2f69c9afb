/** The storage region as bytes, and what `KvDisk` makes of them: every write of a transaction and of a
    redo changes the bytes as the planned write changes the cells. */
module KvImages {
  import opened Crc32
  import opened KvCodec
  import opened KvDisk
  import opened KvFormat

  /** The layout with `capacity` records of `size` value bytes each. */
  datatype Region = Region(supers: seq<Bytes>, records: seq<Bytes>, journals: seq<Bytes>)

  predicate Shaped(r: Region, size: nat) {
    && |r.supers| == 2 && |r.supers[0]| == |r.supers[1]| == SUPER_SIZE
    && (forall i | 0 <= i < |r.records| :: |r.records[i]| == RECORD_HEAD + size)
    && |r.journals| == 2 && |r.journals[0]| == |r.journals[1]| == CommitOffset(size) + 16
  }

  // ---------------------------------------------------------------- numbers

  function Value(s: Bytes): nat {
    if s == [] then 0 else s[0] as nat + 256 * Value(s[1..])
  }

  /** One more, byte by byte with the carry; it wraps around at the end. */
  function Counted(s: Bytes): (r: Bytes)
    ensures |r| == |s|
  {
    if s == [] then [] else if s[0] == 255 then [0] + Counted(s[1..]) else [s[0] + 1] + s[1..]
  }

  predicate Full(s: Bytes) {
    forall i | 0 <= i < |s| :: s[i] == 255
  }

  lemma {:induction false} CountedValue(s: Bytes)
    requires !Full(s)
    ensures Value(Counted(s)) == Value(s) + 1
  {
    if s[0] == 255 {
      assert !Full(s[1..]);
      CountedValue(s[1..]);
      assert ([0] + Counted(s[1..]))[1..] == Counted(s[1..]);
    } else {
      ByteCounts(s[0]);
      assert ([s[0] + 1] + s[1..])[1..] == s[1..];
    }
  }

  lemma ByteCounts(b: bv8)
    requires b != 255
    ensures (b + 1) as nat == b as nat + 1
  {
  }

  lemma HalfCarries(v: bv32)
    ensures
      var s, t := Put32(v), Put32(v + 1);
      && t[0] == s[0] + 1
      && t[1] == (if s[0] == 255 then s[1] + 1 else s[1])
      && t[2] == (if s[0] == 255 && s[1] == 255 then s[2] + 1 else s[2])
      && t[3] == (if s[0] == 255 && s[1] == 255 && s[2] == 255 then s[3] + 1 else s[3])
      && (v + 1 == 0 <==> s[0] == 255 && s[1] == 255 && s[2] == 255 && s[3] == 255)
  {
  }

  lemma CountedFour(s: Bytes)
    requires |s| == 4
    ensures Counted(s) == if s[0] != 255 then [s[0] + 1] + s[1..] else [0] + Counted(s[1..])
    ensures Counted(s[1..]) == if s[1] != 255 then [s[1] + 1] + s[2..] else [0] + Counted(s[2..])
    ensures Counted(s[2..]) == if s[2] != 255 then [s[2] + 1] + s[3..] else [0] + Counted(s[3..])
    ensures Counted(s[3..]) == [s[3] + 1]
  {
    assert s[1..][1..] == s[2..] && s[2..][1..] == s[3..] && s[3..][1..] == [];
  }

  lemma HalfCounts(v: bv32)
    ensures Put32(v + 1) == Counted(Put32(v)) && (v + 1 == 0 <==> Full(Put32(v)))
  {
    hide Put32, Counted;
    HalfCarries(v);
    CountedFour(Put32(v));
  }

  lemma {:induction false} CountedAppend(a: Bytes, b: Bytes)
    ensures Counted(a + b) == if Full(a) then Counted(a) + Counted(b) else Counted(a) + b
  {
    if a == [] {
      assert a + b == b;
    } else {
      assert (a + b)[1..] == a[1..] + b;
      CountedAppend(a[1..], b);
    }
  }

  function Number(v: bv64): nat {
    Value(Put64(v))
  }

  function Low(v: bv64): bv32 {
    (v & 0xFFFF_FFFF) as bv32
  }

  function High(v: bv64): bv32 {
    (v >> 32) as bv32
  }

  lemma Carries(v: bv64)
    ensures Low(v + 1) == Low(v) + 1 && High(v + 1) == if Low(v) + 1 == 0 then High(v) + 1 else High(v)
    ensures v + 1 == 0 <==> Low(v) + 1 == 0 && High(v) + 1 == 0
  {
  }

  lemma Halves(v: bv64)
    ensures Put64(v) == Put32(Low(v)) + Put32(High(v))
  {
  }

  lemma NextNumber(v: bv64)
    requires v + 1 != 0
    ensures Number(v + 1) == Number(v) + 1
  {
    hide Value, Number;
    WordCounts(v);
    CountedValue(Put64(v));
    NumberIsValue(v);
    NumberIsValue(v + 1);
  }

  lemma NumberIsValue(v: bv64)
    ensures Number(v) == Value(Put64(v))
  {
  }

  lemma WordCounts(v: bv64)
    requires v + 1 != 0
    ensures Put64(v + 1) == Counted(Put64(v)) && !Full(Put64(v))
  {
    hide Put32, Put64, Value, Counted, Low, High, Full;
    Carries(v);
    Halves(v);
    Halves(v + 1);
    HalfCounts(Low(v));
    HalfCounts(High(v));
    CountedAppend(Put32(Low(v)), Put32(High(v)));
    FullAppend(Put32(Low(v)), Put32(High(v)));
  }

  lemma FullAppend(a: Bytes, b: Bytes)
    ensures Full(a + b) <==> Full(a) && Full(b)
  {
    assert forall i | 0 <= i < |a| :: (a + b)[i] == a[i];
    assert forall i | 0 <= i < |b| :: (a + b)[|a| + i] == b[i];
  }

  lemma {:induction false} ZeroValue(s: Bytes)
    requires Value(s) == 0
    ensures s == Zeros(|s|)
  {
    if s != [] { ZeroValue(s[1..]); }
  }

  lemma ZeroNumber(v: bv64)
    requires Number(v) == 0
    ensures v == 0
  {
    hide Put64, Get64, Value;
    ZeroValue(Put64(v));
    RoundTrip64(v);
    ZerosDecode();
  }

  lemma ZerosDecode()
    ensures Get64(Zeros(8)) == 0
  {
  }

  // ---------------------------------------------------------------- cells

  const LEGACY_VERSION: bv16 := 1

  /** What `kv_prepare_storage` makes of the first twelve bytes. */
  function PrefixCell(b: Bytes): Prefix
    requires |b| == SUPER_SIZE
  {
    var s := DecodeSuper(b);
    if s.magic == HEADER_MAGIC && s.version == LEGACY_VERSION then LegacyPrefix
    else if s.magic == HEADER_MAGIC && s.version == HEADER_VERSION then CurrentPrefix
    else if b[..12] == Zeros(12) then ZeroPrefix
    else AlienPrefix
  }

  function SuperCell(b: Bytes, capacity: nat): Superblock
    requires |b| == SUPER_SIZE
  {
    var s := DecodeSuper(b);
    if ValidSuper(s, capacity) then Super(Number(s.generation), s.count as nat)
    else if b == Zeros(SUPER_SIZE) then BlankSuper
    else BadSuper(PrefixCell(b))
  }

  function OperationOf(code: bv8): Operation {
    if code == 1 then SetOperation else if code == 2 then DeleteOperation else FormatOperation
  }

  function CodeOf(operation: Operation): bv8 {
    match operation case SetOperation => 1 case DeleteOperation => 2 case FormatOperation => 3
  }

  function JournalCell(b: Bytes, capacity: nat, size: nat): Journal
    requires |b| == CommitOffset(size) + 16
  {
    var j := DecodeJournal(b, size);
    if b == Zeros(|b|) then Erased
    else if !ValidJournal(j, capacity, size) then BadJournal
    else Entry(j.state == 2, OperationOf(j.operation), Number(j.generation), Number(j.base), j.index as nat, j.count as nat,
               RecordCell(b[JOURNAL_RECORD..CommitOffset(size)], size))
  }

  function SupersOf(images: seq<Bytes>, capacity: nat): seq<Superblock>
    requires |images| == 2 && |images[0]| == |images[1]| == SUPER_SIZE
  {
    [SuperCell(images[0], capacity), SuperCell(images[1], capacity)]
  }

  function RecordsOf(images: seq<Bytes>, size: nat): seq<Record>
    requires forall i | 0 <= i < |images| :: |images[i]| == RECORD_HEAD + size
  {
    seq(|images|, i requires 0 <= i < |images| => RecordCell(images[i], size))
  }

  function JournalsOf(images: seq<Bytes>, capacity: nat, size: nat): seq<Journal>
    requires |images| == 2 && |images[0]| == |images[1]| == CommitOffset(size) + 16
  {
    [JournalCell(images[0], capacity, size), JournalCell(images[1], capacity, size)]
  }

  function Cells(r: Region, size: nat): Disk
    requires Shaped(r, size)
  {
    Disk(SupersOf(r.supers, |r.records|), RecordsOf(r.records, size), JournalsOf(r.journals, |r.records|, size))
  }

  lemma JournalCellFits(b: Bytes, capacity: nat, size: nat)
    requires |b| == CommitOffset(size) + 16
    ensures ValidEntry(JournalCell(b, capacity, size), capacity)
  {
    hide JournalChecksum, CommitChecksum, RecordChecksum, Get16, Get32, Get64, Put64, Value;
    var g := DecodeJournal(b, size).generation;
    if Number(g) == 0 { ZeroNumber(g); }
  }

  lemma SuperCellFits(b: Bytes, capacity: nat)
    requires |b| == SUPER_SIZE
    ensures var s := SuperCell(b, capacity); s.Super? ==> s.count <= capacity
  {
    hide SuperChecksum, DecodeSuper;
  }

  /** Whatever the bytes are, their cells satisfy what decoding guarantees. */
  lemma CellsWellFormed(r: Region, size: nat)
    requires Shaped(r, size)
    ensures WellFormed(Cells(r, size)) && |Cells(r, size).records| == |r.records|
  {
    hide SuperCell, JournalCell, RecordCell;
    SuperCellFits(r.supers[0], |r.records|);
    SuperCellFits(r.supers[1], |r.records|);
    JournalCellFits(r.journals[0], |r.records|, size);
    JournalCellFits(r.journals[1], |r.records|, size);
  }

  // ---------------------------------------------------------------- calls

  datatype Call =
    | PutSuper(slot: nat, image: Bytes)
    | PutRecord(slot: nat, image: Bytes)
    | PutJournal(slot: nat, image: Bytes)
    | ZeroJournal(slot: nat)
    | Flush

  predicate CallFits(r: Region, c: Call, size: nat) {
    match c
    case PutSuper(i, b) => i < 2 && |b| == SUPER_SIZE
    case PutRecord(i, b) => i < |r.records| && |b| == RECORD_HEAD + size
    case PutJournal(i, b) => i < 2 && |b| == CommitOffset(size) + 16
    case ZeroJournal(i) => i < 2
    case Flush => true
  }

  /** The call completes; an erased journal reads as zeros. */
  function Put(r: Region, c: Call, size: nat): (r': Region)
    requires Shaped(r, size) && CallFits(r, c, size)
    ensures Shaped(r', size) && |r'.records| == |r.records|
  {
    match c
    case PutSuper(i, b) => r.(supers := r.supers[i := b])
    case PutRecord(i, b) => r.(records := r.records[i := b])
    case PutJournal(i, b) => r.(journals := r.journals[i := b])
    case ZeroJournal(i) => r.(journals := r.journals[i := Zeros(CommitOffset(size) + 16)])
    case Flush => r
  }

  /** The call does to the bytes of this region what `w` does to its cells. */
  predicate Agree(r: Region, c: Call, w: Write, size: nat)
    requires Shaped(r, size)
  {
    && CallFits(r, c, size) && WellFormed(Cells(r, size)) && Fits(|Cells(r, size).records|, w)
    && Cells(Put(r, c, size), size) == Apply(Cells(r, size), w)
  }

  predicate InStep(r: Region, calls: seq<Call>, ws: seq<Write>, size: nat)
    requires Shaped(r, size)
  {
    |calls| == |ws| && forall k | 0 <= k < |calls| :: Agree(r, calls[k], ws[k], size)
  }

  lemma ZeroSuperHasNoMagic()
    ensures DecodeSuper(Zeros(SUPER_SIZE)).magic == 0
  {
  }

  lemma SuperImage(generation: bv64, count: bv32, capacity: nat)
    ensures SuperCell(EncodeSuper(MakeSuper(generation, count)), capacity)
         == Readback(Super(Number(generation), count as nat), capacity)
  {
    hide Checksum, EncodeSuper, DecodeSuper, Number;
    SuperRoundTrip(MakeSuper(generation, count));
    ZeroSuperHasNoMagic();
  }

  lemma PutSuperAgrees(r: Region, slot: nat, generation: bv64, count: bv32, size: nat)
    requires Shaped(r, size) && slot < 2
    ensures Agree(r, PutSuper(slot, EncodeSuper(MakeSuper(generation, count))),
                  WriteSuper(slot, Super(Number(generation), count as nat)), size)
  {
    hide SuperCell, JournalCell, RecordCell, EncodeSuper, MakeSuper, Readback, Number;
    SuperImage(generation, count, |r.records|);
    CellsWellFormed(r, size);
  }

  lemma PutRecordAgrees(r: Region, slot: nat, b: Bytes, size: nat)
    requires Shaped(r, size) && slot < |r.records| && |b| == RECORD_HEAD + size
    ensures Agree(r, PutRecord(slot, b), WriteRecord(slot, RecordCell(b, size)), size)
  {
    hide SuperCell, JournalCell, RecordCell;
    CellsWellFormed(r, size);
    assert RecordsOf(r.records[slot := b], size) == RecordsOf(r.records, size)[slot := RecordCell(b, size)];
  }

  lemma PutJournalAgrees(r: Region, slot: nat, b: Bytes, size: nat)
    requires Shaped(r, size) && slot < 2 && |b| == CommitOffset(size) + 16 && JournalCell(b, |r.records|, size).Entry?
    ensures Agree(r, PutJournal(slot, b), WriteJournal(slot, JournalCell(b, |r.records|, size)), size)
  {
    hide SuperCell, JournalCell, RecordCell;
    JournalCellFits(b, |r.records|, size);
    CellsWellFormed(r, size);
  }

  lemma ZeroJournalAgrees(r: Region, slot: nat, size: nat)
    requires Shaped(r, size) && slot < 2
    ensures Agree(r, ZeroJournal(slot), EraseJournal(slot), size)
  {
    hide SuperCell, JournalCell, RecordCell;
    ZeroJournalIsErased(|r.records|, size);
    CellsWellFormed(r, size);
  }

  lemma ZeroJournalIsErased(capacity: nat, size: nat)
    ensures JournalCell(Zeros(CommitOffset(size) + 16), capacity, size) == Erased
  {
    hide DecodeJournal, RecordCell, ValidJournal;
  }

  lemma FlushAgrees(r: Region, size: nat)
    requires Shaped(r, size)
    ensures Agree(r, Flush, Sync, size)
  {
    hide SuperCell, JournalCell, RecordCell;
    CellsWellFormed(r, size);
  }

  // ---------------------------------------------------------------- journal entries

  lemma ZeroJournalHasNoMagic(size: nat)
    ensures DecodeJournal(Zeros(CommitOffset(size) + 16), size).magic == 0
  {
  }

  lemma JournalRecordBytes(j: JournalWire, size: nat)
    requires RecordShape(j.record, size)
    ensures EncodeJournal(j, size)[JOURNAL_RECORD..CommitOffset(size)] == EncodeRecord(j.record, size)
  {
    JournalSlices(j, size);
  }

  /** The entry of a transaction, PREPARED or COMMITTED, is read as the entry of the plan. */
  lemma JournalImage(committed: bool, operation: Operation, base: bv64, index: bv32, count: bv32, record: RecordWire,
                     capacity: nat, size: nat)
    requires RecordShape(record, size) && ValidRecord(record, size)
    requires base + 1 != 0 && index as nat < capacity
    ensures
      var made := MakeJournal(committed, CodeOf(operation), base, index, count, record, size);
      JournalCell(EncodeJournal(made, size), capacity, size)
      == Entry(committed, operation, Number(base) + 1, Number(base), index as nat, count as nat,
               RecordCell(EncodeRecord(record, size), size))
  {
    hide JournalChecksum, CommitChecksum, EncodeJournal, DecodeJournal, ValidRecord, EncodeRecord, RecordCell;
    var made := MakeJournal(committed, CodeOf(operation), base, index, count, record, size);
    WrittenJournalReadsBack(committed, CodeOf(operation), base, index, count, record, capacity, size);
    JournalRoundTrip(made, size);
    JournalRecordBytes(made, size);
    ZeroJournalHasNoMagic(size);
    NextNumber(base);
  }

  // ---------------------------------------------------------------- a transaction

  /** The calls of `kv_transaction`, byte for byte, over the superblock `current` of generation `base`. */
  function CallsOver(current: nat, base: bv64, operation: Operation, index: bv32, count: bv32, record: RecordWire, size: nat)
    : (calls: seq<Call>)
    requires current < 2 && RecordShape(record, size)
    ensures |calls| == 8
  {
    var slot := Number(base) % 2;
    [PutJournal(slot, EncodeJournal(MakeJournal(false, CodeOf(operation), base, index, count, record, size), size)), Flush,
     PutRecord(index as nat, EncodeRecord(record, size)),
     PutSuper(1 - current, EncodeSuper(MakeSuper(base + 1, count))), Flush,
     PutJournal(slot, EncodeJournal(MakeJournal(true, CodeOf(operation), base, index, count, record, size), size)), Flush,
     ZeroJournal(slot)]
  }

  function TransactionCalls(r: Region, d: Disk, operation: Operation, index: bv32, count: bv32, record: RecordWire, size: nat)
    : (calls: seq<Call>)
    requires Shaped(r, size) && WellFormed(d) && HasSuper(d) && RecordShape(record, size)
  {
    CallsOver(Current(d), DecodeSuper(r.supers[Current(d)]).generation, operation, index, count, record, size)
  }

  /** The plan over the same superblock. */
  function PlanOver(current: nat, base: nat, operation: Operation, index: nat, count: nat, cell: Record): (ws: seq<Write>)
    requires current < 2
    ensures |ws| == 8
  {
    var entry := Entry(false, operation, base + 1, base, index, count, cell);
    [WriteJournal(base % 2, entry), Sync,
     WriteRecord(index, cell), WriteSuper(1 - current, Super(base + 1, count)), Sync,
     WriteJournal(base % 2, entry.(committed := true)), Sync,
     EraseJournal(base % 2)]
  }

  lemma PlanIsOver(d: Disk, operation: Operation, index: nat, count: nat, cell: Record)
    requires WellFormed(d) && HasSuper(d) && !operation.FormatOperation? && index < |d.records| && !cell.BadRecord?
    ensures TransactionWrites(d, operation, index, count, cell)
         == PlanOver(Current(d), CurrentSuper(d).generation, operation, index, count, cell)
  {
  }

  lemma OverInStep(q: Region, current: nat, base: bv64, operation: Operation, index: bv32, count: bv32, record: RecordWire, size: nat)
    requires Shaped(q, size) && current < 2 && base + 1 != 0 && index as nat < |q.records|
    requires RecordShape(record, size) && !RecordCell(EncodeRecord(record, size), size).BadRecord?
    ensures InStep(q, CallsOver(current, base, operation, index, count, record, size),
                   PlanOver(current, Number(base), operation, index as nat, count as nat, RecordCell(EncodeRecord(record, size), size)), size)
  {
    hide Agree, EncodeJournal, EncodeSuper, EncodeRecord, RecordCell, MakeJournal, MakeSuper, Number, InStep;
    var slot := Number(base) % 2;
    EntryAgrees(q, slot, false, operation, base, index, count, record, size);
    EntryAgrees(q, slot, true, operation, base, index, count, record, size);
    PutRecordAgrees(q, index as nat, EncodeRecord(record, size), size);
    NextNumber(base);
    PutSuperAgrees(q, 1 - current, base + 1, count, size);
    ZeroJournalAgrees(q, slot, size);
    FlushAgrees(q, size);
    EightInStep(q, CallsOver(current, base, operation, index, count, record, size),
                PlanOver(current, Number(base), operation, index as nat, count as nat, RecordCell(EncodeRecord(record, size), size)), size);
  }

  lemma CurrentGeneration(r: Region, size: nat)
    requires Shaped(r, size) && WellFormed(Cells(r, size)) && HasSuper(Cells(r, size))
    ensures Number(DecodeSuper(r.supers[Current(Cells(r, size))]).generation) == CurrentSuper(Cells(r, size)).generation
  {
    hide JournalCell, RecordCell, DecodeSuper, ValidSuper;
  }

  lemma ValidCell(record: RecordWire, size: nat)
    requires RecordShape(record, size)
    ensures ValidRecord(record, size) <==> !RecordCell(EncodeRecord(record, size), size).BadRecord?
  {
    RecordRoundTrip(record, size);
    hide EncodeRecord, DecodeRecord, RecordChecksum;
    if EncodeRecord(record, size) == Zeros(RECORD_HEAD + size) { ZeroRecordIsUnused(size); }
  }

  lemma ZeroRecordIsUnused(size: nat)
    ensures DecodeRecord(Zeros(RECORD_HEAD + size), size).used == 0
  {
  }

  /** What a transaction writes is read as exactly what the plan says: on any region `q` of that shape, each of
      its eight calls does to the bytes what the planned write does to the cells. */
  lemma TransactionMeans(r: Region, d: Disk, operation: Operation, index: bv32, count: bv32, record: RecordWire, cell: Record,
                         size: nat, q: Region)
    requires Shaped(r, size) && d == Cells(r, size) && WellFormed(d) && HasSuper(d)
    requires !operation.FormatOperation? && index as nat < |d.records| && DecodeSuper(r.supers[Current(d)]).generation + 1 != 0
    requires RecordShape(record, size) && cell == RecordCell(EncodeRecord(record, size), size) && !cell.BadRecord?
    requires Shaped(q, size) && |q.records| == |r.records|
    ensures InStep(q, TransactionCalls(r, d, operation, index, count, record, size),
                   TransactionWrites(d, operation, index as nat, count as nat, cell), size)
  {
    hide Agree, EncodeJournal, EncodeSuper, EncodeRecord, RecordCell, SuperCell, JournalCell, MakeJournal, MakeSuper, DecodeSuper;
    hide Cells, Number, InStep, WellFormed, CallsOver, PlanOver, TransactionWrites;
    CurrentGeneration(r, size);
    CellsWellFormed(r, size);
    PlanIsOver(d, operation, index as nat, count as nat, cell);
    OverInStep(q, Current(d), DecodeSuper(r.supers[Current(d)]).generation, operation, index, count, record, size);
  }

  lemma EightInStep(r: Region, calls: seq<Call>, ws: seq<Write>, size: nat)
    requires Shaped(r, size) && |calls| == |ws| == 8
    requires Agree(r, calls[0], ws[0], size) && Agree(r, calls[1], ws[1], size) && Agree(r, calls[2], ws[2], size)
    requires Agree(r, calls[3], ws[3], size) && Agree(r, calls[4], ws[4], size) && Agree(r, calls[5], ws[5], size)
    requires Agree(r, calls[6], ws[6], size) && Agree(r, calls[7], ws[7], size)
    ensures InStep(r, calls, ws, size)
  {
    hide Agree;
  }

  lemma EntryAgrees(q: Region, slot: nat, committed: bool, operation: Operation, base: bv64, index: bv32, count: bv32, record: RecordWire,
                    size: nat)
    requires Shaped(q, size) && slot < 2 && base + 1 != 0 && index as nat < |q.records|
    requires RecordShape(record, size) && !RecordCell(EncodeRecord(record, size), size).BadRecord?
    ensures Agree(q, PutJournal(slot, EncodeJournal(MakeJournal(committed, CodeOf(operation), base, index, count, record, size), size)),
                  WriteJournal(slot, Entry(committed, operation, Number(base) + 1, Number(base), index as nat, count as nat,
                                           RecordCell(EncodeRecord(record, size), size))), size)
  {
    hide Agree, EncodeJournal, EncodeRecord, RecordCell, JournalCell, MakeJournal, ValidRecord, Number, Cells;
    ValidCell(record, size);
    JournalImage(committed, operation, base, index, count, record, |q.records|, size);
    PutJournalAgrees(q, slot, EncodeJournal(MakeJournal(committed, CodeOf(operation), base, index, count, record, size), size), size);
  }

  // ---------------------------------------------------------------- the layout, byte for byte

  /** What opening makes of the first bytes is the prefix of the cell, and it goes by six bytes, or by twelve
      zeros. */
  lemma PrefixBytes(b: Bytes, capacity: nat)
    requires |b| == SUPER_SIZE
    ensures PrefixOf(SuperCell(b, capacity)) == PrefixCell(b)
    ensures PrefixCell(b) == CurrentPrefix <==> b[..6] == [0x52, 0x54, 0x43, 0x41, 2, 0]
    ensures PrefixCell(b) == LegacyPrefix <==> b[..6] == [0x52, 0x54, 0x43, 0x41, 1, 0]
    ensures PrefixCell(b) == ZeroPrefix <==> b[..12] == Zeros(12)
  {
    hide SuperChecksum;
    MagicBytes(b);
    PrefixIsFieldwise(b);
    ZeroSuperHasNoMagic();
  }

  lemma MagicBytes(b: Bytes)
    requires |b| == SUPER_SIZE
    ensures DecodeSuper(b).magic == 0x41435452 <==> b[0] == 0x52 && b[1] == 0x54 && b[2] == 0x43 && b[3] == 0x41
    ensures DecodeSuper(b).version == 1 <==> b[4] == 1 && b[5] == 0
    ensures DecodeSuper(b).version == 2 <==> b[4] == 2 && b[5] == 0
  {
  }

  lemma PrefixIsFieldwise(b: Bytes)
    requires |b| == SUPER_SIZE
    ensures forall x: bv8 :: b[..6] == [0x52, 0x54, 0x43, 0x41, x, 0] <==>
              b[0] == 0x52 && b[1] == 0x54 && b[2] == 0x43 && b[3] == 0x41 && b[4] == x && b[5] == 0
    ensures b[..12] == Zeros(12) ==> b[0] == 0
    ensures b == Zeros(SUPER_SIZE) ==> b[..12] == Zeros(12)
  {
    assert b[..6][0] == b[0] && b[..6][1] == b[1] && b[..6][2] == b[2] && b[..6][3] == b[3] && b[..6][4] == b[4] && b[..6][5] == b[5];
    assert b[..12] == Zeros(12) ==> b[0] == b[..12][0];
  }

  /** The bytes a journal entry starts with, and those that say it was committed. */
  lemma JournalBytes(committed: bool, operation: Operation, base: bv64, index: bv32, count: bv32, record: RecordWire, size: nat)
    requires RecordShape(record, size)
    ensures var b, c := EncodeJournal(MakeJournal(committed, CodeOf(operation), base, index, count, record, size), size), CommitOffset(size);
            && b[..4] == [0x32, 0x4C, 0x4E, 0x4A] && b[4..6] == [1, 0] && b[6] == (if committed then 2 else 1)
            && b[7] == match operation { case SetOperation => 1 case DeleteOperation => 2 case FormatOperation => 3 }
            && c == 80 + size && b[36..c] == EncodeRecord(record, size)
            && (committed ==> b[c..c + 4] == [0x32, 0x4D, 0x4F, 0x43])
  {
    hide JournalChecksum, CommitChecksum, EncodeRecord, EncodeJournal, JournalHead, JournalTail;
    var j := MakeJournal(committed, CodeOf(operation), base, index, count, record, size);
    var b, c := EncodeJournal(j, size), CommitOffset(size);
    JournalSlices(j, size);
    JournalHeadSlices(j);
    JournalTailSlices(j);
    MagicWords();
    assert b[..4] == b[..32][0..4] && b[4..6] == b[..32][4..6] && b[6] == b[..32][6] && b[7] == b[..32][7];
    assert b[c..c + 4] == b[c..][0..4];
  }

  lemma MagicWords()
    ensures Put32(JOURNAL_MAGIC) == [0x32, 0x4C, 0x4E, 0x4A] && Put32(COMMIT_MAGIC) == [0x32, 0x4D, 0x4F, 0x43] && Put16(1) == [1, 0]
  {
  }

  /** The bytes a published superblock starts with. */
  lemma SuperBytes(generation: bv64, count: bv32)
    ensures EncodeSuper(MakeSuper(generation, count))[..8] == [0x52, 0x54, 0x43, 0x41, 2, 0, 1, 0]
  {
    hide SuperChecksum, EncodeSuper;
    var b := EncodeSuper(MakeSuper(generation, count));
    SuperSlices(MakeSuper(generation, count));
    HeaderWords();
    assert b[..8] == b[0..4] + b[4..6] + b[6..8];
  }

  lemma HeaderWords()
    ensures Put32(HEADER_MAGIC) == [0x52, 0x54, 0x43, 0x41] && Put16(2) == [2, 0] && Put16(1) == [1, 0]
  {
  }

  /** What makes a cell invalid whatever its checksum says: a record with a marker that is neither free nor in use,
      or in use with a key length of zero or over 32 or with a value longer than its room; a superblock of another
      magic, version or layout, or counting more records than there are; an entry of another magic, version, state or
      operation, of generation zero, for no record there is, or committed with another magic or generation. */
  lemma InvalidWhateverTheChecksum(r: RecordWire, s: SuperWire, j: JournalWire, capacity: nat, size: nat)
    requires RecordShape(r, size) && RecordShape(j.record, size)
    ensures r.used > 1 || (r.used == 1 && (r.keyLength == 0 || r.keyLength > 32 || r.valueLength as nat > size)) ==> !ValidRecord(r, size)
    ensures s.magic != 0x41435452 || s.version != 2 || s.layout != 1 || s.count as nat > capacity ==> !ValidSuper(s, capacity)
    ensures j.magic != 0x4A4E4C32 || j.version != 1 || j.generation == 0 ==> !ValidJournal(j, capacity, size)
    ensures (j.state != 1 && j.state != 2) || j.operation == 0 || j.operation > 3 ==> !ValidJournal(j, capacity, size)
    ensures j.operation != 3 && j.index as nat >= capacity ==> !ValidJournal(j, capacity, size)
    ensures j.state == 2 && (j.commitMagic != 0x434F4D32 || j.commitGeneration != j.generation) ==> !ValidJournal(j, capacity, size)
  {
    hide RecordChecksum, SuperChecksum, JournalChecksum, CommitChecksum;
    LongKey(r.keyLength);
  }

  lemma LongKey(n: bv8)
    ensures n as nat > 32 <==> n > 32
    ensures n as nat == 0 <==> n == 0
  {
  }
}
