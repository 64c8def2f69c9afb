/** The storage region of one key-value namespace, cell by cell, and the write sequences
    that recovery, formatting and transactions issue against it.

    A cell is what the store's own decoder and validator make of the bytes at that place:
    a valid superblock, record or journal entry, an erased cell, or one that fails its
    checks. Generations are unbounded here; in the source they are 64-bit counters. */
module KvDisk {
  import opened Counting

  type Bytes = seq<bv8>

  /** `Stale` has its used marker clear but other bytes left over; `BadRecord` fails
      validation. A `Blank` record is all zero. */
  datatype Record = Blank | Stale | InUse(key: Bytes, value: Bytes) | BadRecord {
    predicate IsFree() {
      Blank? || Stale?
    }
  }

  /** What the first twelve bytes of a superblock look like to `kv_prepare_storage`. */
  datatype Prefix = ZeroPrefix | LegacyPrefix | CurrentPrefix | AlienPrefix

  datatype Superblock = Super(generation: nat, count: nat) | BlankSuper | BadSuper(prefix: Prefix)

  datatype Operation = SetOperation | DeleteOperation | FormatOperation

  datatype Journal =
    | Erased
    | BadJournal
    | Entry(committed: bool, operation: Operation, generation: nat, base: nat,
            index: nat, count: nat, record: Record)

  datatype Disk = Disk(supers: seq<Superblock>, records: seq<Record>, journals: seq<Journal>)

  /** The facts that decoding itself guarantees: two superblocks, two journal slots, and
      in every valid cell the fields the validators have bounded. */
  predicate WellFormed(d: Disk) {
    && |d.supers| == 2
    && |d.journals| == 2
    && (forall i | 0 <= i < 2 :: d.supers[i].Super? ==> d.supers[i].count <= |d.records|)
    && (forall i | 0 <= i < 2 :: ValidEntry(d.journals[i], |d.records|))
  }

  predicate ValidEntry(j: Journal, capacity: nat) {
    j.Entry? ==>
      && j.generation > 0
      && (!j.operation.FormatOperation? ==> j.index < capacity && !j.record.BadRecord?)
  }

  // ---------------------------------------------------------------- storage calls

  datatype Write =
    | WriteSuper(slot: nat, super: Superblock)
    | WriteRecord(slot: nat, record: Record)
    | WriteJournal(slot: nat, journal: Journal)
    | EraseJournal(slot: nat)
    | EraseData
    | Sync

  predicate Fits(capacity: nat, w: Write) {
    match w
    case WriteSuper(i, s) => i < 2 && s.Super?
    case WriteRecord(i, _) => i < capacity
    case WriteJournal(i, j) => i < 2 && j.Entry? && ValidEntry(j, capacity)
    case EraseJournal(i) => i < 2
    case EraseData => true
    case Sync => true
  }

  /** A superblock whose count exceeds the capacity does not validate when read back. */
  function Readback(s: Superblock, capacity: nat): Superblock {
    if s.Super? && s.count > capacity then BadSuper(CurrentPrefix) else s
  }

  /** The call completes. */
  function Apply(d: Disk, w: Write): (r: Disk)
    requires WellFormed(d) && Fits(|d.records|, w)
    ensures WellFormed(r) && |r.records| == |d.records|
  {
    match w
    case WriteSuper(i, s) => d.(supers := d.supers[i := Readback(s, |d.records|)])
    case WriteRecord(i, r) => d.(records := d.records[i := r])
    case WriteJournal(i, j) => d.(journals := d.journals[i := j])
    case EraseJournal(i) => d.(journals := d.journals[i := Erased])
    case EraseData => d.(supers := [BlankSuper, BlankSuper], records := seq(|d.records|, _ => Blank))
    case Sync => d
  }

  predicate SameBut<T(==)>(a: seq<T>, b: seq<T>, i: nat) {
    && |a| == |b|
    && i < |a|
    && b == a[i := b[i]]
  }

  /** The call is interrupted half way. A torn superblock or journal fails its checks; a
      torn record may hold anything at all, even something that validates. */
  predicate Torn(d: Disk, w: Write, d': Disk) {
    match w
    case WriteSuper(i, _) =>
      SameBut(d.supers, d'.supers, i) && d'.supers[i].BadSuper? && d' == d.(supers := d'.supers)
    case WriteRecord(i, _) =>
      SameBut(d.records, d'.records, i) && d' == d.(records := d'.records)
    case WriteJournal(i, _) =>
      SameBut(d.journals, d'.journals, i) && d'.journals[i].BadJournal? && d' == d.(journals := d'.journals)
    case EraseJournal(i) =>
      SameBut(d.journals, d'.journals, i) && d'.journals[i].BadJournal? && d' == d.(journals := d'.journals)
    case EraseData =>
      && |d'.supers| == |d.supers|
      && |d'.records| == |d.records|
      && d'.journals == d.journals
      && (forall i | 0 <= i < |d.supers| ::
            d'.supers[i] == d.supers[i] || d'.supers[i].BlankSuper?
            || (d'.supers[i].BadSuper? && !d.supers[i].BlankSuper?))
      && (forall i | 0 <= i < |d.records| ::
            d'.records[i] == d.records[i] || d'.records[i].Blank? || !d.records[i].Blank?)
    case Sync => d' == d
  }

  predicate AllFit(d: Disk, ws: seq<Write>) {
    WellFormed(d) && forall i | 0 <= i < |ws| :: Fits(|d.records|, ws[i])
  }

  function ApplyAll(d: Disk, ws: seq<Write>): (r: Disk)
    requires AllFit(d, ws)
    ensures WellFormed(r) && |r.records| == |d.records|
    decreases |ws|
  {
    if ws == [] then d else ApplyAll(Apply(d, ws[0]), ws[1..])
  }

  /** `d'` is a state in which the sequence of calls may stop: before or after any call,
      or in the middle of one. A crash and a storage error leave the same states behind. */
  predicate Cut(d: Disk, ws: seq<Write>, d': Disk)
    requires AllFit(d, ws)
    decreases |ws|
  {
    d' == d || (ws != [] && (Torn(d, ws[0], d') || Cut(Apply(d, ws[0]), ws[1..], d')))
  }

  lemma {:induction false} RunIsCut(d: Disk, ws: seq<Write>)
    requires AllFit(d, ws)
    ensures Cut(d, ws, ApplyAll(d, ws))
    decreases |ws|
  {
    if ws != [] {
      RunIsCut(Apply(d, ws[0]), ws[1..]);
    }
  }

  lemma {:induction false} ApplyAllAppend(d: Disk, a: seq<Write>, b: seq<Write>)
    requires AllFit(d, a)
    requires AllFit(ApplyAll(d, a), b)
    ensures AllFit(d, a + b)
    ensures ApplyAll(d, a + b) == ApplyAll(ApplyAll(d, a), b)
    decreases |a|
  {
    if a == [] {
      assert a + b == b;
    } else {
      assert (a + b)[1..] == a[1..] + b;
      ApplyAllAppend(Apply(d, a[0]), a[1..], b);
    }
  }

  /** A cut of two sequences in a row falls in the first or in the second. */
  lemma {:induction false} CutAppend(d: Disk, a: seq<Write>, b: seq<Write>, d': Disk)
    requires AllFit(d, a)
    requires AllFit(ApplyAll(d, a), b)
    ensures AllFit(d, a + b)
    ensures Cut(d, a + b, d') <==> Cut(d, a, d') || Cut(ApplyAll(d, a), b, d')
    decreases |a|
  {
    ApplyAllAppend(d, a, b);
    if a == [] {
      assert a + b == b;
    } else {
      assert (a + b)[1..] == a[1..] + b;
      CutAppend(Apply(d, a[0]), a[1..], b, d');
    }
  }

  // ---------------------------------------------------------------- selection

  predicate HasSuper(d: Disk)
    requires WellFormed(d)
  {
    d.supers[0].Super? || d.supers[1].Super?
  }

  /** `kv_select_superblock`: the valid superblock of the highest generation, the first on a tie. */
  function Current(d: Disk): (i: nat)
    requires WellFormed(d) && HasSuper(d)
    ensures i < 2 && d.supers[i].Super?
    ensures forall k | 0 <= k < 2 :: d.supers[k].Super? ==> d.supers[k].generation <= d.supers[i].generation
  {
    if d.supers[1].Super? && (!d.supers[0].Super? || d.supers[1].generation > d.supers[0].generation) then 1 else 0
  }

  function CurrentSuper(d: Disk): (s: Superblock)
    requires WellFormed(d) && HasSuper(d)
    ensures s.Super? && s.count <= |d.records|
  {
    d.supers[Current(d)]
  }

  const NO_JOURNAL: nat := 2

  /** The valid journal of the highest generation, the first on a tie. */
  function NewestJournal(d: Disk): (i: nat)
    requires WellFormed(d)
    ensures i <= NO_JOURNAL
    ensures i == NO_JOURNAL <==> !d.journals[0].Entry? && !d.journals[1].Entry?
    ensures i < NO_JOURNAL ==> d.journals[i].Entry?
    ensures i < NO_JOURNAL ==>
      forall k | 0 <= k < 2 :: d.journals[k].Entry? ==> d.journals[k].generation <= d.journals[i].generation
  {
    if d.journals[1].Entry? && (!d.journals[0].Entry? || d.journals[1].generation > d.journals[0].generation) then 1
    else if d.journals[0].Entry? then 0
    else NO_JOURNAL
  }

  // ---------------------------------------------------------------- records

  const IN_USE: Record -> bool := (r: Record) => r.InUse?

  function Used(records: seq<Record>): nat {
    Count(records, IN_USE)
  }

  predicate NoBadRecord(records: seq<Record>) {
    forall i | 0 <= i < |records| :: !records[i].BadRecord?
  }

  /** `kv_validate_records` accepts. */
  predicate Validates(records: seq<Record>, count: nat) {
    NoBadRecord(records) && Used(records) == count
  }

  // ---------------------------------------------------------------- recovery

  datatype Reason = IoError | NoResource | Unsupported | InvalidArgument

  /** What a routine decides from what it reads: refuse, or issue these storage calls. */
  datatype Plan = Refuse(reason: Reason) | Go(writes: seq<Write>)

  /** `kv_complete_format` for a format journal of the given generation. */
  function FormatWrites(generation: nat): seq<Write> {
    [EraseData, WriteSuper(0, Super(generation, 0)), WriteSuper(1, Super(generation, 0)), Sync]
  }

  /** The redo of a prepared entry. */
  function RedoWrites(d: Disk, slot: nat): seq<Write>
    requires WellFormed(d) && HasSuper(d)
    requires slot < 2 && d.journals[slot].Entry?
  {
    var j := d.journals[slot];
    [WriteRecord(j.index, j.record), WriteSuper(1 - Current(d), Super(j.generation, j.count)), Sync, EraseJournal(slot)]
  }

  /** `kv_recover`. */
  function RecoverPlan(d: Disk): (p: Plan)
    requires WellFormed(d)
    ensures p.Go? ==> AllFit(d, p.writes)
  {
    var newest := NewestJournal(d);
    if !HasSuper(d) then
      if d.journals[0].BadJournal? || d.journals[1].BadJournal? then Refuse(IoError)
      else if newest == NO_JOURNAL then Refuse(NoResource)
      else if !d.journals[newest].operation.FormatOperation? then Refuse(IoError)
      else if d.journals[newest].base != 0 then Refuse(IoError)
      else
        Go(FormatWrites(d.journals[newest].generation) + [EraseJournal(newest)])
    else if newest == NO_JOURNAL then
      if Validates(d.records, CurrentSuper(d).count) then Go([]) else Refuse(IoError)
    else
      var j := d.journals[newest];
      if j.generation <= CurrentSuper(d).generation then Go([EraseJournal(newest)])
      else if j.base != CurrentSuper(d).generation || j.operation.FormatOperation? then Refuse(IoError)
      else Go(RedoWrites(d, newest))
  }

  // ---------------------------------------------------------------- transactions

  function PreparedEntry(d: Disk, operation: Operation, index: nat, count: nat, record: Record): Journal
    requires WellFormed(d) && HasSuper(d)
  {
    var g := CurrentSuper(d).generation;
    Entry(false, operation, g + 1, g, index, count, record)
  }

  /** `kv_transaction` for a set or a delete. */
  function TransactionWrites(d: Disk, operation: Operation, index: nat, count: nat, record: Record): (ws: seq<Write>)
    requires WellFormed(d) && HasSuper(d)
    requires !operation.FormatOperation? && index < |d.records| && !record.BadRecord?
    ensures AllFit(d, ws) && |ws| == 8
  {
    var slot := CurrentSuper(d).generation % 2;
    var entry := PreparedEntry(d, operation, index, count, record);
    [WriteJournal(slot, entry), Sync,
     WriteRecord(index, record), WriteSuper(1 - Current(d), Super(entry.generation, count)), Sync,
     WriteJournal(slot, entry.(committed := true)), Sync,
     EraseJournal(slot)]
  }
}
