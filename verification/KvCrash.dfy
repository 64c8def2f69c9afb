/** Crash atomicity of the journaled store: what every point between two storage calls, and
    every torn call, leaves on the disk, and what the next recovery makes of it. */
module KvCrash {
  import opened KvDisk
  import opened KvRecords

  /** At most one journal slot holds a valid entry. */
  predicate AtMostOneEntry(d: Disk)
    requires WellFormed(d)
  {
    !(d.journals[0].Entry? && d.journals[1].Entry?)
  }

  predicate SoundRecords(records: seq<Record>, count: nat) {
    Validates(records, count) && UniqueKeys(records)
  }

  /** No transaction is outstanding: the records are those of the current superblock and any
      entry left in the journal has been overtaken by it. */
  predicate Quiet(d: Disk) {
    && WellFormed(d)
    && HasSuper(d)
    && AtMostOneEntry(d)
    && SoundRecords(d.records, CurrentSuper(d).count)
    && (forall i | 0 <= i < 2 :: d.journals[i].Entry? ==> d.journals[i].generation <= CurrentSuper(d).generation)
  }

  function Redone(d: Disk, slot: nat): seq<Record>
    requires WellFormed(d)
    requires slot < 2 && d.journals[slot].Entry? && d.journals[slot].index < |d.records|
  {
    d.records[d.journals[slot].index := d.journals[slot].record]
  }

  /** A prepared transaction is outstanding in `slot`: it extends the current superblock by one
      generation, and the records are sound once its record is written. */
  predicate PendingIn(d: Disk, slot: nat) {
    && WellFormed(d)
    && HasSuper(d)
    && slot < 2
    && d.journals[slot].Entry?
    && !d.journals[1 - slot].Entry?
    && d.journals[slot].generation == CurrentSuper(d).generation + 1
    && d.journals[slot].base == CurrentSuper(d).generation
    && !d.journals[slot].operation.FormatOperation?
    && d.journals[slot].count <= |d.records|
    && SoundRecords(Redone(d, slot), d.journals[slot].count)
  }

  predicate Pending(d: Disk) {
    PendingIn(d, 0) || PendingIn(d, 1)
  }

  /** The on-disk invariant of a formatted region. */
  predicate Inv(d: Disk) {
    Quiet(d) || Pending(d)
  }

  /** Nothing outstanding and nothing to clean up: the state after a successful recovery. */
  predicate Settled(d: Disk) {
    Quiet(d) && NewestJournal(d) == NO_JOURNAL
  }

  /** The map the store stands for. */
  function View(d: Disk): map<Bytes, Bytes>
    requires Inv(d)
  {
    if PendingIn(d, 0) then MapOf(Redone(d, 0))
    else if PendingIn(d, 1) then MapOf(Redone(d, 1))
    else MapOf(d.records)
  }

  /** The invariant, spelled out the way a reader of the disk sees it. */
  lemma InvMeaning(d: Disk)
    requires Inv(d)
    ensures WellFormed(d) && HasSuper(d) && AtMostOneEntry(d)
    ensures NewestJournal(d) != NO_JOURNAL && d.journals[NewestJournal(d)].generation > CurrentSuper(d).generation
            ==> d.journals[NewestJournal(d)].base == CurrentSuper(d).generation
    ensures (NewestJournal(d) == NO_JOURNAL
             || d.journals[NewestJournal(d)].generation <= CurrentSuper(d).generation)
            ==> NoBadRecord(d.records) && UniqueKeys(d.records) && Used(d.records) == CurrentSuper(d).count
                && View(d) == MapOf(d.records)
    ensures |View(d)| <= |d.records|
  {
    var records := if PendingIn(d, 0) then Redone(d, 0) else if PendingIn(d, 1) then Redone(d, 1) else d.records;
    UsedIsMapSize(records);
    UsedBound(records);
  }

  // ---------------------------------------------------------------- single steps

  /** While an entry is pending, the record it names may hold anything. */
  lemma RecordUnderJournal(d: Disk, d': Disk, slot: nat)
    requires PendingIn(d, slot)
    requires SameBut(d.records, d'.records, d.journals[slot].index) && d' == d.(records := d'.records)
    ensures PendingIn(d', slot) && View(d') == View(d)
  {
    assert Redone(d', slot) == Redone(d, slot);
  }

  /** ... and so may the superblock that is not the current one, as long as it is not newer. */
  lemma OtherSuperTorn(d: Disk, d': Disk, slot: nat)
    requires PendingIn(d, slot)
    requires SameBut(d.supers, d'.supers, 1 - Current(d)) && d' == d.(supers := d'.supers)
    requires d'.supers[1 - Current(d)].BadSuper?
    ensures PendingIn(d', slot) && View(d') == View(d)
  {
    assert CurrentSuper(d') == CurrentSuper(d);
    assert Redone(d', slot) == Redone(d, slot);
  }

  /** Publishing the superblock commits. */
  lemma SuperPublished(d: Disk, slot: nat)
    requires PendingIn(d, slot)
    requires d.records[d.journals[slot].index] == d.journals[slot].record
    ensures
      var j := d.journals[slot];
      var d' := Apply(d, WriteSuper(1 - Current(d), Super(j.generation, j.count)));
      Quiet(d') && View(d') == View(d) && CurrentSuper(d') == Super(j.generation, j.count)
  {
    var j := d.journals[slot];
    var d' := Apply(d, WriteSuper(1 - Current(d), Super(j.generation, j.count)));
    assert Redone(d, slot) == d.records;
    assert CurrentSuper(d') == Super(j.generation, j.count);
    assert !PendingIn(d', 0) && !PendingIn(d', 1);
  }

  /** A quiet disk stays quiet whatever happens to one journal slot, short of a newer entry. */
  lemma JournalWhileQuiet(d: Disk, d': Disk, slot: nat)
    requires Quiet(d)
    requires SameBut(d.journals, d'.journals, slot) && d' == d.(journals := d'.journals)
    requires !d'.journals[slot].Entry?
          || (ValidEntry(d'.journals[slot], |d.records|)
              && d'.journals[slot].generation <= CurrentSuper(d).generation
              && !d.journals[1 - slot].Entry?)
    ensures Quiet(d') && View(d') == View(d)
  {
    assert CurrentSuper(d') == CurrentSuper(d);
  }

  // ---------------------------------------------------------------- recovery

  lemma RedoCut(d: Disk, slot: nat, d': Disk)
    requires PendingIn(d, slot)
    requires Cut(d, RedoWrites(d, slot), d')
    ensures Inv(d') && View(d') == View(d)
  {
    var j, ws := d.journals[slot], RedoWrites(d, slot);
    assert View(d) == MapOf(Redone(d, slot));
    if Torn(d, ws[0], d') {
      RecordUnderJournal(d, d', slot);
    } else if d' != d {
      var d1 := Apply(d, ws[0]);
      RecordUnderJournal(d, d1, slot);
      SuperPublished(d1, slot);
      RedoTail(d1, slot, ws[1..], d');
    }
  }

  lemma RedoTail(d1: Disk, slot: nat, ws: seq<Write>, d': Disk)
    requires PendingIn(d1, slot)
    requires d1.records[d1.journals[slot].index] == d1.journals[slot].record
    requires ws == [WriteSuper(1 - Current(d1), Super(d1.journals[slot].generation, d1.journals[slot].count)),
                    Sync, EraseJournal(slot)]
    requires Cut(d1, ws, d')
    ensures Inv(d') && View(d') == View(d1)
  {
    if Torn(d1, ws[0], d') {
      OtherSuperTorn(d1, d', slot);
    } else if d' != d1 {
      SuperPublished(d1, slot);
      var d2 := Apply(d1, ws[0]);
      assert Cut(d2, ws[1..], d');
      if d' != d2 {
        assert ws[1..][1..] == [EraseJournal(slot)];
        EraseCut(d2, slot, d');
      }
    }
  }

  lemma EraseCut(d: Disk, slot: nat, d': Disk)
    requires Quiet(d) && slot < 2
    requires Cut(d, [EraseJournal(slot)], d')
    ensures Quiet(d') && View(d') == View(d)
  {
    var d1 := Apply(d, EraseJournal(slot));
    assert d' == d || Torn(d, EraseJournal(slot), d') || Cut(d1, [], d');
    assert Cut(d1, [], d') <==> d' == d1;
    if d' != d {
      JournalWhileQuiet(d, d', slot);
    }
  }

  /** Recovery accepts every state the invariant allows. A recovery that is cut leaves the
      same map; one that completes settles the disk on it. */
  lemma RecoveryKeepsView(d: Disk)
    requires Inv(d)
    ensures RecoverPlan(d).Go?
    ensures forall d' | Cut(d, RecoverPlan(d).writes, d') :: Inv(d') && View(d') == View(d)
    ensures Settled(ApplyAll(d, RecoverPlan(d).writes))
    ensures MapOf(ApplyAll(d, RecoverPlan(d).writes).records) == View(d)
  {
    var newest := NewestJournal(d);
    if newest == NO_JOURNAL {
    } else if Quiet(d) {
      assert RecoverPlan(d) == Go([EraseJournal(newest)]);
      forall d' | Cut(d, [EraseJournal(newest)], d')
        ensures Inv(d') && View(d') == View(d)
      {
        EraseCut(d, newest, d');
      }
      RunIsCut(d, [EraseJournal(newest)]);
      assert ApplyAll(d, [EraseJournal(newest)]) == Apply(d, EraseJournal(newest));
    } else {
      assert PendingIn(d, newest);
      forall d' | Cut(d, RedoWrites(d, newest), d')
        ensures Inv(d') && View(d') == View(d)
      {
        RedoCut(d, newest, d');
      }
      RedoSettles(d, newest);
    }
  }

  /** The three writes of a redo, without its sync. */
  function RedoEnd(d: Disk, slot: nat): Disk
    requires WellFormed(d) && HasSuper(d) && slot < 2 && d.journals[slot].Entry? && d.journals[slot].index < |d.records|
  {
    var j := d.journals[slot];
    Apply(Apply(Apply(d, WriteRecord(j.index, j.record)), WriteSuper(1 - Current(d), Super(j.generation, j.count))), EraseJournal(slot))
  }

  lemma RedoEndSettles(d: Disk, slot: nat)
    requires PendingIn(d, slot)
    ensures Settled(RedoEnd(d, slot)) && MapOf(RedoEnd(d, slot).records) == View(d)
  {
    var j := d.journals[slot];
    var d1 := Apply(d, WriteRecord(j.index, j.record));
    RecordUnderJournal(d, d1, slot);
    SuperPublished(d1, slot);
    var d2 := Apply(d1, WriteSuper(1 - Current(d), Super(j.generation, j.count)));
    JournalWhileQuiet(d2, Apply(d2, EraseJournal(slot)), slot);
  }

  lemma RedoSettles(d: Disk, slot: nat)
    requires PendingIn(d, slot)
    ensures Settled(ApplyAll(d, RedoWrites(d, slot)))
    ensures MapOf(ApplyAll(d, RedoWrites(d, slot)).records) == View(d)
  {
    var ws := RedoWrites(d, slot);
    RedoEndSettles(d, slot);
    assert ws[0..] == ws && ws[4..] == [];
    ApplyFrom(d, ws, 0);
    var d1 := Apply(d, ws[0]);
    ApplyFrom(d1, ws, 1);
    var d2 := Apply(d1, ws[1]);
    ApplyFrom(d2, ws, 2);
    ApplyFrom(d2, ws, 3);
    assert ApplyAll(RedoEnd(d, slot), []) == RedoEnd(d, slot);
    hide Settled, Apply, ApplyAll;
  }

  /** Any number of recoveries, each cut somewhere. */
  predicate CutRecoveries(states: seq<Disk>) {
    && states != []
    && (forall i | 0 <= i < |states| :: WellFormed(states[i]))
    && forall i | 0 <= i < |states| - 1 ::
         RecoverPlan(states[i]).Go? && Cut(states[i], RecoverPlan(states[i]).writes, states[i + 1])
  }

  /** However often recovery itself is interrupted, the one that completes reaches the map of
      an uninterrupted one, and a further recovery changes nothing. */
  lemma {:induction false} RecoveryConverges(states: seq<Disk>)
    requires CutRecoveries(states) && Inv(states[0])
    ensures
      var last := states[|states| - 1];
      && Inv(last)
      && RecoverPlan(last).Go?
      && MapOf(ApplyAll(last, RecoverPlan(last).writes).records)
         == MapOf(ApplyAll(states[0], RecoverPlan(states[0]).writes).records)
      && RecoverPlan(ApplyAll(last, RecoverPlan(last).writes)) == Go([])
  {
    var n := |states| - 1;
    RecoveryKeepsView(states[0]);
    if n == 0 {
    } else {
      assert CutRecoveries(states[..n]);
      RecoveryConverges(states[..n]);
      RecoveryKeepsView(states[n - 1]);
      assert Inv(states[n]);
      RecoveryKeepsView(states[n]);
    }
  }

  // ---------------------------------------------------------------- transactions

  /** A transaction that recovery could have produced: the records it aims at are sound. */
  predicate GoodTransaction(d: Disk, operation: Operation, index: nat, count: nat, record: Record) {
    && Settled(d)
    && !operation.FormatOperation?
    && index < |d.records|
    && !record.BadRecord?
    && SoundRecords(d.records[index := record], count)
  }

  lemma PreparedIsPending(d: Disk, operation: Operation, index: nat, count: nat, record: Record)
    requires GoodTransaction(d, operation, index, count, record)
    ensures
      var slot := CurrentSuper(d).generation % 2;
      var d1 := Apply(d, WriteJournal(slot, PreparedEntry(d, operation, index, count, record)));
      && PendingIn(d1, slot)
      && Current(d1) == Current(d)
      && View(d1) == MapOf(d.records[index := record])
  {
    UsedBound(d.records[index := record]);
    var slot := CurrentSuper(d).generation % 2;
    var d1 := Apply(d, WriteJournal(slot, PreparedEntry(d, operation, index, count, record)));
    assert CurrentSuper(d1) == CurrentSuper(d);
    assert Redone(d1, slot) == d.records[index := record];
  }

  /** The calls that follow the superblock: write COMMITTED, sync, erase. */
  lemma CommitTailCut(d: Disk, slot: nat, entry: Journal, ws: seq<Write>, d': Disk)
    requires Quiet(d) && slot < 2 && !d.journals[1 - slot].Entry?
    requires entry.Entry? && ValidEntry(entry, |d.records|) && entry.generation <= CurrentSuper(d).generation
    requires ws == [Sync, WriteJournal(slot, entry), Sync, EraseJournal(slot)]
    requires Cut(d, ws, d')
    ensures Quiet(d') && View(d') == View(d)
  {
    assert ws[1..] == [WriteJournal(slot, entry), Sync, EraseJournal(slot)];
    if d' != d {
      assert Cut(d, ws[1..], d');
      var d1 := Apply(d, ws[1]);
      JournalWhileQuiet(d, d1, slot);
      if Torn(d, ws[1], d') {
        JournalWhileQuiet(d, d', slot);
      } else {
        assert ws[1..][1..] == [Sync, EraseJournal(slot)];
        assert Cut(d1, [Sync, EraseJournal(slot)], d');
        if d' != d1 {
          assert [Sync, EraseJournal(slot)][1..] == [EraseJournal(slot)];
          EraseCut(d1, slot, d');
        }
      }
    }
  }

  /** From the moment the PREPARED entry is on the disk, every later cut yields the new map. */
  lemma AfterPrepared(d: Disk, operation: Operation, index: nat, count: nat, record: Record, d': Disk)
    requires GoodTransaction(d, operation, index, count, record)
    requires
      var ws := TransactionWrites(d, operation, index, count, record);
      Cut(Apply(d, ws[0]), ws[1..], d')
    ensures Inv(d') && View(d') == MapOf(d.records[index := record])
  {
    var slot := CurrentSuper(d).generation % 2;
    var ws := TransactionWrites(d, operation, index, count, record);
    var d1 := Apply(d, ws[0]);
    PreparedIsPending(d, operation, index, count, record);
    if d' != d1 {
      assert Cut(d1, ws[1..][1..], d');
      assert ws[1..][1..] == ws[2..];
      var d2 := Apply(d1, ws[2]);
      RecordUnderJournal(d1, d2, slot);
      if Torn(d1, ws[2], d') {
        RecordUnderJournal(d1, d', slot);
      } else if d' != d1 {
        assert ws[2..][1..] == ws[3..];
        assert Cut(d2, ws[3..], d');
        AfterRecord(d, operation, index, count, record, d2, d');
      }
    }
  }

  lemma AfterRecord(d: Disk, operation: Operation, index: nat, count: nat, record: Record, d2: Disk, d': Disk)
    requires GoodTransaction(d, operation, index, count, record)
    requires
      var slot := CurrentSuper(d).generation % 2;
      && PendingIn(d2, slot)
      && Current(d2) == Current(d)
      && d2.journals[slot] == PreparedEntry(d, operation, index, count, record)
      && |d2.records| == |d.records|
      && d2.records[index] == record
    requires Cut(d2, TransactionWrites(d, operation, index, count, record)[3..], d')
    ensures Inv(d') && View(d') == View(d2)
  {
    var slot := CurrentSuper(d).generation % 2;
    var ws := TransactionWrites(d, operation, index, count, record);
    SuperPublished(d2, slot);
    if Torn(d2, ws[3], d') {
      OtherSuperTorn(d2, d', slot);
    } else if d' != d2 {
      assert ws[3..][1..] == ws[4..];
      CommitTailCut(Apply(d2, ws[3]), slot, ws[5].journal, ws[4..], d');
    }
  }

  /** Crash atomicity of one transaction, at every cut. */
  lemma TransactionAtomic(d: Disk, operation: Operation, index: nat, count: nat, record: Record, d': Disk)
    requires GoodTransaction(d, operation, index, count, record)
    requires Cut(d, TransactionWrites(d, operation, index, count, record), d')
    ensures Inv(d')
    ensures View(d') == MapOf(d.records) || View(d') == MapOf(d.records[index := record])
  {
    var ws := TransactionWrites(d, operation, index, count, record);
    if d' == d {
    } else if Torn(d, ws[0], d') {
      JournalWhileQuiet(d, d', ws[0].slot);
    } else {
      AfterPrepared(d, operation, index, count, record, d');
    }
  }

  /** The five writes of a transaction, without its syncs. */
  function TransactionEnd(d: Disk, ws: seq<Write>): Disk
    requires |ws| == 8 && AllFit(d, ws)
  {
    Apply(Apply(Apply(Apply(Apply(d, ws[0]), ws[2]), ws[3]), ws[5]), ws[7])
  }

  lemma TransactionEndSettles(d: Disk, operation: Operation, index: nat, count: nat, record: Record)
    requires GoodTransaction(d, operation, index, count, record)
    ensures
      var ws := TransactionWrites(d, operation, index, count, record);
      var d' := TransactionEnd(d, ws);
      && Settled(d')
      && d'.records == d.records[index := record]
      && CurrentSuper(d') == Super(CurrentSuper(d).generation + 1, count)
  {
    var ws := TransactionWrites(d, operation, index, count, record);
    var slot := CurrentSuper(d).generation % 2;
    var d1 := Apply(d, ws[0]);
    PreparedIsPending(d, operation, index, count, record);
    var d2 := Apply(d1, ws[2]);
    RecordUnderJournal(d1, d2, slot);
    SuperPublished(d2, slot);
    var d3 := Apply(d2, ws[3]);
    var d4 := Apply(d3, ws[5]);
    JournalWhileQuiet(d3, d4, slot);
    JournalWhileQuiet(d4, Apply(d4, ws[7]), slot);
  }

  lemma TransactionSettles(d: Disk, operation: Operation, index: nat, count: nat, record: Record)
    requires GoodTransaction(d, operation, index, count, record)
    ensures
      var d' := ApplyAll(d, TransactionWrites(d, operation, index, count, record));
      && Settled(d')
      && d'.records == d.records[index := record]
      && CurrentSuper(d') == Super(CurrentSuper(d).generation + 1, count)
  {
    ApplyEight(d, TransactionWrites(d, operation, index, count, record));
    TransactionEndSettles(d, operation, index, count, record);
    hide Settled, CurrentSuper, ApplyAll, Apply;
  }

  lemma ApplyFrom(d: Disk, ws: seq<Write>, k: nat)
    requires k < |ws| && AllFit(d, ws)
    ensures ApplyAll(d, ws[k..]) == ApplyAll(Apply(d, ws[k]), ws[k + 1..])
    ensures AllFit(Apply(d, ws[k]), ws)
    ensures ws[k].Sync? ==> Apply(d, ws[k]) == d
  {
    assert ws[k..][1..] == ws[k + 1..];
  }

  lemma ApplyEight(d: Disk, ws: seq<Write>)
    requires |ws| == 8 && AllFit(d, ws)
    requires ws[1].Sync? && ws[4].Sync? && ws[6].Sync?
    ensures ApplyAll(d, ws) == TransactionEnd(d, ws)
  {
    assert ws[0..] == ws && ws[8..] == [];
    ApplyFrom(d, ws, 0);
    var d1 := Apply(d, ws[0]);
    ApplyFrom(d1, ws, 1);
    ApplyFrom(d1, ws, 2);
    var d2 := Apply(d1, ws[2]);
    ApplyFrom(d2, ws, 3);
    var d3 := Apply(d2, ws[3]);
    ApplyFrom(d3, ws, 4);
    ApplyFrom(d3, ws, 5);
    var d4 := Apply(d3, ws[5]);
    ApplyFrom(d4, ws, 6);
    ApplyFrom(d4, ws, 7);
    assert ApplyAll(Apply(d4, ws[7]), []) == Apply(d4, ws[7]);
    hide Apply, ApplyAll;
  }
}
