/** What the store does not survive: a record and the superblock that publishes it are written
    without a sync between them, in a transaction and again when recovery redoes one, so a device that
    may persist unsynced writes in any order can keep the superblock and lose the record. The adapters of
    the SDK sync inside every write; other ports of `storage.h` need not. */
module KvReorder {
  import opened KvDisk
  import opened KvRecords
  import opened KvCrash

  /** The superblock that publishes the entry in `slot`. */
  function Published(d: Disk, slot: nat): Superblock
    requires PendingIn(d, slot)
  {
    Super(d.journals[slot].generation, d.journals[slot].count)
  }

  /** A power loss in the unsynced window while the entry in `slot` is outstanding. The device may have
      kept, lost or torn the record and the superblock, each for itself: the record's cell holds
      anything at all, the other superblock what it held, something invalid, or the new one. */
  predicate InWindow(d: Disk, slot: nat, d': Disk)
    requires PendingIn(d, slot)
  {
    var other := 1 - Current(d);
    && SameBut(d.records, d'.records, d.journals[slot].index)
    && SameBut(d.supers, d'.supers, other)
    && (d'.supers[other] == d.supers[other] || d'.supers[other].BadSuper? || d'.supers[other] == Published(d, slot))
    && d'.journals == d.journals
  }

  /** The window is that of a transaction, once its PREPARED entry is synced ... */
  lemma TransactionWindow(d: Disk, operation: Operation, index: nat, count: nat, record: Record)
    requires GoodTransaction(d, operation, index, count, record)
    ensures
      var ws, slot := TransactionWrites(d, operation, index, count, record), CurrentSuper(d).generation % 2;
      var d1 := Apply(d, ws[0]);
      && ws[1].Sync? && ws[4].Sync? && PendingIn(d1, slot)
      && ws[2] == WriteRecord(d1.journals[slot].index, d1.journals[slot].record)
      && ws[3] == WriteSuper(1 - Current(d1), Published(d1, slot))
      && View(d1) == MapOf(d.records[index := record])
  {
    PreparedIsPending(d, operation, index, count, record);
  }

  /** ... and that of every recovery that redoes it. */
  lemma RecoveryWindow(d: Disk, slot: nat)
    requires PendingIn(d, slot)
    ensures RecoverPlan(d) == Go(RedoWrites(d, slot))
    ensures
      var ws := RedoWrites(d, slot);
      && ws[2].Sync?
      && ws[0] == WriteRecord(d.journals[slot].index, d.journals[slot].record)
      && ws[1] == WriteSuper(1 - Current(d), Published(d, slot))
  {
  }

  /** The new superblock is on the medium, and the records under it are not the ones it publishes. */
  predicate Outrun(d: Disk, slot: nat, d': Disk)
    requires PendingIn(d, slot) && InWindow(d, slot, d')
  {
    && d'.supers[1 - Current(d)] == Published(d, slot)
    && !(SoundRecords(d'.records, d.journals[slot].count) && MapOf(d'.records) == View(d))
  }

  lemma OthersAreOlder(d: Disk, slot: nat)
    requires PendingIn(d, slot)
    ensures d.supers[1 - Current(d)] != Published(d, slot)
  {
  }

  /** Without the new superblock the entry stays outstanding, and so does its map. */
  lemma Unpublished(d: Disk, slot: nat, d': Disk)
    requires PendingIn(d, slot) && InWindow(d, slot, d')
    requires d'.supers[1 - Current(d)] != Published(d, slot)
    ensures PendingIn(d', slot) && View(d') == View(d) && Current(d') == Current(d)
  {
    var d1 := d.(records := d'.records);
    RecordUnderJournal(d, d1, slot);
    if d'.supers[1 - Current(d)].BadSuper? {
      OtherSuperTorn(d1, d', slot);
    } else {
      assert d' == d1;
    }
  }

  /** With it the disk is what its records are. */
  lemma PublishedOverRecords(d: Disk, slot: nat, d': Disk)
    requires PendingIn(d, slot) && InWindow(d, slot, d') && d'.supers[1 - Current(d)] == Published(d, slot)
    ensures WellFormed(d') && HasSuper(d') && CurrentSuper(d') == Published(d, slot)
    ensures Inv(d') <==> SoundRecords(d'.records, d.journals[slot].count)
    ensures Inv(d') ==> View(d') == MapOf(d'.records)
    ensures RecoverPlan(d') == Go([EraseJournal(slot)])
  {
    assert !PendingIn(d', 0) && !PendingIn(d', 1);
    assert NewestJournal(d') == slot;
  }

  /** In either window, whatever the device kept, lost or tore, the outstanding transaction survives if
      and only if the superblock has not outrun the record. */
  lemma SurvivesIffOrdered(d: Disk, slot: nat, d': Disk)
    requires PendingIn(d, slot) && InWindow(d, slot, d')
    ensures Inv(d') && View(d') == View(d) <==> !Outrun(d, slot, d')
  {
    if d'.supers[1 - Current(d)] == Published(d, slot) {
      PublishedOverRecords(d, slot, d');
    } else {
      Unpublished(d, slot, d');
    }
  }

  /** Any number of power losses, each in the window of the recovery that follows the one before. */
  predicate Losses(states: seq<Disk>, slot: nat) {
    && states != []
    && (forall i | 0 <= i < |states| - 1 :: PendingIn(states[i], slot) && InWindow(states[i], slot, states[i + 1]))
  }

  lemma PendingIsNotOutrun(d: Disk, slot: nat, d': Disk)
    requires PendingIn(d, slot) && InWindow(d, slot, d') && PendingIn(d', slot)
    ensures !Outrun(d, slot, d')
  {
    if d'.supers[1 - Current(d)] == Published(d, slot) {
      PublishedOverRecords(d, slot, d');
    }
  }

  lemma {:induction false} LossesKeepPending(states: seq<Disk>, slot: nat, n: nat)
    requires Losses(states, slot) && n < |states| && PendingIn(states[n], slot)
    ensures View(states[n]) == View(states[0])
  {
    hide PendingIn, InWindow, Outrun, View, Inv;
    if n > 0 {
      LossesKeepPending(states, slot, n - 1);
      PendingIsNotOutrun(states[n - 1], slot, states[n]);
      SurvivesIffOrdered(states[n - 1], slot, states[n]);
    }
  }

  /** Over any number of them the transaction survives if and only if the superblock did not outrun the
      record in the last one; an entry that is still outstanding is never lost. */
  lemma SurvivesLossesIff(states: seq<Disk>, slot: nat)
    requires Losses(states, slot) && |states| > 1
    ensures
      var n := |states| - 1;
      Inv(states[n]) && View(states[n]) == View(states[0]) <==> !Outrun(states[n - 1], slot, states[n])
  {
    var n := |states| - 1;
    LossesKeepPending(states, slot, n - 1);
    SurvivesIffOrdered(states[n - 1], slot, states[n]);
    hide PendingIn, InWindow, Outrun, View, Inv;
  }

  /** A loss that keeps the superblock and not the record is always possible. Recovery accepts the disk,
      gives back the map of the old records, and, when their number is not the published one, every
      later operation fails. */
  lemma LostRecordIsNotNoticed(d: Disk, slot: nat)
    requires PendingIn(d, slot)
    ensures
      var d' := d.(supers := d.supers[1 - Current(d) := Published(d, slot)]);
      && InWindow(d, slot, d') && RecoverPlan(d').Go?
      && var d'' := ApplyAll(d', RecoverPlan(d').writes);
         && d''.records == d.records
         && RecoverPlan(d'') == if Validates(d.records, d.journals[slot].count) then Go([]) else Refuse(IoError)
  {
    var d' := d.(supers := d.supers[1 - Current(d) := Published(d, slot)]);
    PublishedOverRecords(d, slot, d');
    var ws := [EraseJournal(slot)];
    assert ws[0..] == ws && ws[1..] == [];
    ApplyFrom(d', ws, 0);
    var d'' := ApplyAll(d', ws);
    assert d'' == Apply(d', ws[0]);
    assert NewestJournal(d'') == NO_JOURNAL;
    assert CurrentSuper(d'') == CurrentSuper(d');
  }
}
