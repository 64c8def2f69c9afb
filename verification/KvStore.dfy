/** The store as the source writes it: a region of storage rewritten in place by straight-line
    sequences of storage calls, any of which may fail. */
module KvStore {
  import opened KvDisk
  import opened KvRecords
  import opened KvCrash
  import opened KvFormat
  import opened KvHistory

  /** What happens to one storage call: it works, it fails without or after taking effect, or it
      fails half way and leaves this behind. */
  datatype Fault = Fine | ErrorBefore | ErrorAfter | ErrorTorn(left: Disk)

  datatype Outcome = Success | Failure(reason: Reason)

  predicate NoFaults(faults: seq<Fault>) {
    forall i | 0 <= i < |faults| :: faults[i].Fine?
  }

  lemma TornStaysWellFormed(d: Disk, w: Write, d': Disk)
    requires WellFormed(d) && Fits(|d.records|, w) && Torn(d, w, d')
    ensures WellFormed(d') && |d'.records| == |d.records|
  {
  }

  /** What a call that returned `ok` may have done to the disk. */
  predicate Issued(d: Disk, w: Write, ok: bool, d': Disk)
    requires WellFormed(d) && Fits(|d.records|, w)
  {
    if ok then d' == Apply(d, w) else d' == d || d' == Apply(d, w) || Torn(d, w, d')
  }

  /** A refused plan touches nothing; any other leaves a cut of its calls. */
  predicate PlanCut(p: Plan, d: Disk, d': Disk)
    requires p.Go? ==> AllFit(d, p.writes)
  {
    if p.Refuse? then d' == d else Cut(d, p.writes, d')
  }

  /** The disk after the first `k` calls. */
  function After(d0: Disk, ws: seq<Write>, k: nat): (d: Disk)
    requires AllFit(d0, ws) && k <= |ws|
    ensures WellFormed(d) && |d.records| == |d0.records|
  {
    ApplyAll(d0, ws[..k])
  }

  lemma AfterEnds(d0: Disk, ws: seq<Write>)
    requires AllFit(d0, ws)
    ensures After(d0, ws, 0) == d0 && After(d0, ws, |ws|) == ApplyAll(d0, ws)
  {
    assert ws[..0] == [] && ws[..|ws|] == ws;
  }

  lemma IssuedIsCut(d0: Disk, ws: seq<Write>, k: nat, ok: bool, d': Disk)
    requires k < |ws| && AllFit(d0, ws)
    requires Issued(After(d0, ws, k), ws[k], ok, d')
    ensures ok ==> d' == After(d0, ws, k + 1)
    ensures Cut(d0, ws, d')
  {
    var d := After(d0, ws, k);
    assert ws == ws[..k] + ws[k..] && ws[..k + 1] == ws[..k] + [ws[k]];
    CutAppend(d0, ws[..k], ws[k..], d');
    ApplyAllAppend(d0, ws[..k], [ws[k]]);
    assert [ws[k]][1..] == [];
    assert ws[k..][1..] == ws[k + 1..];
    assert Cut(d, ws[k..], d') by {
      if d' == Apply(d, ws[k]) {
        assert Cut(Apply(d, ws[k]), ws[k + 1..], d');
      }
    }
  }

  lemma LoadFailed(limits: Limits, d: Disk, r: Request, d': Disk)
    requires WellFormed(d) && ValidRequest(limits, r)
    requires PlanCut(RecoverPlan(d), d, d')
    ensures Step(limits, d, Interrupted(r), d')
  {
    if RecoverPlan(d).Go? {
      var ws := RecoverPlan(d).writes;
      CutAppend(d, ws, Serve(ApplyAll(d, ws), r).writes, d');
    }
  }

  /** The service part of an operation, cut or complete, makes the whole operation so. */
  lemma ServedStep(limits: Limits, d: Disk, r: Request, d': Disk)
    requires WellFormed(d) && ValidRequest(limits, r) && RecoverPlan(d).Go?
    ensures
      var d1 := ApplyAll(d, RecoverPlan(d).writes);
      var a := Serve(d1, r);
      && (Cut(d1, a.writes, d') ==> Step(limits, d, Interrupted(r), d'))
      && (d' == ApplyAll(d1, a.writes) ==> Step(limits, d, Completed(r, a.reply), d'))
      && (d' == d1 ==> Step(limits, d, Interrupted(r), d'))
      && (d' == d1 && a.writes == [] ==> Step(limits, d, Completed(r, a.reply), d'))
  {
    var ws := RecoverPlan(d).writes;
    var a := Serve(ApplyAll(d, ws), r);
    CutAppend(d, ws, a.writes, d');
    ApplyAllAppend(d, ws, a.writes);
  }

  class Region {
    var supers: seq<Superblock>
    var records: seq<Record>
    var journals: seq<Journal>
    var faults: seq<Fault>
    const limits: Limits
    const large: bool

    function Contents(): Disk
      reads this
    {
      Disk(supers, records, journals)
    }

    constructor (d: Disk, limits: Limits, large: bool, faults: seq<Fault>)
      ensures Contents() == d && this.faults == faults && this.limits == limits && this.large == large
    {
      supers, records, journals := d.supers, d.records, d.journals;
      this.limits := limits;
      this.large := large;
      this.faults := faults;
    }

    // -------------------------------------------------------------- storage calls

    method NextFault() returns (f: Fault)
      modifies this`faults
      ensures NoFaults(old(faults)) ==> f.Fine? && NoFaults(faults)
    {
      if faults == [] {
        f := Fine;
      } else {
        f := faults[0];
        faults := faults[1..];
      }
    }

    method Read() returns (ok: bool)
      modifies this`faults
      ensures NoFaults(old(faults)) ==> ok && NoFaults(faults)
    {
      var f := NextFault();
      ok := f.Fine?;
    }

    method Issue(w: Write) returns (ok: bool)
      requires WellFormed(Contents()) && Fits(|records|, w)
      modifies this
      ensures Issued(old(Contents()), w, ok, Contents()) && WellFormed(Contents())
      ensures NoFaults(old(faults)) ==> ok && NoFaults(faults)
    {
      var f := NextFault();
      ok := f.Fine?;
      if f.ErrorTorn? && Torn(Contents(), w, f.left) {
        TornStaysWellFormed(Contents(), w, f.left);
        supers, records, journals := f.left.supers, f.left.records, f.left.journals;
      } else if f.Fine? || f.ErrorAfter? {
        match w
        case WriteSuper(i, s) => supers := supers[i := Readback(s, |records|)];
        case WriteRecord(i, r) => records := records[i := r];
        case WriteJournal(i, j) => journals := journals[i := j];
        case EraseJournal(i) => journals := journals[i := Erased];
        case EraseData =>
          supers := [BlankSuper, BlankSuper];
          records := seq(|records|, _ => Blank);
        case Sync =>
      }
    }

    /** One call of a planned sequence. */
    method Attempt(w: Write, ghost d0: Disk, ghost ws: seq<Write>, ghost k: nat) returns (ok: bool)
      requires AllFit(d0, ws) && k < |ws| && ws[k] == w
      requires Contents() == After(d0, ws, k)
      modifies this
      ensures WellFormed(Contents()) && Cut(d0, ws, Contents())
      ensures ok ==> Contents() == After(d0, ws, k + 1)
      ensures NoFaults(old(faults)) ==> ok && NoFaults(faults)
    {
      ok := Issue(w);
      IssuedIsCut(d0, ws, k, ok, Contents());
    }

    // -------------------------------------------------------------- recovery

    /** `kv_validate_records`. */
    method ValidateRecords(expected: nat) returns (r: Outcome)
      modifies this`faults
      ensures r.Success? ==> Validates(records, expected)
      ensures r.Failure? ==> r.reason == IoError
      ensures NoFaults(old(faults)) ==> NoFaults(faults) && (r.Success? <==> Validates(records, expected))
    {
      var count := 0;
      for i := 0 to |records|
        invariant NoBadRecord(records[..i]) && count == Used(records[..i])
        invariant NoFaults(old(faults)) ==> NoFaults(faults)
      {
        var ok := Read();
        if !ok || records[i].BadRecord? {
          return Failure(IoError);
        }
        assert records[..i + 1][..i] == records[..i];
        if records[i].InUse? {
          count := count + 1;
        }
      }
      assert records[..|records|] == records;
      r := if count == expected then Success else Failure(IoError);
    }

    /** `kv_complete_format`, as part of a longer sequence that starts at `k`. */
    method CompleteFormat(generation: nat, ghost d0: Disk, ghost ws: seq<Write>, ghost k: nat) returns (ok: bool)
      requires AllFit(d0, ws) && k + 4 <= |ws| && ws[k..k + 4] == FormatWrites(generation)
      requires Contents() == After(d0, ws, k)
      modifies this
      ensures WellFormed(Contents()) && Cut(d0, ws, Contents())
      ensures ok ==> Contents() == After(d0, ws, k + 4)
      ensures NoFaults(old(faults)) ==> ok && NoFaults(faults)
    {
      assert ws[k] == ws[k..k + 4][0] && ws[k + 1] == ws[k..k + 4][1];
      assert ws[k + 2] == ws[k..k + 4][2] && ws[k + 3] == ws[k..k + 4][3];
      hide After, Cut;
      ok := Attempt(EraseData, d0, ws, k);
      if !ok { return; }
      ok := Attempt(WriteSuper(0, Super(generation, 0)), d0, ws, k + 1);
      if !ok { return; }
      ok := Attempt(WriteSuper(1, Super(generation, 0)), d0, ws, k + 2);
      if !ok { return; }
      ok := Attempt(Sync, d0, ws, k + 3);
    }

    /** `kv_select_superblock`. */
    method SelectSuperblock() returns (ok: bool, none: bool, current: nat)
      requires WellFormed(Contents())
      modifies this`faults
      ensures ok ==> none == !HasSuper(Contents()) && (!none ==> current == Current(Contents()))
      ensures NoFaults(old(faults)) ==> ok && NoFaults(faults)
    {
      none, current := true, 0;
      ok := Read();
      if !ok { return; }
      ok := Read();
      if !ok { return; }
      var valid0, valid1 := supers[0].Super?, supers[1].Super?;
      none := !valid0 && !valid1;
      current := if valid1 && (!valid0 || supers[1].generation > supers[0].generation) then 1 else 0;
    }

    /** The two journal loops of `kv_recover`: reject garbage when there is no superblock, then
        pick the newest valid entry. */
    method SelectJournal(none: bool) returns (ok: bool, selected: nat)
      requires WellFormed(Contents())
      modifies this`faults
      ensures ok ==> selected == NewestJournal(Contents())
      ensures ok && none ==> forall i | 0 <= i < 2 :: !journals[i].BadJournal?
      ensures NoFaults(old(faults)) ==> NoFaults(faults)
      ensures NoFaults(old(faults)) && !ok ==> none && exists i | 0 <= i < 2 :: journals[i].BadJournal?
    {
      selected := NO_JOURNAL;
      for i := 0 to 2
        invariant none ==> forall k | 0 <= k < i :: !journals[k].BadJournal?
        invariant NoFaults(old(faults)) ==> NoFaults(faults)
      {
        ok := Read();
        if !ok { return; }
        if journals[i].BadJournal? && none {
          ok := false;
          return;
        }
      }
      ok := true;
      for i := 0 to 2
        invariant i == 0 ==> selected == NO_JOURNAL
        invariant i == 1 ==> selected == if journals[0].Entry? then 0 else NO_JOURNAL
        invariant i == 2 ==> selected == NewestJournal(Contents())
      {
        if journals[i].Entry? && (selected == NO_JOURNAL || journals[i].generation > journals[selected].generation) {
          selected := i;
        }
      }
    }

    /** `kv_recover`: with the newest superblock and journal entry at hand, finish a format,
        validate, discard an overtaken entry or redo an outstanding one. */
    method Recover() returns (r: Outcome)
      requires WellFormed(Contents())
      modifies this
      ensures WellFormed(Contents())
      ensures r.Success? ==>
        RecoverPlan(old(Contents())).Go? && Contents() == ApplyAll(old(Contents()), RecoverPlan(old(Contents())).writes)
      ensures PlanCut(RecoverPlan(old(Contents())), old(Contents()), Contents())
      ensures r.Failure? && r.reason != IoError ==> RecoverPlan(old(Contents())) == Refuse(r.reason)
      ensures NoFaults(old(faults)) ==> NoFaults(faults)
      ensures NoFaults(old(faults)) ==>
        r == if RecoverPlan(old(Contents())).Go? then Success else Failure(RecoverPlan(old(Contents())).reason)
    {
      var ok, none, current := SelectSuperblock();
      if !ok { return Failure(IoError); }
      var selected;
      ok, selected := SelectJournal(none);
      if !ok { return Failure(IoError); }
      if none {
        r := RecoverFormat(selected);
      } else if selected == NO_JOURNAL {
        r := ValidateRecords(supers[current].count);
      } else {
        var journal := journals[selected];
        if journal.generation <= supers[current].generation {
          ok := Discard(selected);
          r := if ok then Success else Failure(IoError);
        } else if journal.base != supers[current].generation || journal.operation.FormatOperation? {
          r := Failure(IoError);
        } else {
          ok := Redo(selected, current);
          r := if ok then Success else Failure(IoError);
        }
      }
    }

    method RecoverFormat(selected: nat) returns (r: Outcome)
      requires WellFormed(Contents()) && !HasSuper(Contents()) && selected == NewestJournal(Contents())
      requires forall i | 0 <= i < 2 :: !journals[i].BadJournal?
      modifies this
      ensures WellFormed(Contents())
      ensures PlanCut(RecoverPlan(old(Contents())), old(Contents()), Contents())
      ensures RecoverPlan(old(Contents())).Refuse? ==> r == Failure(RecoverPlan(old(Contents())).reason)
      ensures RecoverPlan(old(Contents())).Go? ==>
        if r.Success? then Contents() == ApplyAll(old(Contents()), RecoverPlan(old(Contents())).writes) else r.reason == IoError
      ensures NoFaults(old(faults)) ==> NoFaults(faults) && (RecoverPlan(old(Contents())).Go? ==> r.Success?)
    {
      if selected == NO_JOURNAL {
        return Failure(NoResource);
      }
      var journal := journals[selected];
      if !journal.operation.FormatOperation? || journal.base != 0 {
        return Failure(IoError);
      }
      ghost var d0 := Contents();
      ghost var ws := RecoverPlan(d0).writes;
      assert ws[0..4] == FormatWrites(journal.generation) && ws[4] == EraseJournal(selected);
      AfterEnds(d0, ws);
      hide After, Cut, ApplyAll;
      var ok := CompleteFormat(journal.generation, d0, ws, 0);
      if !ok { return Failure(IoError); }
      ok := Attempt(EraseJournal(selected), d0, ws, 4);
      r := if ok then Success else Failure(IoError);
    }

    method Discard(slot: nat) returns (ok: bool)
      requires WellFormed(Contents()) && slot < 2
      modifies this
      ensures WellFormed(Contents()) && Cut(old(Contents()), [EraseJournal(slot)], Contents())
      ensures ok ==> Contents() == ApplyAll(old(Contents()), [EraseJournal(slot)])
      ensures NoFaults(old(faults)) ==> ok && NoFaults(faults)
    {
      AfterEnds(Contents(), [EraseJournal(slot)]);
      hide After, Cut, ApplyAll;
      ok := Attempt(EraseJournal(slot), Contents(), [EraseJournal(slot)], 0);
    }

    method Redo(slot: nat, current: nat) returns (ok: bool)
      requires WellFormed(Contents()) && HasSuper(Contents()) && current == Current(Contents())
      requires slot < 2 && journals[slot].Entry? && !journals[slot].operation.FormatOperation?
      modifies this
      ensures WellFormed(Contents()) && Cut(old(Contents()), RedoWrites(old(Contents()), slot), Contents())
      ensures ok ==> Contents() == ApplyAll(old(Contents()), RedoWrites(old(Contents()), slot))
      ensures NoFaults(old(faults)) ==> ok && NoFaults(faults)
    {
      ghost var d0 := Contents();
      ghost var ws := RedoWrites(d0, slot);
      AfterEnds(d0, ws);
      hide After, Cut, ApplyAll;
      var journal := journals[slot];
      ok := Attempt(WriteRecord(journal.index, journal.record), d0, ws, 0);
      if !ok { return; }
      ok := Attempt(WriteSuper(1 - current, Super(journal.generation, journal.count)), d0, ws, 1);
      if !ok { return; }
      ok := Attempt(Sync, d0, ws, 2);
      if !ok { return; }
      ok := Attempt(EraseJournal(slot), d0, ws, 3);
    }

    // -------------------------------------------------------------- opening

    /** `kv_prepare_storage`. */
    method Open() returns (r: Outcome)
      requires WellFormed(Contents())
      modifies this
      ensures WellFormed(Contents())
      ensures r.Success? ==>
        && OpenPlan(old(Contents()), large).Go?
        && Contents() == ApplyAll(old(Contents()), OpenPlan(old(Contents()), large).writes)
      ensures PlanCut(OpenPlan(old(Contents()), large), old(Contents()), Contents())
      ensures NoFaults(old(faults)) && OpenPlan(old(Contents()), large).Go? ==> r.Success?
      ensures r == Failure(Unsupported) ==> !large || old(supers)[0] == BadSuper(LegacyPrefix)
      ensures NoFaults(old(faults)) && (!large || old(supers)[0] == BadSuper(LegacyPrefix)) ==> r == Failure(Unsupported)
      ensures large && old(supers)[0] == BadSuper(AlienPrefix) ==> r == Failure(IoError)
      ensures NoFaults(old(faults)) ==>
                (r == Failure(NoResource) <==>
                   large && old(supers)[0] == BadSuper(CurrentPrefix) && !old(supers)[1].Super? && old(journals) == [Erased, Erased])
      ensures NoFaults(old(faults)) && r.Failure? && r.reason != Unsupported && r.reason != NoResource ==> r.reason == IoError
    {
      OpenReasons(Contents(), large);
      hide Cut, ApplyAll, RecoverPlan, FirstFormatWrites, AllZero, Virgin;
      var ok := Read();
      if !ok { return Failure(IoError); }
      if !large { return Failure(Unsupported); }
      ok := Read();
      if !ok { return Failure(IoError); }
      match PrefixOf(supers[0]) {
        case LegacyPrefix => return Failure(Unsupported);
        case AlienPrefix => return Failure(IoError);
        case CurrentPrefix =>
          r := Recover();
          return;
        case ZeroPrefix =>
          r := RecoverOrFormat();
      }
    }

    /** Opening a region that starts with zeros. */
    method RecoverOrFormat() returns (r: Outcome)
      requires WellFormed(Contents()) && PrefixOf(supers[0]).ZeroPrefix?
      modifies this
      ensures WellFormed(Contents())
      ensures r.Success? ==>
        && OpenPlan(old(Contents()), true).Go?
        && Contents() == ApplyAll(old(Contents()), OpenPlan(old(Contents()), true).writes)
      ensures PlanCut(OpenPlan(old(Contents()), true), old(Contents()), Contents())
      ensures r.Failure? && r.reason != IoError ==> OpenPlan(old(Contents()), true) == Refuse(r.reason)
      ensures NoFaults(old(faults)) ==>
        r == if OpenPlan(old(Contents()), true).Go? then Success else Failure(OpenPlan(old(Contents()), true).reason)
    {
      hide ApplyAll, FirstFormatWrites;
      r := Recover();
      if r.Success? || r.reason != NoResource {
        return;
      }
      var ok := Read();
      if !ok || !IsZero() {
        return Failure(IoError);
      }
      r := FirstFormat();
    }

    /** `kv_storage_is_zero`. */
    predicate IsZero()
      reads this
    {
      AllZero(Contents())
    }

    method FirstFormat() returns (r: Outcome)
      requires Virgin(Contents())
      modifies this
      ensures WellFormed(Contents()) && Cut(old(Contents()), FirstFormatWrites(), Contents())
      ensures if r.Success? then Contents() == ApplyAll(old(Contents()), FirstFormatWrites()) else r.reason == IoError
      ensures NoFaults(old(faults)) ==> r.Success? && NoFaults(faults)
    {
      ghost var d0 := Contents();
      ghost var ws := FirstFormatWrites();
      assert ws[2..6] == FormatWrites(1) && |ws| == 9 && AllFit(d0, ws);
      assert ws[0] == WriteJournal(0, FormatEntry(false)) && ws[1] == Sync;
      assert ws[6] == WriteJournal(0, FormatEntry(true)) && ws[7] == Sync && ws[8] == EraseJournal(0);
      AfterEnds(d0, ws);
      hide After, Cut, ApplyAll, AllFit, FormatWrites, FirstFormatWrites, Virgin;
      var ok := Attempt(WriteJournal(0, FormatEntry(false)), d0, ws, 0);
      if !ok { return Failure(IoError); }
      ok := Attempt(Sync, d0, ws, 1);
      if !ok { return Failure(IoError); }
      ok := CompleteFormat(1, d0, ws, 2);
      if !ok { return Failure(IoError); }
      ok := CommitFormat(d0, ws);
      r := if ok then Success else Failure(IoError);
    }

    /** The end of a first format: COMMITTED, sync, erase. */
    method CommitFormat(ghost d0: Disk, ghost ws: seq<Write>) returns (ok: bool)
      requires AllFit(d0, ws) && |ws| == 9
      requires ws[6] == WriteJournal(0, FormatEntry(true)) && ws[7] == Sync && ws[8] == EraseJournal(0)
      requires Contents() == After(d0, ws, 6)
      modifies this
      ensures WellFormed(Contents()) && Cut(d0, ws, Contents())
      ensures ok ==> Contents() == After(d0, ws, 9)
      ensures NoFaults(old(faults)) ==> ok && NoFaults(faults)
    {
      hide After, Cut, AllFit;
      ok := Attempt(WriteJournal(0, FormatEntry(true)), d0, ws, 6);
      if !ok { return; }
      ok := Attempt(Sync, d0, ws, 7);
      if !ok { return; }
      ok := Attempt(EraseJournal(0), d0, ws, 8);
    }

    // -------------------------------------------------------------- search

    /** `kv_find_record`: the last match and the number of records in use. */
    method FindRecord(key: Bytes) returns (ok: bool, found: nat, count: nat)
      modifies this`faults
      ensures ok ==> NoBadRecord(records) && found == FindKey(records, key) && count == Used(records)
      ensures NoFaults(old(faults)) ==> NoFaults(faults) && (ok <==> NoBadRecord(records))
    {
      found, count := |records|, 0;
      for i := 0 to |records|
        invariant NoBadRecord(records[..i]) && count == Used(records[..i])
        invariant found == FindKeyBelow(records, key, i)
        invariant NoFaults(old(faults)) ==> NoFaults(faults)
      {
        ok := Read();
        if !ok || records[i].BadRecord? {
          return false, found, count;
        }
        assert records[..i + 1][..i] == records[..i];
        if records[i].InUse? {
          count := count + 1;
          if records[i].key == key {
            found := i;
          }
        }
      }
      assert records[..|records|] == records;
      ok := true;
    }

    /** `kv_find_free_record`: the first free slot; a read error looks like a full array. */
    method FindFreeRecord() returns (index: nat)
      modifies this`faults
      ensures index <= |records|
      ensures index < |records| ==> records[index].IsFree() && forall j | 0 <= j < index :: records[j].InUse?
      ensures NoFaults(old(faults)) ==> NoFaults(faults)
      ensures NoFaults(old(faults)) && NoBadRecord(records) ==> index == FindFree(records)
    {
      index := 0;
      while index < |records|
        invariant index <= |records|
        invariant forall j | 0 <= j < index :: records[j].InUse?
        invariant NoFaults(old(faults)) ==> NoFaults(faults)
      {
        var ok := Read();
        if !ok || records[index].BadRecord? {
          index := |records|;
          return;
        }
        if records[index].IsFree() {
          return;
        }
        index := index + 1;
      }
    }

    // -------------------------------------------------------------- operations

    /** `kv_transaction`. */
    method Transaction(operation: Operation, index: nat, count: nat, record: Record) returns (ok: bool)
      requires WellFormed(Contents()) && HasSuper(Contents())
      requires !operation.FormatOperation? && index < |records| && !record.BadRecord?
      modifies this
      ensures WellFormed(Contents())
      ensures Cut(old(Contents()), TransactionWrites(old(Contents()), operation, index, count, record), Contents())
      ensures ok ==> Contents() == ApplyAll(old(Contents()), TransactionWrites(old(Contents()), operation, index, count, record))
      ensures NoFaults(old(faults)) ==> ok && NoFaults(faults)
    {
      ghost var d0 := Contents();
      ghost var ws := TransactionWrites(d0, operation, index, count, record);
      AfterEnds(d0, ws);
      var current := Current(Contents());
      var generation := supers[current].generation;
      var slot := generation % 2;
      var journal := Entry(false, operation, generation + 1, generation, index, count, record);
      assert |ws| == 8;
      assert ws[0] == WriteJournal(slot, journal) && ws[1] == Sync && ws[2] == WriteRecord(index, record);
      assert ws[3] == WriteSuper(1 - current, Super(generation + 1, count)) && ws[4] == Sync;
      assert ws[5] == WriteJournal(slot, journal.(committed := true)) && ws[6] == Sync && ws[7] == EraseJournal(slot);
      hide After, Cut, ApplyAll, TransactionWrites;
      ok := Attempt(WriteJournal(slot, journal), d0, ws, 0);
      if !ok { return; }
      ok := Attempt(Sync, d0, ws, 1);
      if !ok { return; }
      ok := Attempt(WriteRecord(index, record), d0, ws, 2);
      if !ok { return; }
      ok := Publish(1 - current, Super(generation + 1, count), slot, journal, d0, ws);
    }

    /** The second half of `kv_transaction`: superblock, sync, COMMITTED, sync, erase. */
    method Publish(other: nat, next: Superblock, slot: nat, journal: Journal, ghost d0: Disk, ghost ws: seq<Write>)
      returns (ok: bool)
      requires AllFit(d0, ws) && |ws| == 8 && journal.Entry?
      requires ws[3] == WriteSuper(other, next) && ws[4] == Sync
      requires ws[5] == WriteJournal(slot, journal.(committed := true)) && ws[6] == Sync && ws[7] == EraseJournal(slot)
      requires Contents() == After(d0, ws, 3)
      modifies this
      ensures WellFormed(Contents()) && Cut(d0, ws, Contents())
      ensures ok ==> Contents() == After(d0, ws, 8)
      ensures NoFaults(old(faults)) ==> ok && NoFaults(faults)
    {
      hide After, Cut;
      ok := Attempt(WriteSuper(other, next), d0, ws, 3);
      if !ok { return; }
      ok := Attempt(Sync, d0, ws, 4);
      if !ok { return; }
      ok := Attempt(WriteJournal(slot, journal.(committed := true)), d0, ws, 5);
      if !ok { return; }
      ok := Attempt(Sync, d0, ws, 6);
      if !ok { return; }
      ok := Attempt(EraseJournal(slot), d0, ws, 7);
    }

    /** What each public operation promises: it completed with the reply of the plan, or it failed
        and the disk is some cut of the plan; without storage faults it always completes. */
    twostate predicate Performed(r: Request, reply: Reply)
      reads this
    {
      && WellFormed(Contents())
      && (|| Step(limits, old(Contents()), Completed(r, reply), Contents())
          || (reply.Failed? && Step(limits, old(Contents()), Interrupted(r), Contents())))
      && (NoFaults(old(faults)) ==> Step(limits, old(Contents()), Completed(r, reply), Contents()))
    }

    /** Argument check and `kv_load_current`, shared by all four operations. */
    method Load(r: Request) returns (reason: Outcome)
      requires WellFormed(Contents())
      modifies this
      ensures WellFormed(Contents())
      ensures reason.Success? ==>
        && ValidRequest(limits, r) && RecoverPlan(old(Contents())).Go?
        && Contents() == ApplyAll(old(Contents()), RecoverPlan(old(Contents())).writes)
        && HasSuper(Contents())
        && (NoFaults(old(faults)) ==> NoFaults(faults))
      ensures reason.Failure? ==> Performed(r, Failed(reason.reason))
    {
      if !ValidRequest(limits, r) {
        return Failure(InvalidArgument);
      }
      reason := Recover();
      if reason.Failure? {
        LoadFailed(limits, old(Contents()), r, Contents());
        return;
      }
      var ok, none, _ := SelectSuperblock();
      if !ok {
        LoadFailed(limits, old(Contents()), r, Contents());
        return Failure(IoError);
      }
      if none {
        LoadFailed(limits, old(Contents()), r, Contents());
        ServedStep(limits, old(Contents()), r, Contents());
        return Failure(NoResource);
      }
    }

    /** `actrust_kv_set`. */
    method Set(key: Bytes, value: Bytes) returns (reply: Reply)
      requires WellFormed(Contents())
      modifies this
      ensures Performed(Request.Set(key, value), reply)
      ensures Inv(old(Contents())) && NoFaults(old(faults)) ==>
                && Inv(Contents()) && |records| == old(|records|)
                && (reply == Failed(InvalidArgument) <==> key == [] || |key| > limits.keyLength || |value| > limits.valueLength)
                && var m := View(old(Contents()));
                   if reply == Failed(InvalidArgument) then Contents() == old(Contents())
                   else if key in m || |m| < |records| then reply == Ok && View(Contents()) == m[key := value]
                   else reply == Failed(NoResource) && View(Contents()) == m
    {
      if Inv(Contents()) { CompletedAnswers(limits, Contents(), Request.Set(key, value)); }
      hide Step, Cut, ApplyAll, RecoverPlan, Inv, View;
      var loaded := Load(Request.Set(key, value));
      if loaded.Failure? {
        return Failed(loaded.reason);
      }
      reply := SetLoaded(key, value, old(Contents()));
    }

    /** The rest of it, once the store is loaded. */
    method SetLoaded(key: Bytes, value: Bytes, ghost before: Disk) returns (reply: Reply)
      requires WellFormed(before) && ValidRequest(limits, Request.Set(key, value)) && RecoverPlan(before).Go?
      requires Contents() == ApplyAll(before, RecoverPlan(before).writes) && HasSuper(Contents())
      modifies this
      ensures WellFormed(Contents())
      ensures || Step(limits, before, Completed(Request.Set(key, value), reply), Contents())
              || (reply.Failed? && Step(limits, before, Interrupted(Request.Set(key, value)), Contents()))
      ensures NoFaults(old(faults)) ==> Step(limits, before, Completed(Request.Set(key, value), reply), Contents())
    {
      hide Step, Cut, ApplyAll, TransactionWrites, RecoverPlan;
      var r := Request.Set(key, value);
      ghost var d1 := Contents();
      var ok, index, count := FindRecord(key);
      ServedStep(limits, before, r, d1);
      if !ok {
        return Failed(IoError);
      }
      if index == |records| {
        index := FindFreeRecord();
        if index == |records| {
          return Failed(NoResource);
        }
        count := count + 1;
        assert index == FindFree(records);
      }
      assert Serve(d1, r) == Action(TransactionWrites(d1, SetOperation, index, count, InUse(key, value)), Ok);
      hide Serve, FindKey, FindFree, Used;
      ok := Transaction(SetOperation, index, count, InUse(key, value));
      ServedStep(limits, before, r, Contents());
      reply := if ok then Ok else Failed(IoError);
    }

    /** `actrust_kv_del`. */
    method Delete(key: Bytes) returns (reply: Reply)
      requires WellFormed(Contents())
      modifies this
      ensures Performed(Request.Delete(key), reply)
      ensures Inv(old(Contents())) && NoFaults(old(faults)) ==>
                && Inv(Contents()) && |records| == old(|records|)
                && (reply == Failed(InvalidArgument) <==> key == [] || |key| > limits.keyLength)
                && var m := View(old(Contents()));
                   if reply == Failed(InvalidArgument) then Contents() == old(Contents())
                   else reply == (if key in m then Ok else Failed(NoResource)) && View(Contents()) == m - {key}
    {
      if Inv(Contents()) { CompletedAnswers(limits, Contents(), Request.Delete(key)); }
      hide Step, Cut, ApplyAll, RecoverPlan, Inv, View;
      var loaded := Load(Request.Delete(key));
      if loaded.Failure? {
        return Failed(loaded.reason);
      }
      reply := DeleteLoaded(key, old(Contents()));
    }

    /** The rest of it, once the store is loaded. */
    method DeleteLoaded(key: Bytes, ghost before: Disk) returns (reply: Reply)
      requires WellFormed(before) && ValidRequest(limits, Request.Delete(key)) && RecoverPlan(before).Go?
      requires Contents() == ApplyAll(before, RecoverPlan(before).writes) && HasSuper(Contents())
      modifies this
      ensures WellFormed(Contents())
      ensures || Step(limits, before, Completed(Request.Delete(key), reply), Contents())
              || (reply.Failed? && Step(limits, before, Interrupted(Request.Delete(key)), Contents()))
      ensures NoFaults(old(faults)) ==> Step(limits, before, Completed(Request.Delete(key), reply), Contents())
    {
      hide Step, Cut, ApplyAll, TransactionWrites, RecoverPlan;
      var r := Request.Delete(key);
      ghost var d1 := Contents();
      var ok, index, count := FindRecord(key);
      ServedStep(limits, before, r, d1);
      if !ok {
        return Failed(IoError);
      }
      if index == |records| {
        return Failed(NoResource);
      }
      UsedUpdate(records, index, Blank);
      assert Serve(d1, r) == Action(TransactionWrites(d1, DeleteOperation, index, count - 1, Blank), Ok);
      hide Serve, FindKey, Used;
      ok := Transaction(DeleteOperation, index, count - 1, Blank);
      ServedStep(limits, before, r, Contents());
      reply := if ok then Ok else Failed(IoError);
    }

    /** `actrust_kv_get`. */
    method Get(key: Bytes, room: nat) returns (reply: Reply)
      requires WellFormed(Contents())
      modifies this
      ensures Performed(Request.Get(key, room), reply)
      ensures Inv(old(Contents())) && NoFaults(old(faults)) ==>
                && Inv(Contents()) && |records| == old(|records|)
                && (reply == Failed(InvalidArgument) <==> key == [] || |key| > limits.keyLength)
                && var m := View(old(Contents()));
                   if reply == Failed(InvalidArgument) then Contents() == old(Contents())
                   else
                     && View(Contents()) == m
                     && reply == if key !in m then Failed(NoResource)
                                 else if |m[key]| <= room then Value(m[key])
                                 else TooSmall(|m[key]|)
    {
      if Inv(Contents()) { CompletedAnswers(limits, Contents(), Request.Get(key, room)); }
      hide Step, Cut, ApplyAll, TransactionWrites, RecoverPlan, Inv, View;
      var r := Request.Get(key, room);
      var loaded := Load(r);
      if loaded.Failure? {
        return Failed(loaded.reason);
      }
      var ok, index, _ := FindRecord(key);
      ServedStep(limits, old(Contents()), r, Contents());
      if !ok {
        return Failed(IoError);
      }
      if index == |records| {
        return Failed(NoResource);
      }
      ok := Read();
      if !ok {
        return Failed(IoError);
      }
      var found := records[index].value;
      reply := if |found| > room then TooSmall(|found|) else Value(found);
    }

    /** `actrust_kv_exists`. */
    method Exists(key: Bytes) returns (reply: Reply)
      requires WellFormed(Contents())
      modifies this
      ensures Performed(Request.Exists(key), reply)
      ensures Inv(old(Contents())) && NoFaults(old(faults)) ==>
                && Inv(Contents()) && |records| == old(|records|)
                && (reply == Failed(InvalidArgument) <==> key == [] || |key| > limits.keyLength)
                && var m := View(old(Contents()));
                   if reply == Failed(InvalidArgument) then Contents() == old(Contents())
                   else reply == Present(key in m) && View(Contents()) == m
    {
      if Inv(Contents()) { CompletedAnswers(limits, Contents(), Request.Exists(key)); }
      hide Step, Cut, ApplyAll, TransactionWrites, RecoverPlan, Inv, View;
      var r := Request.Exists(key);
      var loaded := Load(r);
      if loaded.Failure? {
        return Failed(loaded.reason);
      }
      var ok, index, _ := FindRecord(key);
      ServedStep(limits, old(Contents()), r, Contents());
      reply := if ok then Present(index < |records|) else Failed(IoError);
    }
  }
}
