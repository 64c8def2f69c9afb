/** Opening a region: the first format, its crash behaviour, and what opening never destroys. */
module KvFormat {
  import opened KvDisk
  import opened KvRecords
  import opened KvCrash

  function PrefixOf(s: Superblock): Prefix {
    match s
    case Super(_, _) => CurrentPrefix
    case BlankSuper => ZeroPrefix
    case BadSuper(p) => p
  }

  predicate AllZero(d: Disk) {
    && (forall i | 0 <= i < |d.supers| :: d.supers[i].BlankSuper?)
    && (forall i | 0 <= i < |d.records| :: d.records[i].Blank?)
    && (forall i | 0 <= i < |d.journals| :: d.journals[i].Erased?)
  }

  function FormatEntry(committed: bool): Journal {
    Entry(committed, FormatOperation, 1, 0, 0, 0, Blank)
  }

  function FirstFormatWrites(): seq<Write> {
    [WriteJournal(0, FormatEntry(false)), Sync]
    + FormatWrites(1)
    + [WriteJournal(0, FormatEntry(true)), Sync, EraseJournal(0)]
  }

  /** `kv_prepare_storage`; `large` says that the region is big enough for the layout. */
  function OpenPlan(d: Disk, large: bool): (p: Plan)
    requires WellFormed(d)
    ensures p.Go? ==> AllFit(d, p.writes)
  {
    if !large then Refuse(Unsupported)
    else match PrefixOf(d.supers[0])
      case LegacyPrefix => Refuse(Unsupported)
      case AlienPrefix => Refuse(IoError)
      case CurrentPrefix => RecoverPlan(d)
      case ZeroPrefix =>
        match RecoverPlan(d)
        case Go(writes) => Go(writes)
        case Refuse(reason) =>
          if reason != NoResource then Refuse(reason)
          else if !AllZero(d) then Refuse(IoError)
          else Go(FirstFormatWrites())
  }

  /** When recovery refuses, and why. With a valid superblock: when the newest entry is newer but extends another
      generation or is a format's, or when there is no entry and the records are not those published. Without one:
      when there is nothing at all, when a journal slot holds garbage, or when the newest entry is not that of a first
      format. */
  lemma RecoverReasons(d: Disk)
    requires WellFormed(d)
    ensures var newest := NewestJournal(d);
            RecoverPlan(d).Go? <==>
              if d.supers[0].Super? || d.supers[1].Super? then
                if newest == 2 then Validates(d.records, CurrentSuper(d).count)
                else d.journals[newest].generation <= CurrentSuper(d).generation
                     || (d.journals[newest].base == CurrentSuper(d).generation && d.journals[newest].operation != FormatOperation)
              else !d.journals[0].BadJournal? && !d.journals[1].BadJournal? && newest < 2
                   && d.journals[newest].operation == FormatOperation && d.journals[newest].base == 0
    ensures RecoverPlan(d).Refuse? ==>
              RecoverPlan(d).reason == if !d.supers[0].Super? && !d.supers[1].Super? && d.journals == [Erased, Erased] then NoResource
                                       else IoError
  {
    hide RedoWrites, FormatWrites, Validates;
  }

  /** Why opening refuses: too small a region or an older layout is unsupported; a region that starts like ours
      without a valid superblock or journal entry has no resource; anything else is an error. */
  lemma OpenReasons(d: Disk, large: bool)
    requires WellFormed(d)
    ensures OpenPlan(d, large) == Refuse(Unsupported) <==> !large || d.supers[0] == BadSuper(LegacyPrefix)
    ensures large && d.supers[0] == BadSuper(AlienPrefix) ==> OpenPlan(d, large) == Refuse(IoError)
    ensures OpenPlan(d, large) == Refuse(NoResource) <==>
              large && d.supers[0] == BadSuper(CurrentPrefix) && !d.supers[1].Super? && d.journals == [Erased, Erased]
    ensures OpenPlan(d, large) != Refuse(InvalidArgument)
  {
    hide RedoWrites, FirstFormatWrites, FormatWrites, AllZero, Validates;
  }

  // ---------------------------------------------------------------- nothing is lost

  /** Opening erases the data area only of a region that has no valid superblock and is either
      entirely blank or carries a valid format journal. */
  lemma OpenErasesOnlyUnformatted(d: Disk, large: bool)
    requires WellFormed(d)
    requires OpenPlan(d, large).Go? && EraseData in OpenPlan(d, large).writes
    ensures !HasSuper(d)
    ensures AllZero(d) || exists i | 0 <= i < 2 :: d.journals[i].Entry? && d.journals[i].operation.FormatOperation?
  {
  }

  /** In a region with a valid superblock, opening can change no record but the one that an
      outstanding journal entry names, however it is cut. */
  lemma OpenKeepsRecords(d: Disk, large: bool, d': Disk, i: nat)
    requires WellFormed(d) && HasSuper(d) && i < |d.records|
    requires OpenPlan(d, large).Go? && Cut(d, OpenPlan(d, large).writes, d')
    requires NewestJournal(d) != NO_JOURNAL && i == d.journals[NewestJournal(d)].index
             ==> d.journals[NewestJournal(d)].generation <= CurrentSuper(d).generation
    ensures |d'.records| == |d.records| && d'.records[i] == d.records[i]
  {
    var ws := OpenPlan(d, large).writes;
    var newest := NewestJournal(d);
    assert forall k | 0 <= k < |ws| :: !ws[k].EraseData? && (ws[k].WriteRecord? ==> ws[k].slot != i);
    CutLeavesRecord(d, ws, d', i);
  }

  lemma {:induction false} CutLeavesRecord(d: Disk, ws: seq<Write>, d': Disk, i: nat)
    requires AllFit(d, ws) && Cut(d, ws, d') && i < |d.records|
    requires forall k | 0 <= k < |ws| :: !ws[k].EraseData? && (ws[k].WriteRecord? ==> ws[k].slot != i)
    ensures |d'.records| == |d.records| && d'.records[i] == d.records[i]
    decreases |ws|
  {
    if d' != d && !Torn(d, ws[0], d') {
      CutLeavesRecord(Apply(d, ws[0]), ws[1..], d', i);
    }
  }

  // ---------------------------------------------------------------- the first format

  predicate Virgin(d: Disk) {
    WellFormed(d) && AllZero(d)
  }

  /** The format journal is on the disk and no superblock is. */
  predicate Formatting(d: Disk) {
    WellFormed(d) && !HasSuper(d) && d.journals == [FormatEntry(false), Erased]
  }

  predicate FormattedEmpty(d: Disk) {
    Quiet(d) && MapOf(d.records) == map[] && d.supers[0].Super?
  }

  /** The very first journal write was torn: the region is neither blank nor recoverable. */
  predicate Scarred(d: Disk) {
    WellFormed(d) && !HasSuper(d) && d.journals[0].BadJournal?
  }

  /** Every state a region can be in while opening has never completed, or has just done so. */
  predicate FormatState(d: Disk) {
    Virgin(d) || Formatting(d) || FormattedEmpty(d) || Scarred(d)
  }

  /** What makes opening refuse: the scar, or a first superblock torn into foreign bytes. */
  predicate Stuck(d: Disk)
    requires WellFormed(d)
  {
    || (!HasSuper(d) && d.journals[0].BadJournal?)
    || PrefixOf(d.supers[0]).AlienPrefix?
    || PrefixOf(d.supers[0]).LegacyPrefix?
  }

  lemma SupersWrittenCut(d: Disk, ws: seq<Write>, d': Disk)
    requires WellFormed(d) && d.supers == [BlankSuper, BlankSuper] && d.journals == [FormatEntry(false), Erased]
    requires forall i | 0 <= i < |d.records| :: d.records[i].Blank?
    requires ws != [] && ws[0] == WriteSuper(0, Super(1, 0)) && AllFit(d, ws)
    requires forall k | 0 < k < |ws| ::
      ws[k] == WriteSuper(1, Super(1, 0)) || ws[k].Sync? || ws[k] == WriteJournal(0, FormatEntry(true)) || ws[k] == EraseJournal(0)
    requires Cut(d, ws, d')
    ensures Formatting(d') || FormattedEmpty(d')
  {
    if d' == d || Torn(d, ws[0], d') {
    } else {
      assert d.records == seq(|d.records|, _ => Blank);
      NothingUsed(|d.records|);
      EmptyStays(Apply(d, ws[0]), ws[1..], d');
    }
  }

  /** After the first superblock is published nothing in the rest of the format unsettles it. */
  lemma {:induction false} EmptyStays(d: Disk, ws: seq<Write>, d': Disk)
    requires FormattedEmpty(d) && AllFit(d, ws) && Cut(d, ws, d')
    requires !d.journals[1].Entry? && d.supers[0] == Super(1, 0)
    requires d.supers[1].Super? ==> d.supers[1] == Super(1, 0)
    requires forall k | 0 <= k < |ws| ::
      ws[k] == WriteSuper(1, Super(1, 0)) || ws[k].Sync? || ws[k] == WriteJournal(0, FormatEntry(true)) || ws[k] == EraseJournal(0)
    ensures FormattedEmpty(d')
    decreases |ws|
  {
    if d' != d {
      if ws[0] == WriteSuper(1, Super(1, 0)) {
        EmptyStep(d, ws[0]);
      }
      if !Torn(d, ws[0], d') {
        EmptyStays(Apply(d, ws[0]), ws[1..], d');
      }
    }
  }

  lemma EmptyStep(d: Disk, w: Write)
    requires FormattedEmpty(d) && w == WriteSuper(1, Super(1, 0)) && d.supers[0] == Super(1, 0)
    requires d.supers[1].Super? ==> d.supers[1] == Super(1, 0)
    ensures FormattedEmpty(Apply(d, w))
  {
  }

  lemma EraseAndFormatCut(d: Disk, tail: seq<Write>, d': Disk)
    requires Formatting(d)
    requires forall k | 0 <= k < |tail| ::
      tail[k].Sync? || tail[k] == WriteJournal(0, FormatEntry(true)) || tail[k] == EraseJournal(0)
    requires AllFit(d, FormatWrites(1) + tail) && Cut(d, FormatWrites(1) + tail, d')
    ensures Formatting(d') || FormattedEmpty(d')
  {
    var ws := FormatWrites(1) + tail;
    if d' == d || Torn(d, EraseData, d') {
    } else {
      SupersWrittenCut(Apply(d, EraseData), ws[1..], d');
    }
  }

  lemma VirginCut(d: Disk, d': Disk)
    requires Virgin(d) && AllFit(d, FirstFormatWrites()) && Cut(d, FirstFormatWrites(), d')
    ensures FormatState(d')
  {
    var ws := FirstFormatWrites();
    if d' != d && !Torn(d, ws[0], d') {
      var d1 := Apply(d, ws[0]);
      assert d1.journals == [FormatEntry(false), Erased];
      var tail := [WriteJournal(0, FormatEntry(true)), Sync, EraseJournal(0)];
      assert ws[1..][1..] == FormatWrites(1) + tail;
      if d' != d1 {
        EraseAndFormatCut(d1, tail, d');
      }
    }
  }

  lemma FormattedCut(d: Disk, d': Disk)
    requires FormattedEmpty(d) && OpenPlan(d, true).Go? && Cut(d, OpenPlan(d, true).writes, d')
    ensures FormattedEmpty(d')
  {
    var newest := NewestJournal(d);
    if newest != NO_JOURNAL {
      assert OpenPlan(d, true).writes == [EraseJournal(newest)];
      EraseCut(d, newest, d');
      SupersUntouched(d, newest, d');
    }
  }

  /** Opening, cut anywhere, leads from such a state only to such a state. */
  lemma OpenCut(d: Disk, d': Disk)
    requires FormatState(d)
    requires OpenPlan(d, true).Go? && Cut(d, OpenPlan(d, true).writes, d')
    ensures FormatState(d')
  {
    hide Cut;
    if Virgin(d) {
      assert OpenPlan(d, true).writes == FirstFormatWrites();
      VirginCut(d, d');
    } else if Formatting(d) {
      assert NewestJournal(d) == 0;
      EraseAndFormatCut(d, [EraseJournal(0)], d');
    } else if FormattedEmpty(d) {
      FormattedCut(d, d');
    }
  }

  lemma SupersUntouched(d: Disk, slot: nat, d': Disk)
    requires WellFormed(d) && slot < 2 && Cut(d, [EraseJournal(slot)], d')
    ensures d'.supers == d.supers && d'.records == d.records
  {
    assert [EraseJournal(slot)][1..] == [];
    assert d' == d || Torn(d, EraseJournal(slot), d') || Cut(Apply(d, EraseJournal(slot)), [], d');
  }

  ghost predicate OpensEmpty(d: Disk)
    requires WellFormed(d)
  {
    && OpenPlan(d, true).Go?
    && var d' := ApplyAll(d, OpenPlan(d, true).writes);
       Settled(d') && MapOf(d'.records) == map[]
  }

  lemma FormatTail(d: Disk, tail: seq<Write>)
    requires WellFormed(d) && d.journals[1] == Erased
    requires tail == [EraseJournal(0)] || tail == [WriteJournal(0, FormatEntry(true)), Sync, EraseJournal(0)]
    ensures AllFit(d, tail) && ApplyAll(d, tail) == d.(journals := [Erased, Erased])
  {
    assert AllFit(d, tail);
    if |tail| == 3 {
      assert tail[0..] == tail && tail[3..] == [];
      ApplyFrom(d, tail, 0);
      var d1 := Apply(d, tail[0]);
      ApplyFrom(d1, tail, 1);
      ApplyFrom(d1, tail, 2);
    } else {
      assert tail[1..] == [];
    }
  }

  lemma FormatData(d: Disk, ws: seq<Write>, tail: seq<Write>)
    requires WellFormed(d) && AllFit(d, ws) && ws == FormatWrites(1) + tail
    ensures var d' := Disk([Super(1, 0), Super(1, 0)], seq(|d.records|, _ => Blank), d.journals);
            WellFormed(d') && AllFit(d', tail) && ApplyAll(d, ws) == ApplyAll(d', tail)
  {
    var d0 := Apply(d, EraseData);
    var d1 := Apply(d0, WriteSuper(0, Super(1, 0)));
    var d2 := Apply(d1, WriteSuper(1, Super(1, 0)));
    assert ws[0..] == ws && ws[4..] == tail;
    ApplyFrom(d, ws, 0);
    ApplyFrom(d0, ws, 1);
    ApplyFrom(d1, ws, 2);
    ApplyFrom(d2, ws, 3);
    assert d2.supers == [Super(1, 0), Super(1, 0)];
  }

  lemma FormatCompletes(d: Disk, tail: seq<Write>)
    requires Formatting(d)
    requires AllFit(d, FormatWrites(1) + tail)
    requires tail == [EraseJournal(0)] || tail == [WriteJournal(0, FormatEntry(true)), Sync, EraseJournal(0)]
    ensures Settled(ApplyAll(d, FormatWrites(1) + tail))
    ensures MapOf(ApplyAll(d, FormatWrites(1) + tail).records) == map[]
  {
    NothingUsed(|d.records|);
    FormatData(d, FormatWrites(1) + tail, tail);
    FormatTail(Disk([Super(1, 0), Super(1, 0)], seq(|d.records|, _ => Blank), d.journals), tail);
  }

  lemma VirginOpens(d: Disk)
    requires Virgin(d)
    ensures OpensEmpty(d)
  {
    var ws := FirstFormatWrites();
    assert OpenPlan(d, true) == Go(ws);
    var d1 := Apply(d, ws[0]);
    assert d1.journals == [FormatEntry(false), Erased];
    var tail := [WriteJournal(0, FormatEntry(true)), Sync, EraseJournal(0)];
    assert ws[0..] == ws && ws[2..] == FormatWrites(1) + tail;
    ApplyFrom(d, ws, 0);
    ApplyFrom(d1, ws, 1);
    FormatCompletes(d1, tail);
  }

  lemma FormattingOpens(d: Disk)
    requires Formatting(d) && !Stuck(d)
    ensures OpensEmpty(d)
  {
    assert NewestJournal(d) == 0;
    FormatCompletes(d, [EraseJournal(0)]);
  }

  lemma EmptyOpens(d: Disk)
    requires FormattedEmpty(d)
    ensures OpensEmpty(d)
  {
    RecoveryKeepsView(d);
  }

  /** A region whose format was cut, even torn, opens as the empty map exactly when it is not
      stuck; and a stuck region is refused without being touched. */
  lemma OpensUnlessStuck(d: Disk)
    requires FormatState(d)
    ensures OpensEmpty(d) <==> !Stuck(d)
    ensures Stuck(d) ==> OpenPlan(d, true).Refuse?
  {
    if Stuck(d) {
      assert OpenPlan(d, true).Refuse?;
    } else {
      hide OpensEmpty;
      if Virgin(d) {
        VirginOpens(d);
      } else if Formatting(d) {
        FormattingOpens(d);
      } else {
        EmptyOpens(d);
      }
    }
  }

  /** Any number of interrupted openings of a region that started out blank. */
  predicate CutOpenings(states: seq<Disk>) {
    && states != []
    && (forall i | 0 <= i < |states| :: WellFormed(states[i]))
    && forall i | 0 <= i < |states| - 1 ::
         OpenPlan(states[i], true).Go? && Cut(states[i], OpenPlan(states[i], true).writes, states[i + 1])
  }

  lemma {:induction false} FormatIsSafe(states: seq<Disk>)
    requires CutOpenings(states) && Virgin(states[0])
    ensures FormatState(states[|states| - 1])
    ensures OpensEmpty(states[|states| - 1]) <==> !Stuck(states[|states| - 1])
  {
    var n := |states| - 1;
    if n > 0 {
      assert CutOpenings(states[..n]);
      FormatIsSafe(states[..n]);
      OpenCut(states[n - 1], states[n]);
    }
    OpensUnlessStuck(states[n]);
  }

  /** Cut between any two whole calls, the format of a blank region is always survived. */
  lemma WholeCutOpens(d: Disk, k: nat)
    requires Virgin(d) && OpenPlan(d, true).Go? && k <= |OpenPlan(d, true).writes|
    ensures OpensEmpty(ApplyAll(d, OpenPlan(d, true).writes[..k]))
  {
    var ws := OpenPlan(d, true).writes;
    FirstFormatCountsNothing();
    NeverTorn(d, ws[..k]);
    hide OpensEmpty, FirstFormatWrites, OpenPlan;
    var d' := ApplyAll(d, ws[..k]);
    RunIsCut(d, ws[..k]);
    CutAppend(d, ws[..k], ws[k..], d');
    assert ws[..k] + ws[k..] == ws;
    OpenCut(d, d');
    OpensUnlessStuck(d');
  }

  lemma FirstFormatCountsNothing()
    ensures forall k | 0 <= k < |FirstFormatWrites()| ::
      FirstFormatWrites()[k].WriteSuper? ==> FirstFormatWrites()[k].super.count == 0
  {
  }

  predicate Whole(d: Disk) {
    && WellFormed(d)
    && (forall i | 0 <= i < 2 :: !d.supers[i].BadSuper?)
    && (forall i | 0 <= i < 2 :: !d.journals[i].BadJournal?)
  }

  lemma {:induction false} NeverTorn(d: Disk, ws: seq<Write>)
    requires Whole(d) && AllFit(d, ws)
    requires forall k | 0 <= k < |ws| :: ws[k].WriteSuper? ==> ws[k].super.count == 0
    ensures Whole(ApplyAll(d, ws))
    decreases |ws|
  {
    if ws != [] {
      NeverTorn(Apply(d, ws[0]), ws[1..]);
    }
  }

  /** A tear in the very first call of the format is not survived: opening then refuses, and
      since it writes nothing it refuses for good. */
  lemma TornFirstJournalIsFatal(capacity: nat)
    ensures
      var virgin := Disk([BlankSuper, BlankSuper], seq(capacity, _ => Blank), [Erased, Erased]);
      var torn := virgin.(journals := [BadJournal, Erased]);
      && Virgin(virgin)
      && Torn(virgin, FirstFormatWrites()[0], torn)
      && Cut(virgin, OpenPlan(virgin, true).writes, torn)
      && OpenPlan(torn, true) == Refuse(IoError)
  {
    var virgin := Disk([BlankSuper, BlankSuper], seq(capacity, _ => Blank), [Erased, Erased]);
    var torn := virgin.(journals := [BadJournal, Erased]);
    assert OpenPlan(virgin, true) == Go(FirstFormatWrites());
    assert SameBut(virgin.journals, torn.journals, 0);
  }
}
