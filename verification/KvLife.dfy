/** The whole life of a region: from blank through openings, operations, closings and crashes. */
module KvLife {
  import opened KvDisk
  import opened KvRecords
  import opened KvCrash
  import opened KvFormat
  import opened KvHistory

  /** Every state a region that started out blank can be in. */
  predicate Lives(d: Disk) {
    Inv(d) || FormatState(d)
  }

  /** The map a region stands for; before the first format is through, the empty one. */
  function Kept(d: Disk): map<Bytes, Bytes> {
    if Inv(d) then View(d) else map[]
  }

  lemma FormattedKeepsNothing(d: Disk)
    requires FormattedEmpty(d)
    ensures Inv(d) && Kept(d) == map[]
  {
    assert !PendingIn(d, 0) && !PendingIn(d, 1);
  }

  lemma EmptyWhileFormatting(d: Disk)
    requires FormatState(d)
    ensures Kept(d) == map[]
  {
    if FormattedEmpty(d) {
      FormattedKeepsNothing(d);
    } else {
      assert !HasSuper(d);
    }
  }

  // ---------------------------------------------------------------- opening

  /** On a formatted region opening is recovery, unless the first superblock's first bytes are
      those of another or an older layout. */
  lemma OpeningIsRecovery(d: Disk)
    requires Inv(d)
    ensures OpenPlan(d, true) == if Stuck(d) then Refuse(if PrefixOf(d.supers[0]).LegacyPrefix? then Unsupported else IoError)
                                 else RecoverPlan(d)
  {
    RecoveryKeepsView(d);
  }

  lemma SettledView(d: Disk)
    requires Settled(d)
    ensures Inv(d) && View(d) == MapOf(d.records)
  {
    assert !PendingIn(d, 0) && !PendingIn(d, 1);
  }

  lemma OpenFormatted(d: Disk)
    requires Inv(d) && !Stuck(d)
    ensures OpenPlan(d, true).Go?
    ensures var d' := ApplyAll(d, OpenPlan(d, true).writes); Inv(d') && Kept(d') == Kept(d)
    ensures forall d' | Cut(d, OpenPlan(d, true).writes, d') :: Lives(d') && Kept(d') == Kept(d)
  {
    OpeningIsRecovery(d);
    RecoveryKeepsView(d);
    SettledView(ApplyAll(d, RecoverPlan(d).writes));
  }

  lemma OpenBlank(d: Disk)
    requires FormatState(d) && !Stuck(d)
    ensures OpenPlan(d, true).Go?
    ensures var d' := ApplyAll(d, OpenPlan(d, true).writes); Inv(d') && Kept(d') == Kept(d)
    ensures forall d' | Cut(d, OpenPlan(d, true).writes, d') :: Lives(d') && Kept(d') == Kept(d)
  {
    OpensUnlessStuck(d);
    EmptyWhileFormatting(d);
    SettledView(ApplyAll(d, OpenPlan(d, true).writes));
    forall d' | Cut(d, OpenPlan(d, true).writes, d')
      ensures Lives(d') && Kept(d') == Kept(d)
    {
      CutStaysWellFormed(d, OpenPlan(d, true).writes, d');
      OpenCut(d, d');
      EmptyWhileFormatting(d');
    }
  }

  lemma {:induction false} CutStaysWellFormed(d: Disk, ws: seq<Write>, d': Disk)
    requires AllFit(d, ws) && Cut(d, ws, d')
    ensures WellFormed(d')
    decreases |ws|
  {
    if d' != d && !Torn(d, ws[0], d') {
      CutStaysWellFormed(Apply(d, ws[0]), ws[1..], d');
    }
  }

  /** Every region that started out blank, whatever it went through, opens if and only if it is not
      stuck. A completed opening leaves it formatted with the same map, a cut one leaves the map. */
  lemma OpensExactlyUnlessStuck(d: Disk)
    requires Lives(d)
    ensures WellFormed(d)
    ensures OpenPlan(d, true).Go? <==> !Stuck(d)
    ensures !Stuck(d) ==> var d' := ApplyAll(d, OpenPlan(d, true).writes); Inv(d') && Kept(d') == Kept(d)
    ensures !Stuck(d) ==> forall d' | Cut(d, OpenPlan(d, true).writes, d') :: Lives(d') && Kept(d') == Kept(d)
  {
    if Stuck(d) {
      if Inv(d) { OpeningIsRecovery(d); } else { OpensUnlessStuck(d); }
    } else {
      if Inv(d) { OpenFormatted(d); } else { OpenBlank(d); }
    }
  }

  /** The input at which reopening fails: any transaction that publishes superblock 0, torn there so
      that foreign bytes stand at its start. The disk holds the new map and recovery would accept
      it, but opening refuses it and, writing nothing, refuses it for good. */
  lemma TornFirstSuperLocksOut(d: Disk, operation: Operation, index: nat, count: nat, record: Record)
    returns (torn: Disk)
    requires GoodTransaction(d, operation, index, count, record) && Current(d) == 1
    ensures Cut(d, TransactionWrites(d, operation, index, count, record), torn)
    ensures Inv(torn) && View(torn) == MapOf(d.records[index := record]) && RecoverPlan(torn).Go?
    ensures Stuck(torn) && OpenPlan(torn, true) == Refuse(IoError)
  {
    var ws := TransactionWrites(d, operation, index, count, record);
    var d2 := Apply(Apply(d, ws[0]), ws[2]);
    torn := d2.(supers := d2.supers[0 := BadSuper(AlienPrefix)]);
    assert SameBut(d2.supers, torn.supers, 0) && Torn(d2, ws[3], torn);
    var d1 := Apply(d, ws[0]);
    assert Cut(d2, ws[3..], torn);
    assert ws[2..][1..] == ws[3..] && Cut(d1, ws[2..], torn);
    assert ws[1..][1..] == ws[2..] && Cut(d1, ws[1..], torn);
    AfterPrepared(d, operation, index, count, record, torn);
    RecoveryKeepsView(torn);
    OpeningIsRecovery(torn);
  }

  // ---------------------------------------------------------------- lives

  datatype Region = Region(disk: Disk, ready: bool)

  /** An opening that completed or refused; one cut by a crash or failed by the storage; an
      operation, with or without a crash after it; a close or a restart. */
  datatype LifeEvent = Open(ok: bool) | CutOpen | Operate(event: Event, crashed: bool) | Close

  predicate LifeStep(limits: Limits, s: Region, e: LifeEvent, s': Region) {
    && WellFormed(s.disk)
    && match e
       case Open(ok) =>
         if ok then OpenPlan(s.disk, true).Go? && s' == Region(ApplyAll(s.disk, OpenPlan(s.disk, true).writes), true)
         else OpenPlan(s.disk, true).Refuse? && s' == s
       case CutOpen =>
         OpenPlan(s.disk, true).Go? && Cut(s.disk, OpenPlan(s.disk, true).writes, s'.disk) && !s'.ready
       case Operate(event, crashed) => s.ready && Step(limits, s.disk, event, s'.disk) && s'.ready == !crashed
       case Close => s' == s.(ready := false)
  }

  /** The same in terms of the map: openings and closings leave it, operations are the finite
      map's. */
  predicate LifeSpec(limits: Limits, capacity: nat, m: map<Bytes, Bytes>, e: LifeEvent, m': map<Bytes, Bytes>) {
    if e.Operate? then SpecStep(limits, capacity, m, e.event, m') else m' == m
  }

  predicate Life(limits: Limits, states: seq<Region>, events: seq<LifeEvent>) {
    && |states| == |events| + 1
    && forall i | 0 <= i < |events| :: LifeStep(limits, states[i], events[i], states[i + 1])
  }

  predicate Sane(s: Region) {
    Lives(s.disk) && (s.ready ==> Inv(s.disk))
  }

  lemma CapacityKept(d: Disk, d': Disk)
    requires WellFormed(d) && OpenPlan(d, true).Go? && Cut(d, OpenPlan(d, true).writes, d')
    ensures |d'.records| == |d.records|
  {
    CutKeepsCapacity(d, OpenPlan(d, true).writes, d');
  }

  lemma LifeStepRefines(limits: Limits, s: Region, e: LifeEvent, s': Region)
    requires Sane(s) && LifeStep(limits, s, e, s')
    ensures Sane(s') && |s'.disk.records| == |s.disk.records|
    ensures LifeSpec(limits, |s.disk.records|, Kept(s.disk), e, Kept(s'.disk))
    ensures e.Open? ==> (e.ok <==> !Stuck(s.disk))
  {
    OpensExactlyUnlessStuck(s.disk);
    match e
    case Operate(event, crashed) =>
      StepRefines(limits, s.disk, event, s'.disk);
    case CutOpen =>
      CapacityKept(s.disk, s'.disk);
    case _ =>
  }

  /** One theorem for a region's whole life. Starting blank, through any openings, operations,
      restarts and crashes: an open region is always formatted and sound; its map changes only by
      operations, each as the finite map's and all or nothing when cut; and an opening succeeds if
      and only if the region is not stuck. */
  lemma {:induction false} LifeRefines(limits: Limits, states: seq<Region>, events: seq<LifeEvent>, n: nat)
    requires Life(limits, states, events) && Virgin(states[0].disk) && !states[0].ready && n <= |events|
    ensures Sane(states[n]) && |states[n].disk.records| == |states[0].disk.records|
    ensures Kept(states[0].disk) == map[]
    ensures n < |events| ==>
              && LifeSpec(limits, |states[0].disk.records|, Kept(states[n].disk), events[n], Kept(states[n + 1].disk))
              && (events[n].Open? ==> (events[n].ok <==> !Stuck(states[n].disk)))
  {
    hide LifeSpec, Lives, Inv, Kept, Stuck;
    if n == 0 {
      BlankLives(states[0].disk);
    } else {
      LifeRefines(limits, states, events, n - 1);
      LifeStepRefines(limits, states[n - 1], events[n - 1], states[n]);
    }
    if n < |events| {
      LifeStepRefines(limits, states[n], events[n], states[n + 1]);
    }
  }

  lemma BlankLives(d: Disk)
    requires Virgin(d)
    ensures Lives(d) && Kept(d) == map[] && !Inv(d)
  {
    EmptyWhileFormatting(d);
    assert !HasSuper(d);
  }

  predicate TouchesKey(e: LifeEvent, key: Bytes) {
    e.Operate? && Touches(e.event, key)
  }

  /** What a key maps to survives everything that is not a set or delete of that key. */
  lemma {:induction false} KeySurvives(limits: Limits, states: seq<Region>, events: seq<LifeEvent>, key: Bytes, m: nat, n: nat)
    requires Life(limits, states, events) && Virgin(states[0].disk) && !states[0].ready && m <= n <= |events|
    requires forall i | m <= i < n :: !TouchesKey(events[i], key)
    ensures key in Kept(states[n].disk) <==> key in Kept(states[m].disk)
    ensures key in Kept(states[m].disk) ==> Kept(states[n].disk)[key] == Kept(states[m].disk)[key]
  {
    hide Kept, Sane, Stuck, LifeStep;
    if m < n {
      KeySurvives(limits, states, events, key, m, n - 1);
      LifeRefines(limits, states, events, n - 1);
    }
  }

  /** A set that was acknowledged is what a later get returns, through any crashes, restarts and
      reopenings in between that do not touch the key. */
  lemma SetSurvivesReopening(limits: Limits, states: seq<Region>, events: seq<LifeEvent>, m: nat, n: nat)
    requires Life(limits, states, events) && Virgin(states[0].disk) && !states[0].ready && m < n < |events|
    requires events[m].Operate? && events[m].event.Completed? && events[m].event.request.Set? && events[m].event.reply == Ok
    requires events[n].Operate? && events[n].event.Completed? && events[n].event.request.Get?
    requires events[n].event.request.key == events[m].event.request.key
    requires 0 < |events[m].event.request.key| <= limits.keyLength && |events[m].event.request.value| <= limits.valueLength
    requires |events[m].event.request.value| <= events[n].event.request.room
    requires forall i | m < i < n :: !TouchesKey(events[i], events[m].event.request.key)
    ensures events[n].event.reply == Value(events[m].event.request.value)
  {
    hide Kept, Sane, Stuck, LifeStep;
    var key := events[m].event.request.key;
    LifeRefines(limits, states, events, m);
    KeySurvives(limits, states, events, key, m + 1, n);
    LifeRefines(limits, states, events, n);
  }

  // ---------------------------------------------------------------- when reopening cannot fail

  /** No tear puts foreign bytes at the start of a first superblock that has begun as one of
      ours. A device that tears a write byte by byte is like that, since the old and the new
      superblock start alike. */
  predicate Gentle(states: seq<Region>) {
    forall i | 0 < i < |states| ::
      PrefixOf(First(states[i - 1])) == CurrentPrefix ==> PrefixOf(First(states[i])) == CurrentPrefix
  }

  function First(s: Region): Superblock {
    if s.disk.supers == [] then BlankSuper else s.disk.supers[0]
  }

  lemma OursIsNotStuck(s: Region)
    requires Inv(s.disk) && PrefixOf(First(s)) == CurrentPrefix
    ensures WellFormed(s.disk) && !Stuck(s.disk)
  {
  }

  /** A first format that has come as far as a sound region has written superblock 0. */
  lemma FirstFormatted(d: Disk, d': Disk)
    requires FormatState(d) && OpenPlan(d, true).Go? && Cut(d, OpenPlan(d, true).writes, d') && Inv(d')
    ensures WellFormed(d') && d'.supers[0].Super?
  {
    hide Cut;
    OpenCut(d, d');
    assert HasSuper(d');
  }

  lemma StartsOurs(limits: Limits, s: Region, e: LifeEvent, s': Region)
    requires Sane(s) && !Inv(s.disk) && LifeStep(limits, s, e, s') && Inv(s'.disk)
    ensures PrefixOf(First(s')) == CurrentPrefix
  {
    hide Cut, ApplyAll, Inv;
    if e.Open? && e.ok { RunIsCut(s.disk, OpenPlan(s.disk, true).writes); }
    FirstFormatted(s.disk, s'.disk);
  }

  lemma {:induction false} FormattedIsOurs(limits: Limits, states: seq<Region>, events: seq<LifeEvent>, n: nat)
    requires Life(limits, states, events) && Virgin(states[0].disk) && !states[0].ready && Gentle(states)
    requires n <= |events| && Inv(states[n].disk)
    ensures PrefixOf(First(states[n])) == CurrentPrefix
  {
    if n > 0 {
      LifeRefines(limits, states, events, n - 1);
      hide Inv, Sane, LifeSpec, LifeStep, Kept, Stuck, PrefixOf;
      if Inv(states[n - 1].disk) {
        FormattedIsOurs(limits, states, events, n - 1);
        assert PrefixOf(First(states[n - 1])) == CurrentPrefix ==> PrefixOf(First(states[n])) == CurrentPrefix;
      } else {
        StartsOurs(limits, states[n - 1], events[n - 1], states[n]);
      }
    } else {
      BlankLives(states[0].disk);
    }
  }

  lemma {:induction false} FormattedForEver(limits: Limits, states: seq<Region>, events: seq<LifeEvent>, m: nat, n: nat)
    requires Life(limits, states, events) && Virgin(states[0].disk) && !states[0].ready
    requires m <= n <= |events| && Inv(states[m].disk)
    ensures Inv(states[n].disk)
  {
    hide Inv, Sane, LifeSpec, LifeStep, Kept, Stuck;
    if m < n {
      FormattedForEver(limits, states, events, m, n - 1);
      LifeRefines(limits, states, events, n - 1);
      StaysFormatted(limits, states[n - 1], events[n - 1], states[n]);
    }
  }

  /** On such a device no opening after the first successful one is ever refused. */
  lemma ReopensForEver(limits: Limits, states: seq<Region>, events: seq<LifeEvent>, m: nat, n: nat)
    requires Life(limits, states, events) && Virgin(states[0].disk) && !states[0].ready && Gentle(states)
    requires m < n < |events| && events[m] == Open(true)
    ensures events[n] != Open(false)
  {
    LifeRefines(limits, states, events, m + 1);
    assert Inv(states[m + 1].disk);
    hide Inv, Sane, LifeSpec, LifeStep, Kept, Stuck, PrefixOf;
    FormattedForEver(limits, states, events, m + 1, n);
    FormattedIsOurs(limits, states, events, n);
    OursIsNotStuck(states[n]);
    LifeRefines(limits, states, events, n);
  }

  lemma StaysFormatted(limits: Limits, s: Region, e: LifeEvent, s': Region)
    requires Sane(s) && Inv(s.disk) && LifeStep(limits, s, e, s')
    ensures Inv(s'.disk)
  {
    match e
    case Operate(event, _) => StepRefines(limits, s.disk, event, s'.disk);
    case Close =>
    case _ =>
      OpeningIsRecovery(s.disk);
      RecoveryKeepsView(s.disk);
      OpensExactlyUnlessStuck(s.disk);
  }
}
