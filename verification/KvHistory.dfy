/** The public operations of the store and their refinement of a finite map with capacity, over
    every history of operations in which any of them may be cut at any storage call. */
module KvHistory {
  import opened KvDisk
  import opened KvRecords
  import opened KvCrash

  datatype Limits = Limits(keyLength: nat, valueLength: nat)

  datatype Request =
    | Set(key: Bytes, value: Bytes)
    | Delete(key: Bytes)
    | Get(key: Bytes, room: nat)
    | Exists(key: Bytes)

  datatype Reply = Ok | Value(bytes: Bytes) | TooSmall(length: nat) | Present(answer: bool) | Failed(reason: Reason)

  predicate ValidRequest(limits: Limits, r: Request) {
    0 < |r.key| <= limits.keyLength && (r.Set? ==> |r.value| <= limits.valueLength)
  }

  /** The storage calls an operation issues and the reply it gives when all of them succeed. */
  datatype Action = Action(writes: seq<Write>, reply: Reply)

  /** What an operation does once recovery has succeeded. */
  function Serve(d: Disk, r: Request): (a: Action)
    requires WellFormed(d)
    ensures AllFit(d, a.writes)
  {
    var n := |d.records|;
    var found := FindKey(d.records, r.key);
    if !HasSuper(d) then Action([], Failed(NoResource))
    else if !NoBadRecord(d.records) then Action([], Failed(IoError))
    else match r
      case Set(key, value) =>
        if found < n then
          Action(TransactionWrites(d, SetOperation, found, Used(d.records), InUse(key, value)), Ok)
        else
          var free := FindFree(d.records);
          if free == n then Action([], Failed(NoResource))
          else Action(TransactionWrites(d, SetOperation, free, Used(d.records) + 1, InUse(key, value)), Ok)
      case Delete(key) =>
        if found == n then Action([], Failed(NoResource))
        else
          UsedUpdate(d.records, found, Blank);
          Action(TransactionWrites(d, DeleteOperation, found, Used(d.records) - 1, Blank), Ok)
      case Get(key, room) =>
        if found == n then Action([], Failed(NoResource))
        else
          var value := d.records[found].value;
          Action([], if |value| > room then TooSmall(|value|) else Value(value))
      case Exists(key) => Action([], Present(found < n))
  }

  /** A whole operation: argument check, recovery, service. */
  function Execute(limits: Limits, d: Disk, r: Request): (a: Action)
    requires WellFormed(d)
    ensures AllFit(d, a.writes)
  {
    if !ValidRequest(limits, r) then Action([], Failed(InvalidArgument))
    else match RecoverPlan(d)
      case Refuse(reason) => Action([], Failed(reason))
      case Go(writes) =>
        var a := Serve(ApplyAll(d, writes), r);
        Action(writes + a.writes, a.reply)
  }

  // ---------------------------------------------------------------- the finite map

  function SpecMap(capacity: nat, m: map<Bytes, Bytes>, r: Request): map<Bytes, Bytes> {
    match r
    case Set(key, value) => if key in m || |m| < capacity then m[key := value] else m
    case Delete(key) => m - {key}
    case Get(_, _) => m
    case Exists(_) => m
  }

  function SpecReply(capacity: nat, m: map<Bytes, Bytes>, r: Request): Reply {
    match r
    case Set(key, _) => if key in m || |m| < capacity then Ok else Failed(NoResource)
    case Delete(key) => if key in m then Ok else Failed(NoResource)
    case Get(key, room) =>
      if key !in m then Failed(NoResource)
      else if |m[key]| > room then TooSmall(|m[key]|)
      else Value(m[key])
    case Exists(key) => Present(key in m)
  }

  // ---------------------------------------------------------------- one operation

  /** The search finds the key exactly when the map has it, at its only place. */
  lemma FindKeyMeaning(records: seq<Record>, key: Bytes)
    requires UniqueKeys(records)
    ensures FindKey(records, key) < |records| <==> key in MapOf(records)
    ensures FindKey(records, key) < |records| ==> MapOf(records)[key] == records[FindKey(records, key)].value
    ensures forall j | 0 <= j < |records| && j != FindKey(records, key) :: !Holds(records, j, key)
  {
    var i := FindKey(records, key);
    MapOfKeys(records, key);
    if i < |records| {
      MapOfValue(records, i);
      assert forall j | 0 <= j < i :: !Holds(records, j, key);
    }
  }

  /** From the settled disk `d` these calls move the map to `m'`, and every cut of them leaves
      the map of `d` or `m'`. */
  ghost predicate Realises(d: Disk, ws: seq<Write>, m': map<Bytes, Bytes>)
    requires AllFit(d, ws)
  {
    && Settled(ApplyAll(d, ws))
    && MapOf(ApplyAll(d, ws).records) == m'
    && forall d' | Cut(d, ws, d') :: Inv(d') && (View(d') == MapOf(d.records) || View(d') == m')
  }

  lemma NothingRealises(d: Disk)
    requires Settled(d)
    ensures Realises(d, [], MapOf(d.records))
  {
  }

  lemma TransactionRealises(d: Disk, operation: Operation, index: nat, count: nat, record: Record)
    requires GoodTransaction(d, operation, index, count, record)
    ensures Realises(d, TransactionWrites(d, operation, index, count, record), MapOf(d.records[index := record]))
  {
    var ws := TransactionWrites(d, operation, index, count, record);
    TransactionSettles(d, operation, index, count, record);
    forall d' | Cut(d, ws, d')
      ensures Inv(d') && (View(d') == MapOf(d.records) || View(d') == MapOf(d.records[index := record]))
    {
      TransactionAtomic(d, operation, index, count, record, d');
    }
  }

  /** The transaction a set issues: overwrite the slot that has the key, or fill a free one. */
  lemma SetTransaction(d: Disk, index: nat, key: Bytes, value: Bytes)
    requires Settled(d) && index < |d.records|
    requires if FindKey(d.records, key) < |d.records| then index == FindKey(d.records, key) else d.records[index].IsFree()
    ensures
      var m := MapOf(d.records);
      var count := if key in m then Used(d.records) else Used(d.records) + 1;
      && (key in m || |m| < |d.records|)
      && Realises(d, TransactionWrites(d, SetOperation, index, count, InUse(key, value)), m[key := value])
  {
    FindKeyMeaning(d.records, key);
    SetIsMapUpdate(d.records, index, key, value);
    UsedUpdate(d.records, index, InUse(key, value));
    UsedBound(d.records[index := InUse(key, value)]);
    UsedIsMapSize(d.records);
    var count := if key in MapOf(d.records) then Used(d.records) else Used(d.records) + 1;
    hide Realises, TransactionWrites;
    TransactionRealises(d, SetOperation, index, count, InUse(key, value));
  }

  lemma FullMap(records: seq<Record>)
    requires NoBadRecord(records) && UniqueKeys(records) && FindFree(records) == |records|
    ensures |MapOf(records)| == |records|
  {
    UsedBound(records);
    UsedIsMapSize(records);
    assert forall i | 0 <= i < |records| :: records[i].InUse?;
  }

  /** Service on a settled disk gives the reply of the finite map and realises its new map. */
  lemma ServeRefines(d: Disk, r: Request)
    requires Settled(d)
    ensures Serve(d, r).reply == SpecReply(|d.records|, MapOf(d.records), r)
    ensures Realises(d, Serve(d, r).writes, SpecMap(|d.records|, MapOf(d.records), r))
  {
    hide Realises, TransactionWrites;
    FindKeyMeaning(d.records, r.key);
    NothingRealises(d);
    var found := FindKey(d.records, r.key);
    match r
    case Set(key, value) =>
      var free := FindFree(d.records);
      if found < |d.records| {
        SetTransaction(d, found, key, value);
      } else if free < |d.records| {
        SetTransaction(d, free, key, value);
      } else {
        FullMap(d.records);
      }
    case Delete(key) =>
      if found < |d.records| {
        FreeIsMapRemove(d.records, found, key, Blank);
        UsedUpdate(d.records, found, Blank);
        TransactionRealises(d, DeleteOperation, found, Used(d.records) - 1, Blank);
      } else {
        assert MapOf(d.records) - {key} == MapOf(d.records);
      }
    case Get(key, _) =>
    case Exists(key) =>
  }

  /** Every operation on a formatted region with a key and a value within the limits does what the finite
      map does, and every cut of it leaves the map from before or the map from after. */
  lemma ExecuteRefines(limits: Limits, d: Disk, r: Request)
    requires Inv(d) && 0 < |r.key| <= limits.keyLength && (r.Set? ==> |r.value| <= limits.valueLength)
    ensures
      var a, m, n := Execute(limits, d, r), View(d), |d.records|;
      && a.reply == SpecReply(n, m, r)
      && Settled(ApplyAll(d, a.writes))
      && View(ApplyAll(d, a.writes)) == SpecMap(n, m, r)
      && forall d' | Cut(d, a.writes, d') :: Inv(d') && (View(d') == m || View(d') == SpecMap(n, m, r))
  {
    RecoveryKeepsView(d);
    var ws := RecoverPlan(d).writes;
    var d1 := ApplyAll(d, ws);
    ServeRefines(d1, r);
    var a := Serve(d1, r);
    ApplyAllAppend(d, ws, a.writes);
    forall d' | Cut(d, ws + a.writes, d')
      ensures Inv(d') && (View(d') == View(d) || View(d') == SpecMap(|d.records|, View(d), r))
    {
      CutAppend(d, ws, a.writes, d');
    }
  }

  /** Exactly an empty key, a key that is too long and a value that is too long are refused as invalid, on any
      disk, and nothing is written then. */
  lemma InvalidExactly(limits: Limits, d: Disk, r: Request)
    requires WellFormed(d)
    ensures Execute(limits, d, r).reply == Failed(InvalidArgument) <==>
              r.key == [] || |r.key| > limits.keyLength || (r.Set? && |r.value| > limits.valueLength)
    ensures Execute(limits, d, r).reply == Failed(InvalidArgument) ==> Execute(limits, d, r).writes == []
  {
    hide ApplyAll, FindKey, FindFree, TransactionWrites, Used;
  }

  /** What a caller who gets an answer from a sound region is told, and what the map is afterwards. */
  predicate Answers(limits: Limits, d: Disk, r: Request, reply: Reply, d': Disk)
    requires Inv(d)
  {
    && Inv(d') && |d'.records| == |d.records|
    && (reply == Failed(InvalidArgument) <==>
          r.key == [] || |r.key| > limits.keyLength || (r.Set? && |r.value| > limits.valueLength))
    && (reply == Failed(InvalidArgument) ==> d' == d)
    && (reply != Failed(InvalidArgument) ==>
          reply == SpecReply(|d.records|, View(d), r) && View(d') == SpecMap(|d.records|, View(d), r))
  }

  lemma CompletedAnswers(limits: Limits, d: Disk, r: Request)
    requires Inv(d)
    ensures forall reply, d' | Step(limits, d, Completed(r, reply), d') :: Answers(limits, d, r, reply, d')
  {
    InvalidExactly(limits, d, r);
    forall reply, d' | Step(limits, d, Completed(r, reply), d')
      ensures Answers(limits, d, r, reply, d')
    {
      StepRefines(limits, d, Completed(r, reply), d');
    }
  }

  // ---------------------------------------------------------------- histories

  /** An operation that returned with this reply, or one that was cut by a crash or failed with
      a storage error and whose caller knows nothing. */
  datatype Event = Completed(request: Request, reply: Reply) | Interrupted(request: Request)

  predicate Step(limits: Limits, d: Disk, e: Event, d': Disk) {
    && WellFormed(d)
    && var a := Execute(limits, d, e.request);
       match e
       case Completed(_, reply) => reply == a.reply && d' == ApplyAll(d, a.writes)
       case Interrupted(_) => Cut(d, a.writes, d')
  }

  predicate SpecStep(limits: Limits, capacity: nat, m: map<Bytes, Bytes>, e: Event, m': map<Bytes, Bytes>) {
    var after := SpecMap(capacity, m, e.request);
    if !ValidRequest(limits, e.request) then
      m' == m && (e.Completed? ==> e.reply == Failed(InvalidArgument))
    else match e
      case Completed(request, reply) => reply == SpecReply(capacity, m, request) && m' == after
      case Interrupted(_) => m' == m || m' == after
  }

  predicate History(limits: Limits, states: seq<Disk>, events: seq<Event>) {
    && |states| == |events| + 1
    && forall i | 0 <= i < |events| :: Step(limits, states[i], events[i], states[i + 1])
  }

  lemma StepRefines(limits: Limits, d: Disk, e: Event, d': Disk)
    requires Inv(d) && Step(limits, d, e, d')
    ensures Inv(d') && |d'.records| == |d.records|
    ensures SpecStep(limits, |d.records|, View(d), e, View(d'))
  {
    if ValidRequest(limits, e.request) {
      ExecuteRefines(limits, d, e.request);
      CutKeepsCapacity(d, Execute(limits, d, e.request).writes, if e.Interrupted? then d' else d);
    }
  }

  lemma {:induction false} CutKeepsCapacity(d: Disk, ws: seq<Write>, d': Disk)
    requires AllFit(d, ws) && Cut(d, ws, d')
    ensures |d'.records| == |d.records|
    decreases |ws|
  {
    if d' != d && !Torn(d, ws[0], d') {
      CutKeepsCapacity(Apply(d, ws[0]), ws[1..], d');
    }
  }

  /** The refinement over whole histories: at every point the disk satisfies the invariant, and
      the maps it stands for are a run of the finite map in which an interrupted operation took
      effect entirely or not at all. */
  lemma {:induction false} HistoryRefines(limits: Limits, states: seq<Disk>, events: seq<Event>)
    requires History(limits, states, events) && Inv(states[0])
    ensures forall i | 0 <= i < |states| :: Inv(states[i]) && |states[i].records| == |states[0].records|
    ensures forall i | 0 <= i < |events| ::
      SpecStep(limits, |states[0].records|, View(states[i]), events[i], View(states[i + 1]))
  {
    var n := |events|;
    if n > 0 {
      assert History(limits, states[..n], events[..n - 1]);
      HistoryRefines(limits, states[..n], events[..n - 1]);
      assert Inv(states[..n][n - 1]);
      StepRefines(limits, states[n - 1], events[n - 1], states[n]);
      forall i | 0 <= i < |states|
        ensures Inv(states[i]) && |states[i].records| == |states[0].records|
      {
        if i < n {
          assert Inv(states[..n][i]);
        }
      }
      forall i | 0 <= i < n
        ensures SpecStep(limits, |states[0].records|, View(states[i]), events[i], View(states[i + 1]))
      {
        if i < n - 1 {
          assert SpecStep(limits, |states[..n][0].records|, View(states[..n][i]), events[..n - 1][i], View(states[..n][i + 1]));
        }
      }
    }
  }

  predicate Touches(e: Event, key: Bytes) {
    (e.request.Set? || e.request.Delete?) && e.request.key == key
  }

  lemma {:induction false} UntouchedKey(limits: Limits, states: seq<Disk>, events: seq<Event>, key: Bytes)
    requires History(limits, states, events) && Inv(states[0])
    requires forall i | 0 <= i < |events| :: !Touches(events[i], key)
    ensures Inv(states[|events|])
    ensures key in View(states[|events|]) <==> key in View(states[0])
    ensures key in View(states[0]) ==> View(states[|events|])[key] == View(states[0])[key]
  {
    var n := |events|;
    if n > 0 {
      assert History(limits, states[..n], events[..n - 1]);
      UntouchedKey(limits, states[..n], events[..n - 1], key);
      StepRefines(limits, states[n - 1], events[n - 1], states[n]);
    }
  }

  /** A value that was set is what the next get returns, whatever else happens to other keys in
      between, crashes included. */
  lemma LastSetWins(limits: Limits, states: seq<Disk>, events: seq<Event>)
    requires History(limits, states, events) && Inv(states[0]) && |events| >= 2
    requires
      var first, last := events[0], events[|events| - 1];
      && first.Completed? && first.request.Set? && first.reply == Ok
      && last.Completed? && last.request.Get? && last.request.key == first.request.key
      && 0 < |first.request.key| <= limits.keyLength && |first.request.value| <= limits.valueLength
      && |first.request.value| <= last.request.room
      && forall i | 0 < i < |events| - 1 :: !Touches(events[i], first.request.key)
    ensures events[|events| - 1].reply == Value(events[0].request.value)
  {
    hide Inv, View, Step;
    var n := |events| - 1;
    StepRefines(limits, states[0], events[0], states[1]);
    assert History(limits, states[1..n + 1], events[1..n]);
    UntouchedKey(limits, states[1..n + 1], events[1..n], events[0].request.key);
    HistoryRefines(limits, states, events);
    assert SpecStep(limits, |states[0].records|, View(states[n]), events[n], View(states[n + 1]));
  }
}
