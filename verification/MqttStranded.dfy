/** When a subscription slot is left waiting for an answer that nothing in flight can bring, and for
    how long. */
module MqttStranded {
  import opened MqttTable
  import opened MqttClient
  import opened MqttClosing
  import opened MqttSlots

  predicate Waits(slot: Slot) {
    slot.state.SubPending? || slot.state.UnsubPending?
  }

  /** An outstanding request for this slot and token. */
  predicate For(l: Live, i: nat, token: nat) {
    Asks(l) && l.op.index == i && l.op.token == token
  }

  /** A replay that will still put the slot back if its command is dropped, or is putting it back. */
  predicate MayPutBack(l: Live, i: nat, token: nat) {
    (For(l, i, token) && l.stage.Unsent?) || (l.stage.Replaying? && l.stage.cursor == Undoing(i, token))
  }

  predicate PutsBack(a: Activity, i: nat, token: nat) {
    a.ReplayingAll? && a.cursor == Undoing(i, token)
  }

  /** An operation that can still decide what becomes of the slot: a request of the current
      generation, or a replay that may put the slot back. */
  predicate Hope(l: Live, generation: nat, i: nat, token: nat) {
    (For(l, i, token) && l.op.generation == generation) || MayPutBack(l, i, token)
  }

  predicate Hopeless(live: seq<Live>, acts: seq<Activity>, generation: nat, i: nat, token: nat) {
    && (forall k | 0 <= k < |live| :: !Hope(live[k], generation, i, token))
    && (forall t | 0 <= t < |acts| :: !PutsBack(acts[t], i, token))
  }

  /** Slot `i` waits, and no operation in flight can decide what becomes of it. */
  predicate Stranded(c: Client, i: nat) {
    && i < |c.table.slots| && Waits(c.table.slots[i])
    && Hopeless(c.live, c.acts, c.conn.generation, i, c.table.slots[i].token)
  }

  /** No replay may still put the slot back. */
  predicate NoPutBack(c: Client, i: nat)
    requires i < |c.table.slots|
  {
    && (forall k | 0 <= k < |c.live| :: !MayPutBack(c.live[k], i, c.table.slots[i].token))
    && (forall t | 0 <= t < |c.acts| :: !PutsBack(c.acts[t], i, c.table.slots[i].token))
  }

  /** The branches that start a new generation and do not sweep the table. */
  predicate RaisesUnswept(c: Client, e: Link)
    requires LinkEnabled(c, e)
  {
    match e
    case BeginConnect(_) => MayConnect(c)
    case CancelConnect(t) => c.acts[t].generation == c.conn.generation && !c.conn.connectDone
    case AbortDisconnect(t) =>
      c.acts[t].generation == c.conn.generation && c.conn.state.Disconnecting? && !c.conn.disconnectDone
    case _ => false
  }

  /** What strands a waiting slot: a new generation without a sweep while no replay may put the slot
      back, or a replay whose command goes out after its generation has passed. */
  predicate Strands(c: Client, e: Event, i: nat)
    requires Enabled(c, e) && i < |c.table.slots|
  {
    && Waits(c.table.slots[i])
    && match e
       case OfLink(l) => RaisesUnswept(c, l) && NoPutBack(c, i)
       case OfReplay(r) =>
         r.ReplaySent? && For(c.live[r.j], i, c.table.slots[i].token) && c.live[r.j].op.generation != c.conn.generation
       case _ => false
  }

  predicate IsRetry(e: Event) {
    e.OfLink? && e.link.Retry?
  }

  // ---------------------------------------------------------------- hopes, one change at a time

  lemma HopeSwap(live: seq<Live>, acts: seq<Activity>, generation: nat, i: nat, token: nat, k: nat, l: Live)
    requires k < |live| && Hope(l, generation, i, token) == Hope(live[k], generation, i, token)
    ensures Hopeless(live[k := l], acts, generation, i, token) == Hopeless(live, acts, generation, i, token)
  {
    hide Hope, PutsBack;
    var live' := live[k := l];
    assert forall j | 0 <= j < |live| :: Hope(live'[j], generation, i, token) == Hope(live[j], generation, i, token);
  }

  lemma HopeAppend(live: seq<Live>, acts: seq<Activity>, generation: nat, i: nat, token: nat, l: Live)
    ensures Hopeless(live + [l], acts, generation, i, token)
        <==> Hopeless(live, acts, generation, i, token) && !Hope(l, generation, i, token)
  {
    hide Hope, PutsBack;
    var live' := live + [l];
    assert live'[|live|] == l && forall j | 0 <= j < |live| :: live'[j] == live[j];
  }

  lemma HopeRemove(live: seq<Live>, acts: seq<Activity>, generation: nat, i: nat, token: nat, k: nat)
    requires k < |live|
    ensures Hopeless(live, acts, generation, i, token) ==> Hopeless(Without(live, k), acts, generation, i, token)
    ensures !Hope(live[k], generation, i, token) && Hopeless(Without(live, k), acts, generation, i, token) ==>
              Hopeless(live, acts, generation, i, token)
  {
    hide Hope, PutsBack;
    var live' := Without(live, k);
    assert forall j | 0 <= j < |live'| :: live'[j] == live[if j < k then j else j + 1];
    assert forall j | 0 <= j < |live| && j != k :: live[j] == live'[if j < k then j else j - 1];
  }

  lemma HopeActs(live: seq<Live>, acts: seq<Activity>, generation: nat, i: nat, token: nat, t: nat, a: Activity)
    requires t < |acts| && PutsBack(a, i, token) == PutsBack(acts[t], i, token)
    ensures Hopeless(live, acts[t := a], generation, i, token) == Hopeless(live, acts, generation, i, token)
  {
    hide Hope, PutsBack;
    var acts' := acts[t := a];
    assert forall j | 0 <= j < |acts| :: PutsBack(acts'[j], i, token) == PutsBack(acts[j], i, token);
  }

  lemma HopeRaised(live: seq<Live>, acts: seq<Activity>, generation: nat, i: nat, token: nat)
    requires forall k | 0 <= k < |live| :: live[k].op.generation <= generation
    ensures Hopeless(live, acts, generation + 1, i, token) <==>
              && (forall k | 0 <= k < |live| :: !MayPutBack(live[k], i, token))
              && (forall t | 0 <= t < |acts| :: !PutsBack(acts[t], i, token))
  {
    hide MayPutBack, PutsBack, For;
    assert forall k | 0 <= k < |live| :: Hope(live[k], generation + 1, i, token) == MayPutBack(live[k], i, token);
  }

  // ---------------------------------------------------------------- the steps

  lemma GateStrands(c: Client, e: Gate, i: nat)
    requires GateEnabled(c, e)
    ensures Stranded(GateNext(c, e), i) == Stranded(c, i) && GateNext(c, e).table == c.table
  {
    hide Hopeless;
    var d := GateNext(c, e);
    if i < |c.table.slots| {
      HopeActs(c.live, c.acts, c.conn.generation, i, c.table.slots[i].token, e.t, d.acts[e.t]);
      assert d.acts == c.acts[e.t := d.acts[e.t]];
    }
  }

  lemma GenerationsBound(c: Client)
    requires Inv(c)
    ensures forall k | 0 <= k < |c.live| :: c.live[k].op.generation <= c.conn.generation
  {
    assert forall k | 0 <= k < |c.live| :: OpOk(c.live[k], c.conn.generation, c.table);
  }

  /** The generation after a connection step. */
  lemma LinkGeneration(c: Client, e: Link)
    requires LinkEnabled(c, e)
    ensures LinkConn(c, e).generation == c.conn.generation + if e.Retry? || RaisesUnswept(c, e) then 1 else 0
  {
  }

  lemma LinkStrands(c: Client, e: Link, i: nat)
    requires Inv(c) && LinkEnabled(c, e) && i < |c.table.slots|
    ensures Stranded(LinkNext(c, e), i) <==> (Stranded(c, i) && !e.Retry?) || Strands(c, OfLink(e), i)
    ensures Stranded(c, i) && !e.Retry? ==> LinkNext(c, e).table == c.table
  {
    GenerationsBound(c);
    LinkGeneration(c, e);
    var token := c.table.slots[i].token;
    HopeRaised(c.live, c.acts, c.conn.generation, i, token);
    HopeActs(c.live, c.acts, LinkConn(c, e).generation, i, token, e.t, LinkAct(c, e));
    if Stranded(c, i) { StrandedHasNoPutBack(c, i); }
    hide Inv, Hopeless, RaisesUnswept, LinkConn;
  }

  lemma StrandedHasNoPutBack(c: Client, i: nat)
    requires Stranded(c, i)
    ensures NoPutBack(c, i)
  {
    assert forall k | 0 <= k < |c.live| :: !Hope(c.live[k], c.conn.generation, i, c.table.slots[i].token);
  }

  /** Adding an operation under a token the slot does not have, or changing one without changing its
      hope, changes nothing. */
  lemma AddedStrands(c: Client, op: Op, stage: Stage, i: nat)
    requires i < |c.table.slots| && !Hope(Live(op, stage), c.conn.generation, i, c.table.slots[i].token)
    ensures Stranded(Added(c, op, stage), i) == Stranded(c, i)
  {
    hide Hopeless, Hope;
    HopeAppend(c.live, c.acts, c.conn.generation, i, c.table.slots[i].token, Live(op, stage));
  }

  lemma StagedStrands(c: Client, k: nat, stage: Stage, i: nat)
    requires i < |c.table.slots| && k < |c.live|
    requires var token := c.table.slots[i].token;
             Hope(c.live[k].(stage := stage), c.conn.generation, i, token) == Hope(c.live[k], c.conn.generation, i, token)
    ensures Stranded(Staged(c, k, stage), i) == Stranded(c, i)
  {
    hide Hopeless, Hope;
    HopeSwap(c.live, c.acts, c.conn.generation, i, c.table.slots[i].token, k, c.live[k].(stage := stage));
  }

  lemma RemovedStrands(c: Client, k: nat, i: nat)
    requires i < |c.table.slots| && k < |c.live| && !Hope(c.live[k], c.conn.generation, i, c.table.slots[i].token)
    ensures Stranded(Removed(c, k), i) == Stranded(c, i)
  {
    hide Hopeless, Hope;
    HopeRemove(c.live, c.acts, c.conn.generation, i, c.table.slots[i].token, k);
  }

  lemma ActingStrands(c: Client, t: nat, a: Activity, i: nat)
    requires t < |c.acts| && !a.ReplayingAll? && !c.acts[t].ReplayingAll?
    ensures Stranded(Acting(c, t, a), i) == Stranded(c, i)
  {
    hide Hopeless;
    if i < |c.table.slots| { HopeActs(c.live, c.acts, c.conn.generation, i, c.table.slots[i].token, t, a); }
  }

  lemma SlotTokenGiven(c: Client, i: nat)
    requires Inv(c) && i < |c.table.slots|
    ensures c.table.slots[i].token <= c.table.last && (Waits(c.table.slots[i]) ==> 0 < c.table.slots[i].token)
  {
    assert SlotOk(c.table.slots[i], c.table.last);
  }

  /** A slot that starts to wait has its request with it; a waiting slot is not reserved again. */
  lemma RequestedStrands(c: Client, topic: string, unsubscribe: bool, queued: bool, i: nat)
    requires Inv(c) && i < |c.table.slots|
    ensures var d := Requested(c, topic, unsubscribe, queued);
            && |d.table.slots| == |c.table.slots|
            && (Stranded(d, i) <==> Stranded(c, i)) && (Stranded(c, i) ==> d.table.slots[i] == c.table.slots[i])
  {
    SlotTokenGiven(c, i);
    var r, d := Reserve(c.table, topic, unsubscribe), Requested(c, topic, unsubscribe, queued);
    hide Inv, Hopeless;
    if c.conn.state.Connected? && r.Reserved? {
      assert !Waits(c.table.slots[r.index]);
      if queued {
        var op := SlotOp(c.conn.generation, unsubscribe, r.index, c.table.last + 1, topic);
        HopeAppend(c.live, c.acts, c.conn.generation, i, d.table.slots[i].token, Live(op, Queued));
      }
    }
  }

  lemma CompleteStrands(c: Client, k: nat, status: Status, granted: bool, present: bool, i: nat)
    requires Inv(c) && WorkEnabled(c, Complete(k, status, granted, present)) && i < |c.table.slots|
    ensures var d := WorkNext(c, Complete(k, status, granted, present));
            && |d.table.slots| == |c.table.slots|
            && (Stranded(d, i) <==> Stranded(c, i)) && (Stranded(c, i) ==> d.table.slots[i] == c.table.slots[i])
  {
    SlotTokenGiven(c, i);
    var op, stage, token := c.live[k].op, StageAfter(c.conn, c.live[k].op, status, present), c.table.slots[i].token;
    assert OpOk(c.live[k], c.conn.generation, c.table);
    hide Inv;
    if For(c.live[k], i, token) && op.generation == c.conn.generation {
      assert Hope(c.live[k], c.conn.generation, i, token);
      assert !Stranded(c, i);
    } else {
      hide Hopeless;
      HopeSwap(c.live, c.acts, c.conn.generation, i, token, k, c.live[k].(stage := stage));
    }
  }

  lemma WorkStrands(c: Client, e: Work, i: nat)
    requires Inv(c) && WorkEnabled(c, e) && i < |c.table.slots|
    ensures |WorkNext(c, e).table.slots| == |c.table.slots|
    ensures Stranded(WorkNext(c, e), i) <==> Stranded(c, i)
    ensures Stranded(c, i) ==> WorkNext(c, e).table.slots[i] == c.table.slots[i]
  {
    hide Inv, Stranded, Requested, ConnAfter, TableAfter;
    match e
    case EnterConnect(t) =>
      var g := c.acts[t].generation;
      AddedStrands(c, ConnectOp(g), Unsent, i);
      ActingStrands(Added(c, ConnectOp(g), Unsent), t, SendingConnect(g), i);
    case SendConnect(t, k) =>
      StagedStrands(c, k, Queued, i);
      ActingStrands(Staged(c, k, Queued), t, AwaitConnect(c.acts[t].generation), i);
    case DropConnect(t, k) =>
      RemovedStrands(c, k, i);
      ActingStrands(Removed(c, k), t, FailedConnect, i);
    case Disconnect(t, queued) =>
      DisconnectStrands(c, t, queued, i);
    case Publish(t, queued) =>
      AddedStrands(c, PublishOp(c.conn.generation), Queued, i);
      ActingStrands(c, t, OutApi, i);
      ActingStrands(Added(c, PublishOp(c.conn.generation), Queued), t, OutApi, i);
    case Request(t, topic, unsubscribe, queued) =>
      RequestedStrands(c, topic, unsubscribe, queued, i);
      RequestKeepsActs(c, topic, unsubscribe, queued);
      ActingStrands(Requested(c, topic, unsubscribe, queued), t, OutApi, i);
    case Receive(t, k) =>
      StagedStrands(c, k, Held, i);
      StagedStrands(c, k, Refusal, i);
      if MayHandOut(c.conn, c.live[k].op) { SameStrands(Staged(c, k, Held), WorkNext(c, e), i); }
    case Complete(k, status, granted, present) =>
      CompleteStrands(c, k, status, granted, present, i);
    case Leave(k) =>
      RemovedStrands(c, k, i);
  }

  lemma RequestKeepsActs(c: Client, topic: string, unsubscribe: bool, queued: bool)
    ensures Requested(c, topic, unsubscribe, queued).acts == c.acts
  {
    hide AfterReserve, RolledBack;
  }

  lemma SameStrands(c: Client, d: Client, i: nat)
    requires d.live == c.live && d.acts == c.acts && d.conn.generation == c.conn.generation && d.table == c.table
    ensures Stranded(d, i) == Stranded(c, i)
  {
  }

  lemma DisconnectStrands(c: Client, t: nat, queued: bool, i: nat)
    requires WorkEnabled(c, Disconnect(t, queued)) && i < |c.table.slots|
    ensures Stranded(WorkNext(c, Disconnect(t, queued)), i) == Stranded(c, i)
    ensures WorkNext(c, Disconnect(t, queued)).table == c.table
  {
    hide Stranded;
    var d := c.(conn := c.conn.(disconnectDone := false));
    var f := c.(conn := c.conn.(state := Disconnecting, disconnectDone := false));
    SameStrands(c, d, i);
    SameStrands(c, f, i);
    ActingStrands(c, t, OutApi, i);
    ActingStrands(d, t, OutApi, i);
    AddedStrands(f, DisconnectOp(c.conn.generation), Queued, i);
    ActingStrands(Added(f, DisconnectOp(c.conn.generation), Queued), t, AwaitDisconnect(c.conn.generation), i);
  }

  /** Moving a cursor between places that are not an undoing of this slot changes nothing. */
  lemma CursorStrands(c: Client, who: Replayer, cursor: Cursor, i: nat)
    requires HasCursor(c, who) && i < |c.table.slots|
    requires cursor != Undoing(i, c.table.slots[i].token) && CursorOf(c, who) != Undoing(i, c.table.slots[i].token)
    requires who.ByCompletion? ==> c.live[who.k].op.ConnectOp?
    ensures Stranded(WithCursor(c, who, cursor), i) == Stranded(c, i)
    ensures Stranded(EndCursor(c, who), i) == Stranded(c, i)
  {
    var token := c.table.slots[i].token;
    match who
    case ByCompletion(k) =>
      StagedStrands(c, k, Replaying(cursor), i);
      StagedStrands(c, k, Done, i);
    case ByProcess(t) =>
      hide Hopeless;
      HopeActs(c.live, c.acts, c.conn.generation, i, token, t, ReplayingAll(cursor));
      HopeActs(c.live, c.acts, c.conn.generation, i, token, t, Processing);
  }

  lemma ReplayerConnects(c: Client, who: Replayer)
    requires Inv(c) && HasCursor(c, who) && who.ByCompletion?
    ensures c.live[who.k].op.ConnectOp?
  {
    assert OpOk(c.live[who.k], c.conn.generation, c.table);
  }

  lemma ReplaySlotStrands(c: Client, who: Replayer, i: nat)
    requires Inv(c) && ReplayEnabled(c, ReplaySlot(who)) && i < |c.table.slots|
    ensures var d := ReplayNext(c, ReplaySlot(who));
            && |d.table.slots| == |c.table.slots|
            && (Stranded(d, i) <==> Stranded(c, i)) && (Stranded(c, i) ==> d.table.slots[i] == c.table.slots[i])
  {
    SlotTokenGiven(c, i);
    if who.ByCompletion? { ReplayerConnects(c, who); }
    var at := CursorOf(c, who).i;
    if at >= |c.table.slots| || !c.table.slots[at].state.Active? {
      CursorStrands(c, who, At(at + 1), i);
    } else {
      hide Inv;
      var token := c.table.last + 1;
      var c1 := WithCursor(c, who, Sending(at, token));
      var c2 := c1.(table := Replayed(c.table, at));
      var op := SlotOp(c.conn.generation, false, at, token, c.table.slots[at].topic);
      CursorStrands(c, who, Sending(at, token), i);
      hide Hopeless;
      HopeAppend(c2.live, c2.acts, c.conn.generation, i, c2.table.slots[i].token, Live(op, Unsent));
    }
  }

  /** Only one request has a token, and nobody is undoing it. */
  lemma OnlyHope(c: Client, j: nat, i: nat, token: nat)
    requires Inv(c) && j < |c.live| && For(c.live[j], i, token)
    ensures forall k | 0 <= k < |c.live| && k != j :: !Hope(c.live[k], c.conn.generation, i, token)
    ensures forall t | 0 <= t < |c.acts| :: !PutsBack(c.acts[t], i, token)
  {
    forall k | 0 <= k < |c.live| && k != j
      ensures !Hope(c.live[k], c.conn.generation, i, token)
    {
      assert Apart2(c.live[k], c.live[j]);
      if c.live[k].stage.Replaying? { assert UndoOk(c.live[k].stage.cursor, c.live, c.table.last); }
    }
    forall t | 0 <= t < |c.acts|
      ensures !PutsBack(c.acts[t], i, token)
    {
      if c.acts[t].ReplayingAll? { assert UndoOk(c.acts[t].cursor, c.live, c.table.last); }
    }
  }

  lemma SentStrands(c: Client, who: Replayer, j: nat, i: nat)
    requires Inv(c) && ReplayEnabled(c, ReplaySent(who, j)) && i < |c.table.slots|
    ensures var d := ReplayNext(c, ReplaySent(who, j));
            d.table == c.table && (Stranded(d, i) <==> Stranded(c, i) || Strands(c, OfReplay(ReplaySent(who, j)), i))
  {
    var token, cursor := c.table.slots[i].token, CursorOf(c, who);
    if who.ByCompletion? { ReplayerConnects(c, who); }
    var c1 := Staged(c, j, Queued);
    CursorStrands(c1, who, At(cursor.i + 1), i);
    if For(c.live[j], i, token) {
      OnlyHope(c, j, i, token);
      assert Hope(c.live[j], c.conn.generation, i, token);
      hide Inv;
      assert Hopeless(c1.live, c1.acts, c.conn.generation, i, token) <==> !Hope(c1.live[j], c.conn.generation, i, token);
    } else {
      StagedStrands(c, j, Queued, i);
    }
  }

  lemma DroppedStrands(c: Client, who: Replayer, j: nat, i: nat)
    requires Inv(c) && ReplayEnabled(c, ReplayDropped(who, j)) && i < |c.table.slots|
    ensures var d := ReplayNext(c, ReplayDropped(who, j));
            d.table == c.table && (Stranded(d, i) <==> Stranded(c, i))
  {
    var token, cursor := c.table.slots[i].token, CursorOf(c, who);
    if who.ByCompletion? { ReplayerConnects(c, who); }
    var undo := Undoing(cursor.i, cursor.token);
    var c1 := WithCursor(c, who, undo);
    if For(c.live[j], i, token) {
      assert Hope(c.live[j], c.conn.generation, i, token);
      assert !Stranded(c, i);
      DroppedHasUndo(c, who, j);
    } else {
      CursorStrands(c, who, undo, i);
      RemovedStrands(c1, j, i);
    }
  }

  lemma DroppedHasUndo(c: Client, who: Replayer, j: nat)
    requires ReplayEnabled(c, ReplayDropped(who, j))
    ensures var d, cursor := ReplayNext(c, ReplayDropped(who, j)), CursorOf(c, who);
            !Hopeless(d.live, d.acts, d.conn.generation, cursor.i, cursor.token)
  {
    var d, cursor := ReplayNext(c, ReplayDropped(who, j)), CursorOf(c, who);
    match who
    case ByCompletion(k) =>
      assert Hope(d.live[if k < j then k else k - 1], d.conn.generation, cursor.i, cursor.token);
    case ByProcess(t) =>
      assert PutsBack(d.acts[t], cursor.i, cursor.token);
  }

  lemma UndoneStrands(c: Client, who: Replayer, i: nat)
    requires Inv(c) && ReplayEnabled(c, ReplayUndone(who)) && i < |c.table.slots|
    ensures var d := ReplayNext(c, ReplayUndone(who));
            && |d.table.slots| == |c.table.slots|
            && (Stranded(d, i) <==> Stranded(c, i)) && (Stranded(c, i) ==> d.table.slots[i] == c.table.slots[i])
  {
    var token, cursor := c.table.slots[i].token, CursorOf(c, who);
    if who.ByCompletion? { ReplayerConnects(c, who); }
    if cursor == Undoing(i, token) {
      match who
      case ByCompletion(k) => assert Hope(c.live[k], c.conn.generation, i, token);
      case ByProcess(t) => assert PutsBack(c.acts[t], i, token);
    } else {
      CursorStrands(c, who, At(cursor.i + 1), i);
    }
  }

  lemma ReplayStrands(c: Client, e: Replay, i: nat)
    requires Inv(c) && ReplayEnabled(c, e) && i < |c.table.slots|
    ensures |ReplayNext(c, e).table.slots| == |c.table.slots|
    ensures Stranded(ReplayNext(c, e), i) <==> Stranded(c, i) || Strands(c, OfReplay(e), i)
    ensures Stranded(c, i) ==> ReplayNext(c, e).table.slots[i] == c.table.slots[i]
  {
    hide Inv, Stranded, ReplayNext;
    match e
    case ReplaySlot(who) => ReplaySlotStrands(c, who, i);
    case ReplaySent(who, j) => SentStrands(c, who, j, i);
    case ReplayDropped(who, j) => DroppedStrands(c, who, j, i);
    case ReplayUndone(who) => UndoneStrands(c, who, i);
  }

  // ---------------------------------------------------------------- exactly when, and for how long

  /** After any step of any thread a slot is stranded if and only if it was and the step is not the
      client's own reconnect, or the step strands it. */
  lemma StrandedExactly(c: Client, e: Event, i: nat)
    requires Inv(c) && Enabled(c, e) && i < |c.table.slots|
    ensures Stranded(Next(c, e), i) <==> (Stranded(c, i) && !IsRetry(e)) || Strands(c, e, i)
    ensures Stranded(Next(c, e), i) && Stranded(c, i) ==> Next(c, e).table.slots[i] == c.table.slots[i]
    ensures |Next(c, e).table.slots| == |c.table.slots|
  {
    hide Inv, Stranded, GateNext, LinkNext, WorkNext, ReplayNext, GateEnabled, WorkEnabled, ReplayEnabled, LinkEnabled;
    match e
    case OfGate(g) => GateStrands(c, g, i);
    case OfLink(l) =>
      LinkStrands(c, l, i);
      LinkKeepsSize(c, l);
    case OfWork(w) => WorkStrands(c, w, i);
    case OfReplay(r) => ReplayStrands(c, r, i);
  }

  lemma LinkKeepsSize(c: Client, e: Link)
    requires LinkEnabled(c, e)
    ensures |LinkNext(c, e).table.slots| == |c.table.slots|
  {
    hide LinkConn, LinkAct;
  }

  /** In every run a stranded slot stays exactly as it is, and a subscribe or unsubscribe of its topic
      is refused, until the client reconnects by itself. */
  lemma {:induction false} StrandedUntilReconnect(states: seq<Client>, events: seq<Event>, slots: nat, m: nat, n: nat, i: nat)
    requires Run(states, events, slots) && m <= n < |states| && Stranded(states[m], i)
    requires forall k | m <= k < n :: !IsRetry(events[k])
    ensures Stranded(states[n], i) && states[n].table.slots[i] == states[m].table.slots[i]
    ensures Reserve(states[n].table, states[m].table.slots[i].topic, false) == Refused(Already)
    ensures Reserve(states[n].table, states[m].table.slots[i].topic, true) == Refused(UnsubscribeFailed)
  {
    hide Inv, Stranded, Next, Enabled, Reserve, Start;
    RunInv(states, events, slots, n);
    if m < n {
      RunInv(states, events, slots, n - 1);
      StrandedUntilReconnect(states, events, slots, m, n - 1, i);
      assert Moves(states[n - 1], events[n - 1], states[n]);
      StrandedIsThere(states[n - 1], i);
      StrandedExactly(states[n - 1], events[n - 1], i);
    }
    StrandedIsThere(states[n], i);
    WaitingIsRefused(states[n], i);
  }

  lemma StrandedIsThere(c: Client, i: nat)
    requires Stranded(c, i)
    ensures i < |c.table.slots| && Waits(c.table.slots[i])
  {
  }

  lemma WaitingIsRefused(c: Client, i: nat)
    requires Inv(c) && i < |c.table.slots| && Waits(c.table.slots[i])
    ensures Reserve(c.table, c.table.slots[i].topic, false) == Refused(Already)
    ensures Reserve(c.table, c.table.slots[i].topic, true) == Refused(UnsubscribeFailed)
  {
    var topic := c.table.slots[i].topic;
    assert SlotHolds(c.table.slots[i], topic);
    var found := FindTopic(c.table.slots, topic, 0);
    assert found != i ==> Apart(c.table.slots[found], c.table.slots[i]);
  }

  // ---------------------------------------------------------------- it happens

  const OPEN := Life(false, false, false, false, false, false)
  const LOOPING := Life(false, false, false, false, true, false)
  const CLAIMED := Life(false, false, false, true, true, false)
  const NO_TOPIC := Table([EMPTY_SLOT], 0)
  const ONE_TOPIC := Table([Slot(SubPending, 1, "t")], 1)
  const CONNECTION := Live(ConnectOp(1), Done)
  const REQUEST := Live(SlotOp(1, false, 0, 1, "t"), Queued)

  lemma ExampleConnects(idle: Conn, on: Conn)
    requires idle == Conn(Initialized, 0, false, false, false, false) && on == Conn(Connecting, 1, false, false, false, false)
    ensures var c1 := Client(idle, OPEN, Counts(1, 0, 0), NO_TOPIC, [], [InApi, Out, Out, Out]);
            var c2 := Client(on, OPEN, Counts(1, 0, 0), NO_TOPIC, [], [Beginning(1, Initialized), Out, Out, Out]);
            var c3 := Client(on, OPEN, Counts(1, 0, 0), NO_TOPIC, [], [Opening(1), Out, Out, Out]);
            var c4 := Client(on, OPEN, Counts(1, 0, 1), NO_TOPIC, [Live(ConnectOp(1), Unsent)], [SendingConnect(1), Out, Out, Out]);
            && Moves(Start(1, 4), OfGate(EnterApi(0)), c1)
            && Moves(c1, OfLink(BeginConnect(0)), c2)
            && Moves(c2, OfLink(InstallConfig(0)), c3)
            && Moves(c3, OfWork(EnterConnect(0)), c4)
  {
    assert Start(1, 4).acts == [Out, Out, Out, Out] && Start(1, 4).table.slots == [EMPTY_SLOT];
  }

  lemma ExampleProcesses(on: Conn, up: Conn)
    requires on == Conn(Connecting, 1, false, false, false, false) && up == Conn(Connected, 1, true, true, false, false)
    ensures var queued, held := [Live(ConnectOp(1), Queued)], [Live(ConnectOp(1), Held)];
            var c4 := Client(on, OPEN, Counts(1, 0, 1), NO_TOPIC, [Live(ConnectOp(1), Unsent)], [SendingConnect(1), Out, Out, Out]);
            var c5 := Client(on, OPEN, Counts(1, 0, 1), NO_TOPIC, queued, [AwaitConnect(1), Out, Out, Out]);
            var c6 := Client(on, OPEN, Counts(2, 0, 1), NO_TOPIC, queued, [AwaitConnect(1), InApi, Out, Out]);
            var c7 := Client(on, LOOPING, Counts(2, 0, 1), NO_TOPIC, queued, [AwaitConnect(1), Processing, Out, Out]);
            var c8 := Client(on, CLAIMED, Counts(2, 0, 1), NO_TOPIC, held, [AwaitConnect(1), Processing, Out, Out]);
            var c9 := Client(up, CLAIMED, Counts(2, 0, 1), NO_TOPIC, [CONNECTION], [AwaitConnect(1), Processing, Out, Out]);
            && Moves(c4, OfWork(SendConnect(0, 0)), c5)
            && Moves(c5, OfGate(EnterApi(1)), c6)
            && Moves(c6, OfGate(BeginProcess(1)), c7)
            && Moves(c7, OfWork(Receive(1, 0)), c8)
            && Moves(c8, OfWork(Complete(0, Success, false, true)), c9)
  {
  }

  lemma ExampleSubscribes(up: Conn)
    requires up == Conn(Connected, 1, true, true, false, false)
    ensures var c9 := Client(up, CLAIMED, Counts(2, 0, 1), NO_TOPIC, [CONNECTION], [AwaitConnect(1), Processing, Out, Out]);
            var c10 := Client(up, CLAIMED, Counts(3, 0, 1), NO_TOPIC, [CONNECTION], [AwaitConnect(1), Processing, InApi, Out]);
            var c11 := Client(up, CLAIMED, Counts(3, 0, 2), ONE_TOPIC, [CONNECTION, REQUEST], [AwaitConnect(1), Processing, OutApi, Out]);
            && Moves(c9, OfGate(EnterApi(2)), c10)
            && Moves(c10, OfWork(Request(2, "t", false, true)), c11)
  {
    assert FindTopic([EMPTY_SLOT], "t", 1) == 1 && FindTopic([EMPTY_SLOT], "t", 0) == 1;
  }

  lemma ExampleDisconnects(up: Conn, closing: Conn, down: Conn)
    requires up == Conn(Connected, 1, true, true, false, false) && closing == Conn(Disconnecting, 1, true, true, false, false)
    requires down == Conn(Disconnected, 2, true, true, false, false)
    ensures var two := [CONNECTION, REQUEST];
            var three := two + [Live(DisconnectOp(1), Queued)];
            var c11 := Client(up, CLAIMED, Counts(3, 0, 2), ONE_TOPIC, two, [AwaitConnect(1), Processing, OutApi, Out]);
            var c12 := Client(up, CLAIMED, Counts(4, 0, 2), ONE_TOPIC, two, [AwaitConnect(1), Processing, OutApi, InApi]);
            var c13 := Client(closing, CLAIMED, Counts(4, 0, 3), ONE_TOPIC, three, [AwaitConnect(1), Processing, OutApi, AwaitDisconnect(1)]);
            var c14 := Client(closing, CLAIMED, Counts(4, 0, 3), ONE_TOPIC, three, [AwaitConnect(1), Processing, OutApi, Aborting(1)]);
            var c15 := Client(down, CLAIMED, Counts(4, 0, 3), ONE_TOPIC, three, [AwaitConnect(1), Processing, OutApi, OutApi]);
            && Moves(c11, OfGate(EnterApi(3)), c12)
            && Moves(c12, OfWork(Disconnect(3, true)), c13)
            && Moves(c13, OfLink(AwaitedDisconnect(3)), c14)
            && Moves(c14, OfLink(AbortDisconnect(3)), c15)
            && Stranded(c15, 0)
  {
  }

  /** A subscribe is queued, and a disconnect times out before the agent answers it: the slot is
      stranded without any connect. */
  lemma StrandedIsReachable() returns (states: seq<Client>, events: seq<Event>)
    ensures Run(states, events, 1) && Stranded(states[|events|], 0)
    ensures states[|events|].table.slots[0].state.SubPending?
  {
    var idle, on, up := Conn(Initialized, 0, false, false, false, false), Conn(Connecting, 1, false, false, false, false),
                        Conn(Connected, 1, true, true, false, false);
    var closing, down := Conn(Disconnecting, 1, true, true, false, false), Conn(Disconnected, 2, true, true, false, false);
    ExampleConnects(idle, on);
    ExampleProcesses(on, up);
    ExampleSubscribes(up);
    ExampleDisconnects(up, closing, down);
    assert |Start(1, 4).acts| == 4;
    hide Moves, Start, Path, Stranded;
    var queued, held, two := [Live(ConnectOp(1), Queued)], [Live(ConnectOp(1), Held)], [CONNECTION, REQUEST];
    var three := two + [Live(DisconnectOp(1), Queued)];
    states, events := [Start(1, 4)], [];
    PathNothing(Start(1, 4));
    states, events := Extend(states, events, OfGate(EnterApi(0)),
                             Client(idle, OPEN, Counts(1, 0, 0), NO_TOPIC, [], [InApi, Out, Out, Out]));
    states, events := Extend(states, events, OfLink(BeginConnect(0)),
                             Client(on, OPEN, Counts(1, 0, 0), NO_TOPIC, [], [Beginning(1, Initialized), Out, Out, Out]));
    states, events := Extend(states, events, OfLink(InstallConfig(0)),
                             Client(on, OPEN, Counts(1, 0, 0), NO_TOPIC, [], [Opening(1), Out, Out, Out]));
    states, events := Extend(states, events, OfWork(EnterConnect(0)),
                             Client(on, OPEN, Counts(1, 0, 1), NO_TOPIC, [Live(ConnectOp(1), Unsent)], [SendingConnect(1), Out, Out, Out]));
    states, events := Extend(states, events, OfWork(SendConnect(0, 0)),
                             Client(on, OPEN, Counts(1, 0, 1), NO_TOPIC, queued, [AwaitConnect(1), Out, Out, Out]));
    states, events := Extend(states, events, OfGate(EnterApi(1)),
                             Client(on, OPEN, Counts(2, 0, 1), NO_TOPIC, queued, [AwaitConnect(1), InApi, Out, Out]));
    states, events := Extend(states, events, OfGate(BeginProcess(1)),
                             Client(on, LOOPING, Counts(2, 0, 1), NO_TOPIC, queued, [AwaitConnect(1), Processing, Out, Out]));
    states, events := Extend(states, events, OfWork(Receive(1, 0)),
                             Client(on, CLAIMED, Counts(2, 0, 1), NO_TOPIC, held, [AwaitConnect(1), Processing, Out, Out]));
    states, events := Extend(states, events, OfWork(Complete(0, Success, false, true)),
                             Client(up, CLAIMED, Counts(2, 0, 1), NO_TOPIC, [CONNECTION], [AwaitConnect(1), Processing, Out, Out]));
    states, events := Extend(states, events, OfGate(EnterApi(2)),
                             Client(up, CLAIMED, Counts(3, 0, 1), NO_TOPIC, [CONNECTION], [AwaitConnect(1), Processing, InApi, Out]));
    states, events := Extend(states, events, OfWork(Request(2, "t", false, true)),
                             Client(up, CLAIMED, Counts(3, 0, 2), ONE_TOPIC, two, [AwaitConnect(1), Processing, OutApi, Out]));
    states, events := Extend(states, events, OfGate(EnterApi(3)),
                             Client(up, CLAIMED, Counts(4, 0, 2), ONE_TOPIC, two, [AwaitConnect(1), Processing, OutApi, InApi]));
    states, events := Extend(states, events, OfWork(Disconnect(3, true)),
                             Client(closing, CLAIMED, Counts(4, 0, 3), ONE_TOPIC, three, [AwaitConnect(1), Processing, OutApi, AwaitDisconnect(1)]));
    states, events := Extend(states, events, OfLink(AwaitedDisconnect(3)),
                             Client(closing, CLAIMED, Counts(4, 0, 3), ONE_TOPIC, three, [AwaitConnect(1), Processing, OutApi, Aborting(1)]));
    states, events := Extend(states, events, OfLink(AbortDisconnect(3)),
                             Client(down, CLAIMED, Counts(4, 0, 3), ONE_TOPIC, three, [AwaitConnect(1), Processing, OutApi, OutApi]));
  }
}
