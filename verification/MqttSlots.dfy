/** The subscription table in every reachable state, and why stale work is inert: an operation can
    change a slot only while the slot still is as the operation left it. */
module MqttSlots {
  import opened MqttTable
  import opened MqttClient
  import MqttClosing

  /** A subscribe or unsubscribe whose answer is outstanding. */
  predicate Asks(l: Live) {
    l.op.SlotOp? && !l.stage.Done? && !l.stage.Replaying?
  }

  /** The state a slot is in while its request is outstanding. */
  function AskedState(op: Op): SlotState
    requires op.SlotOp?
  {
    if op.unsubscribe then UnsubPending else SubPending
  }

  /** A request's token is one that was given out; a slot that still has it holds the request's
      topic and, within the generation, waits for this very request. */
  predicate AskOk(op: Op, generation: nat, table: Table)
    requires op.SlotOp?
  {
    && 0 < op.token <= table.last
    && op.index < |table.slots|
    && (table.slots[op.index].token == op.token ==>
          && table.slots[op.index].topic == op.topic
          && (op.generation == generation ==> table.slots[op.index].state == AskedState(op)))
  }

  predicate OpOk(l: Live, generation: nat, table: Table) {
    && l.op.generation <= generation
    && (l.stage.Replaying? ==> l.op.ConnectOp?)
    && (Asks(l) ==> AskOk(l.op, generation, table))
  }

  predicate Apart2(a: Live, b: Live) {
    Asks(a) && Asks(b) ==> a.op.token != b.op.token
  }

  predicate OpsOk(live: seq<Live>, generation: nat, table: Table) {
    && ValidTable(table)
    && (forall i | 0 <= i < |live| :: OpOk(live[i], generation, table))
    && (forall i, j | 0 <= i < |live| && 0 <= j < |live| && i != j :: Apart2(live[i], live[j]))
  }

  /** No outstanding request has this token. */
  predicate Unasked(live: seq<Live>, token: nat) {
    forall j | 0 <= j < |live| :: Asks(live[j]) ==> live[j].op.token != token
  }

  predicate UndoOk(cursor: Cursor, live: seq<Live>, last: nat) {
    cursor.Undoing? ==> 0 < cursor.token <= last && Unasked(live, cursor.token)
  }

  /** A replay that has to put a slot back is not undoing an outstanding request. */
  predicate UndosOk(live: seq<Live>, acts: seq<Activity>, last: nat) {
    && (forall i | 0 <= i < |live| && live[i].stage.Replaying? :: UndoOk(live[i].stage.cursor, live, last))
    && (forall t | 0 <= t < |acts| && acts[t].ReplayingAll? :: UndoOk(acts[t].cursor, live, last))
  }

  predicate GenerationOk(a: Activity, generation: nat) {
    && (a.Opening? ==> a.generation <= generation)
    && (a.SendingConnect? ==> a.generation <= generation)
    && (a.Beginning? ==> a.generation <= generation)
  }

  predicate Inv(c: Client) {
    && OpsOk(c.live, c.conn.generation, c.table)
    && UndosOk(c.live, c.acts, c.table.last)
    && (forall t | 0 <= t < |c.acts| :: GenerationOk(c.acts[t], c.conn.generation))
  }

  lemma StartInv(slots: nat, threads: nat)
    ensures Inv(MqttClosing.Start(slots, threads))
  {
  }

  // ---------------------------------------------------------------- how the parts move

  /** A new generation makes every operation stale, so nothing it expects of its slot matters. */
  lemma NewGenerationOps(live: seq<Live>, generation: nat, table: Table)
    requires OpsOk(live, generation, table)
    ensures OpsOk(live, generation + 1, table)
    ensures forall i | 0 <= i < |live| :: live[i].op.generation != generation + 1
  {
    forall i | 0 <= i < |live|
      ensures OpOk(live[i], generation + 1, table) && live[i].op.generation != generation + 1
    {
      assert OpOk(live[i], generation, table);
    }
  }

  lemma SweepOps(live: seq<Live>, generation: nat, table: Table)
    requires OpsOk(live, generation, table)
    ensures OpsOk(live, generation + 1, Swept(table))
  {
    SweptValid(table);
    forall i | 0 <= i < |live|
      ensures OpOk(live[i], generation + 1, Swept(table))
    {
      assert OpOk(live[i], generation, table);
    }
  }

  lemma AddPlain(live: seq<Live>, generation: nat, table: Table, op: Op, stage: Stage)
    requires OpsOk(live, generation, table) && !op.SlotOp? && op.generation <= generation && !stage.Replaying?
    ensures OpsOk(live + [Live(op, stage)], generation, table)
  {
  }

  /** A reservation takes a token nobody has, so it disturbs no other request. */
  lemma AddAsk(live: seq<Live>, generation: nat, table: Table, table': Table, op: Op, stage: Stage)
    requires OpsOk(live, generation, table) && ValidTable(table') && op.SlotOp? && op.generation == generation
    requires table'.last == table.last + 1 == op.token && op.index < |table.slots| && !stage.Replaying?
    requires table'.slots == table.slots[op.index := Slot(AskedState(op), op.token, op.topic)]
    ensures OpsOk(live + [Live(op, stage)], generation, table')
  {
    var live' := live + [Live(op, stage)];
    forall i | 0 <= i < |live'|
      ensures OpOk(live'[i], generation, table') && (i < |live| ==> Apart2(live'[i], Live(op, stage)))
    {
      if i < |live| { assert OpOk(live[i], generation, table); }
    }
  }

  /** A rolled-back reservation: the slot has a token no request has. */
  lemma UnaskedChange(live: seq<Live>, generation: nat, table: Table, table': Table, index: nat)
    requires OpsOk(live, generation, table) && ValidTable(table') && index < |table.slots| && table.last <= table'.last
    requires |table'.slots| == |table.slots| && table'.slots == table.slots[index := table'.slots[index]]
    requires table'.slots[index].token == 0 || Unasked(live, table'.slots[index].token)
    ensures OpsOk(live, generation, table')
  {
    forall i | 0 <= i < |live|
      ensures OpOk(live[i], generation, table')
    {
      assert OpOk(live[i], generation, table);
    }
  }

  lemma Restage(live: seq<Live>, generation: nat, table: Table, k: nat, stage: Stage)
    requires OpsOk(live, generation, table) && k < |live|
    requires stage.Replaying? ==> live[k].op.ConnectOp?
    requires live[k].stage.Done? ==> stage.Done?
    requires live[k].stage.Replaying? ==> stage.Done? || stage.Replaying?
    ensures OpsOk(live[k := live[k].(stage := stage)], generation, table)
  {
    var live' := live[k := live[k].(stage := stage)];
    forall i, j | 0 <= i < |live'| && 0 <= j < |live'| && i != j
      ensures Apart2(live'[i], live'[j])
    {
      assert Apart2(live[i], live[j]);
    }
    forall i | 0 <= i < |live'|
      ensures OpOk(live'[i], generation, table)
    {
      assert OpOk(live[i], generation, table);
    }
  }

  lemma RemoveOps(live: seq<Live>, generation: nat, table: Table, k: nat)
    requires OpsOk(live, generation, table) && k < |live|
    ensures OpsOk(Without(live, k), generation, table)
  {
    var live' := Without(live, k);
    forall i, j | 0 <= i < |live'| && 0 <= j < |live'| && i != j
      ensures Apart2(live'[i], live'[j])
    {
      assert Apart2(live[if i < k then i else i + 1], live[if j < k then j else j + 1]);
    }
    forall i | 0 <= i < |live'|
      ensures OpOk(live'[i], generation, table)
    {
      assert OpOk(live[if i < k then i else i + 1], generation, table);
    }
  }

  /** An answer moves only the slot of the request that is done with it. */
  lemma AnswerOps(live: seq<Live>, generation: nat, table: Table, k: nat, accepted: bool)
    requires OpsOk(live, generation, table) && k < |live| && Asks(live[k])
    ensures OpsOk(live[k := live[k].(stage := Done)], generation,
                  Answered(table, live[k].op.index, live[k].op.token, live[k].op.unsubscribe, accepted))
  {
    var op := live[k].op;
    var live' := live[k := live[k].(stage := Done)];
    var table' := Answered(table, op.index, op.token, op.unsubscribe, accepted);
    assert OpOk(live[k], generation, table);
    AnsweredValid(table, op.index, op.token, op.unsubscribe, accepted);
    Restage(live, generation, table, k, Done);
    forall i | 0 <= i < |live'|
      ensures OpOk(live'[i], generation, table')
    {
      assert OpOk(live'[i], generation, table) && OpOk(live[i], generation, table);
      if i != k { assert Apart2(live[i], live[k]); }
    }
  }

  /** Cursors outlive appending an operation whose token is new. */
  lemma UndosAppend(live: seq<Live>, acts: seq<Activity>, last: nat, last': nat, l: Live)
    requires UndosOk(live, acts, last) && last <= last' && !l.stage.Replaying?
    requires Asks(l) ==> l.op.token > last
    ensures UndosOk(live + [l], acts, last')
  {
    var live' := live + [l];
    forall i | 0 <= i < |live'| && live'[i].stage.Replaying?
      ensures UndoOk(live'[i].stage.cursor, live', last')
    {
      assert UndoOk(live[i].stage.cursor, live, last);
    }
    forall t | 0 <= t < |acts| && acts[t].ReplayingAll?
      ensures UndoOk(acts[t].cursor, live', last')
    {
      assert UndoOk(acts[t].cursor, live, last);
    }
  }

  /** A change of stage that starts no undoing of its own. */
  lemma UndosRestage(live: seq<Live>, acts: seq<Activity>, last: nat, k: nat, stage: Stage)
    requires UndosOk(live, acts, last) && k < |live|
    requires live[k].stage.Done? ==> stage.Done?
    requires live[k].stage.Replaying? ==> stage.Done? || stage.Replaying?
    requires stage.Replaying? ==> UndoOk(stage.cursor, live, last)
    ensures UndosOk(live[k := live[k].(stage := stage)], acts, last)
  {
    var live' := live[k := live[k].(stage := stage)];
    forall i | 0 <= i < |live'| && live'[i].stage.Replaying?
      ensures UndoOk(live'[i].stage.cursor, live', last)
    {
      assert i != k ==> UndoOk(live[i].stage.cursor, live, last);
    }
    forall t | 0 <= t < |acts| && acts[t].ReplayingAll?
      ensures UndoOk(acts[t].cursor, live', last)
    {
      assert UndoOk(acts[t].cursor, live, last);
    }
  }

  lemma UnaskedRemove(live: seq<Live>, k: nat, token: nat)
    requires k < |live| && forall j | 0 <= j < |live| && j != k :: Asks(live[j]) ==> live[j].op.token != token
    ensures Unasked(Without(live, k), token)
  {
    var live' := Without(live, k);
    forall j | 0 <= j < |live'|
      ensures Asks(live'[j]) ==> live'[j].op.token != token
    {
      assert live'[j] == live[if j < k then j else j + 1];
    }
  }

  lemma UndosRemove(live: seq<Live>, acts: seq<Activity>, last: nat, k: nat)
    requires UndosOk(live, acts, last) && k < |live|
    ensures UndosOk(Without(live, k), acts, last)
  {
    var live' := Without(live, k);
    forall i | 0 <= i < |live'| && live'[i].stage.Replaying?
      ensures UndoOk(live'[i].stage.cursor, live', last)
    {
      var was := if i < k then i else i + 1;
      assert live'[i] == live[was] && UndoOk(live[was].stage.cursor, live, last);
      if live[was].stage.cursor.Undoing? { UnaskedRemove(live, k, live[was].stage.cursor.token); }
    }
    forall t | 0 <= t < |acts| && acts[t].ReplayingAll?
      ensures UndoOk(acts[t].cursor, live', last)
    {
      assert UndoOk(acts[t].cursor, live, last);
      if acts[t].cursor.Undoing? { UnaskedRemove(live, k, acts[t].cursor.token); }
    }
  }

  lemma ActInv(c: Client, t: nat, a: Activity)
    requires Inv(c) && t < |c.acts| && GenerationOk(a, c.conn.generation)
    requires a.ReplayingAll? ==> UndoOk(a.cursor, c.live, c.table.last)
    ensures Inv(Acting(c, t, a))
  {
    hide OpsOk, UndoOk;
  }

  // ---------------------------------------------------------------- every step

  lemma GateInv(c: Client, e: Gate)
    requires Inv(c) && GateEnabled(c, e)
    ensures Inv(GateNext(c, e))
  {
    hide OpsOk, UndoOk;
  }

  lemma SweptLast(table: Table)
    ensures Swept(table).last == table.last
  {
  }

  lemma LinkInv(c: Client, e: Link)
    requires Inv(c) && LinkEnabled(c, e)
    ensures Inv(LinkNext(c, e))
  {
    NewGenerationOps(c.live, c.conn.generation, c.table);
    SweepOps(c.live, c.conn.generation, c.table);
    SweptLast(c.table);
    hide OpsOk, UndoOk, Swept;
    var d := LinkNext(c, e);
    assert d.conn.generation == c.conn.generation || d.conn.generation == c.conn.generation + 1;
    assert e.Retry? ==> d.conn.generation == c.conn.generation + 1;
  }

  lemma QueuedInv(c: Client, index: nat, topic: string, unsubscribe: bool)
    requires Inv(c) && topic != "" && Reserve(c.table, topic, unsubscribe) == Reserved(index)
    ensures Inv(Added(c.(table := AfterReserve(c.table, index, topic, unsubscribe)),
                      SlotOp(c.conn.generation, unsubscribe, index, c.table.last + 1, topic), Queued))
  {
    var table, token := AfterReserve(c.table, index, topic, unsubscribe), c.table.last + 1;
    var op := SlotOp(c.conn.generation, unsubscribe, index, token, topic);
    ReserveValid(c.table, topic, unsubscribe);
    assert table.slots == c.table.slots[index := Slot(AskedState(op), token, topic)];
    hide OpsOk, UndosOk, ValidTable, AfterReserve, Reserve;
    AddAsk(c.live, c.conn.generation, c.table, table, op, Queued);
    UndosAppend(c.live, c.acts, c.table.last, token, Live(op, Queued));
  }

  lemma RequestInv(c: Client, topic: string, unsubscribe: bool, queued: bool)
    requires Inv(c) && topic != ""
    ensures Inv(Requested(c, topic, unsubscribe, queued))
  {
    hide Inv, AfterReserve, RolledBack;
    var r := Reserve(c.table, topic, unsubscribe);
    if c.conn.state.Connected? && r.Reserved? {
      if queued { QueuedInv(c, r.index, topic, unsubscribe); } else { RefusedInv(c, r.index, topic, unsubscribe); }
    }
  }

  lemma NewTokenUnasked(c: Client)
    requires Inv(c)
    ensures Unasked(c.live, c.table.last + 1)
  {
    forall j | 0 <= j < |c.live|
      ensures Asks(c.live[j]) ==> c.live[j].op.token != c.table.last + 1
    {
      assert OpOk(c.live[j], c.conn.generation, c.table);
    }
  }

  lemma MoreTokens(live: seq<Live>, acts: seq<Activity>, last: nat, last': nat)
    requires UndosOk(live, acts, last) && last <= last'
    ensures UndosOk(live, acts, last')
  {
  }

  lemma RefusedInv(c: Client, index: nat, topic: string, unsubscribe: bool)
    requires Inv(c) && topic != "" && Reserve(c.table, topic, unsubscribe) == Reserved(index)
    ensures Inv(c.(table := RolledBack(AfterReserve(c.table, index, topic, unsubscribe), index, c.table.last + 1,
                                       if unsubscribe then Active else Empty)))
  {
    var table, token := AfterReserve(c.table, index, topic, unsubscribe), c.table.last + 1;
    var table' := RolledBack(table, index, token, if unsubscribe then Active else Empty);
    ReserveValid(c.table, topic, unsubscribe);
    if unsubscribe { ActivatedValid(table, index); } else { ClearedValid(table, index, token); }
    NewTokenUnasked(c);
    UnaskedChange(c.live, c.conn.generation, c.table, table', index);
    MoreTokens(c.live, c.acts, c.table.last, token);
  }

  lemma CompleteInv(c: Client, k: nat, status: Status, granted: bool, present: bool)
    requires Inv(c) && WorkEnabled(c, Complete(k, status, granted, present))
    ensures Inv(WorkNext(c, Complete(k, status, granted, present)))
  {
    var op := c.live[k].op;
    var stage := StageAfter(c.conn, op, status, present);
    UndosRestage(c.live, c.acts, c.table.last, k, stage);
    if op.SlotOp? && op.generation == c.conn.generation {
      AnswerOps(c.live, c.conn.generation, c.table, k, status.Success? && (op.unsubscribe || granted));
    } else {
      Restage(c.live, c.conn.generation, c.table, k, stage);
    }
    hide OpsOk, UndosOk;
  }

  lemma PlainInv(c: Client, op: Op, stage: Stage)
    requires Inv(c) && !op.SlotOp? && op.generation <= c.conn.generation && !stage.Replaying?
    ensures Inv(Added(c, op, stage))
  {
    AddPlain(c.live, c.conn.generation, c.table, op, stage);
    UndosAppend(c.live, c.acts, c.table.last, c.table.last, Live(op, stage));
  }

  lemma RemoveInv(c: Client, k: nat)
    requires Inv(c) && k < |c.live|
    ensures Inv(Removed(c, k))
  {
    RemoveOps(c.live, c.conn.generation, c.table, k);
    UndosRemove(c.live, c.acts, c.table.last, k);
  }

  lemma StageInv(c: Client, k: nat, stage: Stage)
    requires Inv(c) && k < |c.live|
    requires c.live[k].stage.Done? ==> stage.Done?
    requires c.live[k].stage.Replaying? ==> stage.Done? || stage.Replaying?
    requires stage.Replaying? ==> c.live[k].op.ConnectOp? && UndoOk(stage.cursor, c.live, c.table.last)
    ensures Inv(Staged(c, k, stage))
  {
    Restage(c.live, c.conn.generation, c.table, k, stage);
    UndosRestage(c.live, c.acts, c.table.last, k, stage);
  }

  lemma ConnInv(c: Client, conn: Conn)
    requires Inv(c) && conn.generation == c.conn.generation
    ensures Inv(c.(conn := conn))
  {
  }

  lemma WorkInv(c: Client, e: Work)
    requires Inv(c) && WorkEnabled(c, e)
    ensures Inv(WorkNext(c, e))
  {
    hide OpsOk, UndosOk;
    match e
    case EnterConnect(t) =>
      var generation := c.acts[t].generation;
      PlainInv(c, ConnectOp(generation), Unsent);
      ActInv(Added(c, ConnectOp(generation), Unsent), t, SendingConnect(generation));
    case SendConnect(t, k) =>
      StageInv(c, k, Queued);
      ActInv(Staged(c, k, Queued), t, AwaitConnect(c.acts[t].generation));
    case DropConnect(t, k) =>
      RemoveInv(c, k);
      ActInv(Removed(c, k), t, FailedConnect);
    case Disconnect(t, queued) =>
      var d := c.(conn := c.conn.(state := Disconnecting, disconnectDone := false));
      ConnInv(c, c.conn.(disconnectDone := false));
      ConnInv(c, d.conn);
      ActInv(c, t, OutApi);
      ActInv(c.(conn := c.conn.(disconnectDone := false)), t, OutApi);
      PlainInv(d, DisconnectOp(c.conn.generation), Queued);
      ActInv(Added(d, DisconnectOp(c.conn.generation), Queued), t, AwaitDisconnect(c.conn.generation));
    case Publish(t, queued) =>
      PlainInv(c, PublishOp(c.conn.generation), Queued);
      ActInv(c, t, OutApi);
      ActInv(Added(c, PublishOp(c.conn.generation), Queued), t, OutApi);
    case Request(t, topic, unsubscribe, queued) =>
      RequestInv(c, topic, unsubscribe, queued);
      ActInv(Requested(c, topic, unsubscribe, queued), t, OutApi);
    case Receive(t, k) =>
      StageInv(c, k, Held);
      StageInv(c, k, Refusal);
    case Complete(k, status, granted, present) =>
      CompleteInv(c, k, status, granted, present);
    case Leave(k) =>
      RemoveInv(c, k);
  }

  lemma CursorInv(c: Client, who: Replayer, cursor: Cursor)
    requires Inv(c) && HasCursor(c, who) && UndoOk(cursor, c.live, c.table.last)
    ensures Inv(WithCursor(c, who, cursor))
  {
    match who
    case ByCompletion(k) =>
      assert OpOk(c.live[k], c.conn.generation, c.table);
      StageInv(c, k, Replaying(cursor));
    case ByProcess(t) =>
      ActInv(c, t, ReplayingAll(cursor));
  }

  lemma EndCursorInv(c: Client, who: Replayer)
    requires Inv(c) && HasCursor(c, who)
    ensures Inv(EndCursor(c, who))
  {
    match who
    case ByCompletion(k) => StageInv(c, k, Done);
    case ByProcess(t) => ActInv(c, t, Processing);
  }

  lemma ReplaySlotInv(c: Client, who: Replayer)
    requires Inv(c) && ReplayEnabled(c, ReplaySlot(who))
    ensures Inv(ReplayNext(c, ReplaySlot(who)))
  {
    var i := CursorOf(c, who).i;
    if i >= |c.table.slots| {
      EndCursorInv(c, who);
    } else if !c.table.slots[i].state.Active? {
      CursorInv(c, who, At(i + 1));
    } else {
      var token := c.table.last + 1;
      var op := SlotOp(c.conn.generation, false, i, token, c.table.slots[i].topic);
      var d := WithCursor(c, who, Sending(i, token));
      CursorInv(c, who, Sending(i, token));
      ReplayedValid(c.table, i);
      AddAsk(d.live, c.conn.generation, c.table, Replayed(c.table, i), op, Unsent);
      UndosAppend(d.live, d.acts, c.table.last, token, Live(op, Unsent));
    }
  }

  /** When a replay's command is dropped, its token is nobody's. */
  lemma DroppedInv(c: Client, who: Replayer, j: nat)
    requires Inv(c) && ReplayEnabled(c, ReplayDropped(who, j))
    ensures Inv(ReplayNext(c, ReplayDropped(who, j)))
  {
    var cursor := CursorOf(c, who);
    var undo := Undoing(cursor.i, cursor.token);
    RemoveInv(c, j);
    assert OpOk(c.live[j], c.conn.generation, c.table);
    assert forall i | 0 <= i < |c.live| && i != j :: Apart2(c.live[i], c.live[j]);
    UnaskedRemove(c.live, j, cursor.token);
    var d := Removed(c, j);
    match who
    case ByCompletion(k) =>
      var k' := if k < j then k else k - 1;
      assert d.live[k'] == c.live[k];
      CursorInv(d, ByCompletion(k'), undo);
      assert Without(c.live[k := c.live[k].(stage := Replaying(undo))], j) == d.live[k' := d.live[k'].(stage := Replaying(undo))];
    case ByProcess(t) =>
      CursorInv(d, who, undo);
  }

  lemma UndoneInv(c: Client, who: Replayer)
    requires Inv(c) && ReplayEnabled(c, ReplayUndone(who))
    ensures Inv(ReplayNext(c, ReplayUndone(who)))
  {
    var cursor := CursorOf(c, who);
    assert UndoOk(cursor, c.live, c.table.last);
    var table := RolledBack(c.table, cursor.i, cursor.token, Active);
    var d := c.(table := table);
    if cursor.i < |c.table.slots| && c.table.slots[cursor.i].token == cursor.token {
      assert SlotOk(c.table.slots[cursor.i], c.table.last);
      ActivatedValid(c.table, cursor.i);
      UnaskedChange(c.live, c.conn.generation, c.table, table, cursor.i);
    }
    CursorInv(d, who, At(cursor.i + 1));
  }

  lemma ReplayInv(c: Client, e: Replay)
    requires Inv(c) && ReplayEnabled(c, e)
    ensures Inv(ReplayNext(c, e))
  {
    match e
    case ReplaySlot(who) => ReplaySlotInv(c, who);
    case ReplaySent(who, j) =>
      StageInv(c, j, Queued);
      CursorInv(Staged(c, j, Queued), who, At(CursorOf(c, who).i + 1));
    case ReplayDropped(who, j) => DroppedInv(c, who, j);
    case ReplayUndone(who) => UndoneInv(c, who);
  }

  lemma StepInv(c: Client, e: Event)
    requires Inv(c) && Enabled(c, e)
    ensures Inv(Next(c, e))
  {
    hide Inv, GateNext, LinkNext, WorkNext, ReplayNext, GateEnabled, LinkEnabled, WorkEnabled, ReplayEnabled;
    match e
    case OfGate(g) => GateInv(c, g);
    case OfLink(l) => LinkInv(c, l);
    case OfWork(w) => WorkInv(c, w);
    case OfReplay(r) => ReplayInv(c, r);
  }

  lemma {:induction false} RunInv(states: seq<Client>, events: seq<Event>, slots: nat, n: nat)
    requires MqttClosing.Run(states, events, slots) && n < |states|
    ensures Inv(states[n])
  {
    hide Inv, Next, Enabled, MqttClosing.Start;
    if n == 0 {
      StartInv(slots, |states[0].acts|);
    } else {
      RunInv(states, events, slots, n - 1);
      assert MqttClosing.Moves(states[n - 1], events[n - 1], states[n]);
      StepInv(states[n - 1], events[n - 1]);
    }
  }

  // ---------------------------------------------------------------- what every run guarantees

  /** In every reachable state each topic is in at most one slot, no two slots share a token, and
      empty slots are zeroed. */
  lemma TableInEveryState(states: seq<Client>, events: seq<Event>, slots: nat, n: nat)
    requires MqttClosing.Run(states, events, slots) && n < |states|
    ensures var s := states[n].table.slots;
            && (forall i | 0 <= i < |s| && s[i].state.Empty? :: s[i] == EMPTY_SLOT)
            && (forall i, j | 0 <= i < j < |s| && Taken(s[i]) && Taken(s[j]) ::
                  s[i].topic != s[j].topic && s[i].token != s[j].token)
  {
    RunInv(states, events, slots, n);
    var s := states[n].table;
    assert forall i | 0 <= i < |s.slots| :: SlotOk(s.slots[i], s.last);
    assert forall i, j | 0 <= i < |s.slots| && 0 <= j < |s.slots| && i != j :: Apart(s.slots[i], s.slots[j]);
  }

  lemma {:induction false} GenerationsNeverFall(states: seq<Client>, events: seq<Event>, slots: nat, m: nat, n: nat)
    requires MqttClosing.Run(states, events, slots) && m <= n < |states|
    ensures states[m].conn.generation <= states[n].conn.generation
  {
    hide Next, Enabled, MqttClosing.Start;
    if m < n {
      GenerationsNeverFall(states, events, slots, m, n - 1);
      assert MqttClosing.Moves(states[n - 1], events[n - 1], states[n]);
      GenerationGrows(states[n - 1], events[n - 1]);
    }
  }

  lemma GenerationGrows(c: Client, e: Event)
    requires Enabled(c, e)
    ensures c.conn.generation <= Next(c, e).conn.generation
  {
    hide TableAfter, AfterReserve, RolledBack, Replayed, Swept;
    match e
    case OfGate(_) =>
    case OfLink(l) => hide LinkAct;
    case OfWork(w) => WorkKeepsGeneration(c, w);
    case OfReplay(r) => hide HasCursor;
  }

  lemma WorkKeepsGeneration(c: Client, e: Work)
    requires WorkEnabled(c, e)
    ensures WorkNext(c, e).conn.generation == c.conn.generation
  {
    hide TableAfter, AfterReserve, RolledBack, Reserve, MayHandOut;
  }

  /** Once an operation's generation has passed, its completion, whenever it comes and whatever its
      status, changes no connection state, no result and no slot. */
  lemma StaleForEver(states: seq<Client>, events: seq<Event>, slots: nat, m: nat, n: nat,
                     k: nat, status: Status, granted: bool, present: bool)
    requires MqttClosing.Run(states, events, slots) && m <= n < |states|
    requires WorkEnabled(states[n], Complete(k, status, granted, present))
    requires states[n].live[k].op.generation < states[m].conn.generation
    ensures WorkNext(states[n], Complete(k, status, granted, present)) == Staged(states[n], k, Done)
  {
    GenerationsNeverFall(states, events, slots, m, n);
  }

  /** A completion whose token the slot no longer has changes nothing. */
  lemma OldTokenIsInert(c: Client, k: nat, status: Status, granted: bool, present: bool)
    requires WorkEnabled(c, Complete(k, status, granted, present))
    requires c.live[k].op.SlotOp? && c.live[k].op.index < |c.table.slots|
    requires c.table.slots[c.live[k].op.index].token != c.live[k].op.token
    ensures WorkNext(c, Complete(k, status, granted, present)) == Staged(c, k, Done)
  {
  }

  /** When a completion does change a slot, in any reachable state, it is the slot its request
      reserved: the same topic, in the state the request put it in. A granted subscribe makes it
      active, a refused one empty; a granted unsubscribe makes it empty, a refused one active. */
  lemma CompletionTouchesItsOwnSlot(states: seq<Client>, events: seq<Event>, slots: nat, n: nat,
                                    k: nat, status: Status, granted: bool, present: bool, i: nat)
    requires MqttClosing.Run(states, events, slots) && n < |states|
    requires WorkEnabled(states[n], Complete(k, status, granted, present)) && i < |states[n].table.slots|
    ensures var c, d := states[n], WorkNext(states[n], Complete(k, status, granted, present));
            var op := c.live[k].op;
            && |d.table.slots| == |c.table.slots|
            && (d.table.slots[i] != c.table.slots[i] ==>
                  && op.SlotOp? && op.generation == c.conn.generation && op.index == i
                  && c.table.slots[i] == Slot(AskedState(op), op.token, op.topic)
                  && d.table.slots[i] ==
                       if op.unsubscribe == (status.Success? && (op.unsubscribe || granted)) then EMPTY_SLOT
                       else Slot(Active, op.token, op.topic))
  {
    RunInv(states, events, slots, n);
    assert OpOk(states[n].live[k], states[n].conn.generation, states[n].table);
  }

  /** The connection moves on a completion only within the generation, and only from the state
      that waits for it. */
  lemma CompletionFitsTheState(c: Client, k: nat, status: Status, granted: bool, present: bool)
    requires WorkEnabled(c, Complete(k, status, granted, present))
    ensures var d, op := WorkNext(c, Complete(k, status, granted, present)), c.live[k].op;
            d.conn != c.conn ==>
              && MayHandOut(c.conn, op) && d.conn.generation == c.conn.generation
              && (d.conn.state.Connected? ==> (op.ConnectOp? && status.Success?) || (op.DisconnectOp? && !status.Success?))
  {
  }

  /** The place an operation had before a step, from the place it has after it. */
  function Before(e: Event, i: nat): nat {
    match e
    case OfWork(Leave(k)) => if i < k then i else i + 1
    case OfWork(DropConnect(_, k)) => if i < k then i else i + 1
    case OfReplay(ReplayDropped(_, k)) => if i < k then i else i + 1
    case _ => i
  }

  lemma WorkHandsOut(c: Client, e: Work, i: nat)
    requires WorkEnabled(c, e) && i < |WorkNext(c, e).live| && WorkNext(c, e).live[i].stage.Held?
    ensures var d, was := WorkNext(c, e), Before(OfWork(e), i);
            && was < |c.live| && c.live[was].op == d.live[i].op
            && (c.live[was].stage.Held?
                || (e.Receive? && e.k == i && c.live[i].stage.Queued? && MayHandOut(c.conn, c.live[i].op)))
  {
    hide ConnAfter, TableAfter, Requested, MayHandOut;
    match e
    case Request(t, topic, unsubscribe, queued) => RequestAdds(c, topic, unsubscribe, queued, i);
    case _ =>
  }

  lemma RequestAdds(c: Client, topic: string, unsubscribe: bool, queued: bool, i: nat)
    requires i < |Requested(c, topic, unsubscribe, queued).live|
    ensures var d := Requested(c, topic, unsubscribe, queued);
            (i < |c.live| && d.live[i] == c.live[i]) || d.live[i].stage.Queued?
  {
  }

  lemma ReplayHandsOutNothing(c: Client, e: Replay, i: nat)
    requires ReplayEnabled(c, e) && i < |ReplayNext(c, e).live| && ReplayNext(c, e).live[i].stage.Held?
    ensures Before(OfReplay(e), i) < |c.live| && c.live[Before(OfReplay(e), i)] == ReplayNext(c, e).live[i]
  {
    hide Replayed, RolledBack;
    var d := ReplayNext(c, e);
    if e.ReplayDropped? {
      var moved := WithCursor(c, e.who, Undoing(CursorOf(c, e.who).i, CursorOf(c, e.who).token));
      assert d.live[i] == moved.live[if i < e.j then i else i + 1];
    } else {
      assert i < |c.live| && d.live[i] == c.live[i];
    }
  }

  lemma StepHandsOut(c: Client, e: Event, i: nat)
    requires Enabled(c, e) && i < |Next(c, e).live| && Next(c, e).live[i].stage.Held?
    ensures var was := Before(e, i);
            && was < |c.live| && c.live[was].op == Next(c, e).live[i].op
            && (c.live[was].stage.Held?
                || (e.OfWork? && e.work.Receive? && e.work.k == i == was && c.live[i].stage.Queued? && MayHandOut(c.conn, c.live[i].op)))
  {
    hide GateNext, LinkNext, WorkNext, ReplayNext, MayHandOut;
    match e
    case OfGate(g) => GateKeepsLive(c, g);
    case OfLink(k) => LinkKeepsLive(c, k);
    case OfWork(w) => WorkHandsOut(c, w, i);
    case OfReplay(r) => ReplayHandsOutNothing(c, r, i);
  }

  lemma GateKeepsLive(c: Client, e: Gate)
    requires GateEnabled(c, e)
    ensures GateNext(c, e).live == c.live
  {
  }

  lemma LinkKeepsLive(c: Client, e: Link)
    requires LinkEnabled(c, e)
    ensures LinkNext(c, e).live == c.live && LinkNext(c, e).life == c.life
  {
    hide LinkConn, LinkAct, Swept;
  }

  /** The place at `m` of the operation that is at place `i` at `n`: it moves down when one before it is
      removed. */
  function PlaceAt(events: seq<Event>, m: nat, n: nat, i: nat): nat
    requires m <= n <= |events|
    decreases n
  {
    if m == n then i else PlaceAt(events, m, n - 1, Before(events[n - 1], i))
  }

  /** Step `m` received exactly the operation that is at place `k`, and it fitted. */
  predicate HandedOutAt(states: seq<Client>, events: seq<Event>, m: nat, k: nat, op: Op) {
    && m < |events| && m < |states| && events[m].OfWork? && events[m].work.Receive? && events[m].work.k == k < |states[m].live|
    && states[m].live[k] == Live(op, Queued) && MayHandOut(states[m].conn, op)
  }

  /** In every run an operation is with the agent only because an earlier receive of this very
      operation, followed from place to place, found its generation current and the connection in the
      state that fits its type. */
  lemma {:induction false} HandedOutOnlyIfFitting(states: seq<Client>, events: seq<Event>, slots: nat, n: nat, i: nat)
    returns (m: nat)
    requires MqttClosing.Run(states, events, slots) && n < |states| && i < |states[n].live| && states[n].live[i].stage.Held?
    ensures m < n && HandedOutAt(states, events, m, PlaceAt(events, m, n, i), states[n].live[i].op)
    decreases n
  {
    assert states[0].live == [] && n > 0;
    hide Next, Enabled, MayHandOut, MqttClosing.Start;
    assert MqttClosing.Moves(states[n - 1], events[n - 1], states[n]);
    StepHandsOut(states[n - 1], events[n - 1], i);
    var was := Before(events[n - 1], i);
    if states[n - 1].live[was].stage.Held? {
      m := HandedOutOnlyIfFitting(states, events, slots, n - 1, was);
    } else {
      m := n - 1;
      assert PlaceAt(events, n - 1, n, i) == was;
    }
  }

  /** A subscribe or unsubscribe that cannot be queued leaves every slot's topic and state, the
      connection and the operations as they were. */
  lemma UnqueuedRequestRestores(c: Client, topic: string, unsubscribe: bool)
    requires Inv(c) && topic != ""
    ensures var d := Requested(c, topic, unsubscribe, false);
            && d.(table := c.table) == c
            && |d.table.slots| == |c.table.slots|
            && (forall i | 0 <= i < |c.table.slots| ::
                  d.table.slots[i].state == c.table.slots[i].state && d.table.slots[i].topic == c.table.slots[i].topic)
            && (!unsubscribe ==> d.table.slots == c.table.slots)
  {
    var r := Reserve(c.table, topic, unsubscribe);
    if c.conn.state.Connected? && r.Reserved? {
      if unsubscribe {
        UnsubscribeRollsBack(c.table, r.index, true);
      } else {
        SubscribeRollsBack(c.table, topic);
      }
    }
  }
}
