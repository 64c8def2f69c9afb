/** When a teardown of the MQTT client can come to its end: it can drain what is queued, until the
    moment it has cancelled everything once. */
module MqttTeardown {
  import opened Counting
  import opened MqttTable
  import opened MqttClient
  import opened MqttClosing
  import opened MqttSenders
  import MqttSlots

  predicate HasQueued(live: seq<Live>) {
    exists k | 0 <= k < |live| :: live[k].stage.Queued?
  }

  // ---------------------------------------------------------------- wedged

  /** A command is queued, everything was cancelled before it came, and no process loop can start. */
  predicate Wedged(c: Client) {
    Exact(c) && c.life.closing && c.life.cancelled && !c.life.running && HasQueued(c.live)
  }

  lemma NoAgent(c: Client, t: nat)
    requires Exact(c) && c.life.cancelled && !c.life.running
    ensures !RunsAgent(c, t)
  {
    if RunsAgent(c, t) {
      CountOne(c.acts, t, RUNS);
    }
  }

  lemma WithoutKeepsQueued(live: seq<Live>, j: nat)
    requires j < |live| && HasQueued(live) && !live[j].stage.Queued?
    ensures HasQueued(Without(live, j))
  {
    var k :| 0 <= k < |live| && live[k].stage.Queued?;
    assert Without(live, j)[if k < j then k else k - 1] == live[k];
  }

  lemma StagedKeepsQueued(live: seq<Live>, k: nat, stage: Stage)
    requires k < |live| && HasQueued(live) && (live[k].stage.Queued? ==> stage.Queued?)
    ensures HasQueued(live[k := live[k].(stage := stage)])
  {
    var q :| 0 <= q < |live| && live[q].stage.Queued?;
    assert live[k := live[k].(stage := stage)][q].stage.Queued?;
  }

  lemma AppendKeepsQueued(live: seq<Live>, l: Live)
    requires HasQueued(live)
    ensures HasQueued(live + [l])
  {
    var q :| 0 <= q < |live| && live[q].stage.Queued?;
    assert (live + [l])[q].stage.Queued?;
  }

  lemma GateKeepsWedged(c: Client, e: Gate)
    requires Wedged(c) && GateEnabled(c, e)
    ensures GateNext(c, e).life.closing && GateNext(c, e).life.cancelled && !GateNext(c, e).life.running
    ensures GateNext(c, e).live == c.live && !e.FinishDeinit?
  {
    hide Count, HasQueued;
    assert c.live != [] by { QueuedIsSomething(c.live); }
  }

  lemma QueuedIsSomething(live: seq<Live>)
    requires HasQueued(live)
    ensures live != []
  {
  }

  lemma WorkKeepsQueued(c: Client, e: Work)
    requires Wedged(c) && WorkEnabled(c, e)
    ensures HasQueued(WorkNext(c, e).live) && WorkNext(c, e).life == c.life
  {
    hide Exact, HasQueued, ConnAfter, TableAfter, MayHandOut, Reserve, AfterReserve, RolledBack;
    match e
    case Receive(t, k) => NoAgent(c, t);
    case EnterConnect(t) => AppendKeepsQueued(c.live, Live(ConnectOp(c.acts[t].generation), Unsent));
    case SendConnect(t, k) => StagedKeepsQueued(c.live, k, Queued);
    case DropConnect(t, k) => WithoutKeepsQueued(c.live, k);
    case Disconnect(t, queued) => AppendKeepsQueued(c.live, Live(DisconnectOp(c.conn.generation), Queued));
    case Publish(t, queued) => AppendKeepsQueued(c.live, Live(PublishOp(c.conn.generation), Queued));
    case Request(t, topic, unsubscribe, queued) => RequestKeepsQueued(c, topic, unsubscribe, queued);
    case Complete(k, status, granted, present) => StagedKeepsQueued(c.live, k, StageAfter(c.conn, c.live[k].op, status, present));
    case Leave(k) => WithoutKeepsQueued(c.live, k);
  }

  lemma RequestKeepsQueued(c: Client, topic: string, unsubscribe: bool, queued: bool)
    requires HasQueued(c.live)
    ensures HasQueued(Requested(c, topic, unsubscribe, queued).live)
    ensures Requested(c, topic, unsubscribe, queued).life == c.life
  {
    hide HasQueued, AfterReserve, RolledBack;
    var r := Reserve(c.table, topic, unsubscribe);
    if c.conn.state.Connected? && r.Reserved? && queued {
      AppendKeepsQueued(c.live, Live(SlotOp(c.conn.generation, unsubscribe, r.index, c.table.last + 1, topic), Queued));
    }
  }

  lemma CursorKeepsQueued(c: Client, who: Replayer, stage: Stage)
    requires HasQueued(c.live) && HasCursor(c, who) && who.ByCompletion?
    ensures HasQueued(Staged(c, who.k, stage).live)
  {
    StagedKeepsQueued(c.live, who.k, stage);
  }

  lemma ReplayKeepsQueued(c: Client, e: Replay)
    requires HasQueued(c.live) && ReplayEnabled(c, e)
    ensures HasQueued(ReplayNext(c, e).live) && ReplayNext(c, e).life == c.life
  {
    hide HasQueued, Replayed, RolledBack;
    var cursor := CursorOf(c, e.who);
    if e.who.ByCompletion? {
      CursorKeepsQueued(c, e.who, Done);
      CursorKeepsQueued(c, e.who, Replaying(At(cursor.i + 1)));
      if cursor.Sending? { CursorKeepsQueued(c, e.who, Replaying(Undoing(cursor.i, cursor.token))); }
    }
    match e
    case ReplaySlot(who) =>
      if cursor.i < |c.table.slots| && c.table.slots[cursor.i].state.Active? {
        var token := c.table.last + 1;
        if who.ByCompletion? { CursorKeepsQueued(c, who, Replaying(Sending(cursor.i, token))); }
        AppendKeepsQueued(WithCursor(c, who, Sending(cursor.i, token)).live,
                          Live(SlotOp(c.conn.generation, false, cursor.i, token, c.table.slots[cursor.i].topic), Unsent));
      }
    case ReplaySent(who, j) =>
      StagedKeepsQueued(c.live, j, Queued);
      if who.ByCompletion? { CursorKeepsQueued(Staged(c, j, Queued), who, Replaying(At(cursor.i + 1))); }
    case ReplayDropped(who, j) =>
      WithoutKeepsQueued(WithCursor(c, who, Undoing(cursor.i, cursor.token)).live, j);
    case ReplayUndone(who) =>
  }

  lemma WedgedStep(c: Client, e: Event)
    requires Wedged(c) && Enabled(c, e)
    ensures Wedged(Next(c, e))
    ensures !(e.OfGate? && e.gate.FinishDeinit?)
  {
    StepExact(c, e);
    hide Exact, HasQueued, GateNext, LinkNext, WorkNext, ReplayNext, GateEnabled, LinkEnabled, WorkEnabled, ReplayEnabled;
    match e
    case OfGate(g) => GateKeepsWedged(c, g);
    case OfLink(l) => MqttSlots.LinkKeepsLive(c, l);
    case OfWork(w) => WorkKeepsQueued(c, w);
    case OfReplay(r) => ReplayKeepsQueued(c, r);
  }

  /** From there no teardown ever ends, however often it is tried. */
  lemma {:induction false} WedgedForEver(states: seq<Client>, events: seq<Event>)
    requires Path(states, events) && Wedged(states[0])
    ensures Wedged(states[|events|])
    ensures forall i | 0 <= i < |events| :: !(events[i].OfGate? && events[i].gate.FinishDeinit?)
  {
    hide Wedged, Next, Enabled;
    var n := |events|;
    if n > 0 {
      assert Path(states[..n], events[..n - 1]);
      WedgedForEver(states[..n], events[..n - 1]);
      assert Moves(states[n - 1], events[n - 1], states[n]);
      WedgedStep(states[n - 1], events[n - 1]);
      assert forall i | 0 <= i < n - 1 :: events[i] == events[..n - 1][i];
    }
  }

  // ---------------------------------------------------------------- draining

  predicate Outside(a: Activity) {
    a.Out? || a.Deiniting? || a.Finished?
  }

  /** Thread `t` is tearing down a closing client; the others are anywhere. */
  ghost predicate Left(c: Client, t: nat) {
    Exact(c) && Matched(c.live, c.acts) && c.life.closing && Does(c, t, Deiniting)
  }

  /** A command is queued and nobody is left to take it. */
  predicate Undrainable(c: Client) {
    c.life.cancelled && !c.life.running && HasQueued(c.live)
  }

  /** How much is left to do: for a replay, an operation, and a thread. */
  function CursorEffort(cursor: Cursor, slots: nat): nat {
    var rest := if cursor.i < slots then slots - cursor.i else 0;
    var next := if cursor.i + 1 < slots then slots - cursor.i - 1 else 0;
    match cursor
    case At(_) => 3 + 10 * rest
    case Sending(_, _) => 5 + 10 * next
    case Undoing(_, _) => 4 + 10 * next
  }

  function StageEffort(stage: Stage, slots: nat): nat {
    match stage
    case Unsent => 4
    case Queued => 3
    case Done => 1
    case Replaying(cursor) => CursorEffort(cursor, slots)
    case _ => 2
  }

  function ActivityEffort(a: Activity, slots: nat): nat {
    match a
    case Out => 0
    case Deiniting => 0
    case Finished => 0
    case OutApi => 1
    case InCallback => 1
    case AwaitConnect(_) => 3
    case AwaitDisconnect(_) => 3
    case Reconnecting(_) => 3
    case ReplayingAll(cursor) => CursorEffort(cursor, slots)
    case _ => 2
  }

  function LIVE_EFFORT(slots: nat): Live -> nat {
    (l: Live) => StageEffort(l.stage, slots)
  }

  function ACT_EFFORT(slots: nat): Activity -> nat {
    (a: Activity) => ActivityEffort(a, slots)
  }

  function Effort(c: Client): nat {
    Sum(c.live, LIVE_EFFORT(|c.table.slots|)) + Sum(c.acts, ACT_EFFORT(|c.table.slots|))
  }

  lemma ActEffort(acts: seq<Activity>, t: nat, a: Activity, slots: nat)
    requires t < |acts|
    ensures Sum(acts[t := a], ACT_EFFORT(slots)) + ActivityEffort(acts[t], slots) == Sum(acts, ACT_EFFORT(slots)) + ActivityEffort(a, slots)
  {
    SumUpdate(acts, t, a, ACT_EFFORT(slots));
  }

  lemma StagedEffort(live: seq<Live>, k: nat, stage: Stage, slots: nat)
    requires k < |live|
    ensures Sum(live[k := live[k].(stage := stage)], LIVE_EFFORT(slots)) + StageEffort(live[k].stage, slots)
         == Sum(live, LIVE_EFFORT(slots)) + StageEffort(stage, slots)
  {
    SumUpdate(live, k, live[k].(stage := stage), LIVE_EFFORT(slots));
  }

  lemma WithoutEffort(live: seq<Live>, k: nat, slots: nat)
    requires k < |live|
    ensures Sum(Without(live, k), LIVE_EFFORT(slots)) + StageEffort(live[k].stage, slots) == Sum(live, LIVE_EFFORT(slots))
  {
    SumWithout(live, k, LIVE_EFFORT(slots));
  }

  lemma AddedEffort(live: seq<Live>, l: Live, slots: nat)
    ensures Sum(live + [l], LIVE_EFFORT(slots)) == Sum(live, LIVE_EFFORT(slots)) + StageEffort(l.stage, slots)
  {
    SumSnoc(live, l, LIVE_EFFORT(slots));
  }

  /** Fewer operations, other stages: nothing is queued that was not. */
  predicate NoneQueued(before: seq<Live>, after: seq<Live>) {
    HasQueued(after) ==> HasQueued(before)
  }

  lemma StagedQueuesNone(live: seq<Live>, k: nat, stage: Stage)
    requires k < |live| && !stage.Queued?
    ensures NoneQueued(live, live[k := live[k].(stage := stage)])
  {
    var after := live[k := live[k].(stage := stage)];
    if i :| 0 <= i < |after| && after[i].stage.Queued? { assert live[i].stage.Queued?; }
  }

  lemma WithoutQueuesNone(live: seq<Live>, k: nat)
    requires k < |live|
    ensures NoneQueued(live, Without(live, k))
  {
    if i :| 0 <= i < |Without(live, k)| && Without(live, k)[i].stage.Queued? {
      assert live[if i < k then i else i + 1].stage.Queued?;
    }
  }

  lemma AddedQueuesNone(live: seq<Live>, l: Live)
    requires !l.stage.Queued?
    ensures NoneQueued(live, live + [l])
  {
    if i :| 0 <= i < |live + [l]| && (live + [l])[i].stage.Queued? { assert live[i].stage.Queued?; }
  }

  /** One step closer to the end of the teardown. */
  predicate Closer(c: Client, d: Client) {
    && d.life.cancelled == c.life.cancelled && d.life.running == c.life.running && d.life.closing == c.life.closing
    && NoneQueued(c.live, d.live) && Effort(d) < Effort(c)
  }

  // ---------------------------------------------------------------- senders give up

  /** A replay at its slot: looks, drops the command, or puts the slot back. */
  lemma CursorEffortMoves(c: Client, who: Replayer, cursor: Cursor)
    requires HasCursor(c, who)
    ensures var d, slots := WithCursor(c, who, cursor), |c.table.slots|;
            && Effort(d) + CursorEffort(CursorOf(c, who), slots) == Effort(c) + CursorEffort(cursor, slots)
            && NoneQueued(c.live, d.live)
  {
    hide Sum, HasQueued, CursorEffort;
    match who
    case ByCompletion(k) =>
      StagedEffort(c.live, k, Replaying(cursor), |c.table.slots|);
      StagedQueuesNone(c.live, k, Replaying(cursor));
    case ByProcess(t) => ActEffort(c.acts, t, ReplayingAll(cursor), |c.table.slots|);
  }

  lemma CursorEffortEnds(c: Client, who: Replayer)
    requires HasCursor(c, who) && CursorOf(c, who).At?
    ensures Effort(EndCursor(c, who)) < Effort(c) && NoneQueued(c.live, EndCursor(c, who).live)
  {
    hide Sum, HasQueued;
    match who
    case ByCompletion(k) =>
      StagedEffort(c.live, k, Done, |c.table.slots|);
      StagedQueuesNone(c.live, k, Done);
    case ByProcess(t) => ActEffort(c.acts, t, Processing, |c.table.slots|);
  }

  lemma SlotCloser(c: Client, who: Replayer)
    requires ReplayEnabled(c, ReplaySlot(who))
    ensures Closer(c, ReplayNext(c, ReplaySlot(who)))
  {
    hide Sum, HasQueued;
    var i, token := CursorOf(c, who).i, c.table.last + 1;
    if i >= |c.table.slots| {
      CursorEffortEnds(c, who);
    } else if !c.table.slots[i].state.Active? {
      CursorEffortMoves(c, who, At(i + 1));
    } else {
      CursorEffortMoves(c, who, Sending(i, token));
      var d := WithCursor(c, who, Sending(i, token));
      var l := Live(SlotOp(c.conn.generation, false, i, token, c.table.slots[i].topic), Unsent);
      AddedEffort(d.live, l, |c.table.slots|);
      AddedQueuesNone(d.live, l);
    }
  }

  lemma DroppedCloser(c: Client, who: Replayer, j: nat)
    requires IsSent(c, who, j)
    ensures Closer(c, ReplayNext(c, ReplayDropped(who, j)))
  {
    hide Sum, HasQueued;
    var cursor := CursorOf(c, who);
    var d := WithCursor(c, who, Undoing(cursor.i, cursor.token));
    CursorEffortMoves(c, who, Undoing(cursor.i, cursor.token));
    WithoutEffort(d.live, j, |c.table.slots|);
    WithoutQueuesNone(d.live, j);
  }

  lemma UndoneCloser(c: Client, who: Replayer)
    requires ReplayEnabled(c, ReplayUndone(who))
    ensures Closer(c, ReplayNext(c, ReplayUndone(who)))
  {
    hide Sum, HasQueued;
    CursorEffortMoves(c, who, At(CursorOf(c, who).i + 1));
  }

  /** A replay can always go on: the command it sends is there to be dropped. */
  lemma ReplayCloser(c: Client, who: Replayer) returns (e: Replay)
    requires Matched(c.live, c.acts) && HasCursor(c, who)
    ensures e.who == who && ReplayEnabled(c, e) && Closer(c, ReplayNext(c, e))
  {
    hide Closer, ReplayNext;
    var cursor := CursorOf(c, who);
    match cursor
    case At(_) =>
      e := ReplaySlot(who);
      SlotCloser(c, who);
    case Sending(i, token) =>
      CursorReplays(c, who, ForSlot(i, token));
      var j := SenderHasCommand(c, ForSlot(i, token));
      e := ReplayDropped(who, j);
      DroppedCloser(c, who, j);
    case Undoing(_, _) =>
      e := ReplayUndone(who);
      UndoneCloser(c, who);
  }

  lemma CursorReplays(c: Client, who: Replayer, x: Errand)
    requires HasCursor(c, who) && Carries(CursorOf(c, who), x)
    ensures (exists k | 0 <= k < |c.live| :: Replays(c.live[k], x)) || (exists t | 0 <= t < |c.acts| :: Sends(c.acts[t], x))
  {
    match who
    case ByCompletion(k) => assert Replays(c.live[k], x);
    case ByProcess(t) => assert Sends(c.acts[t], x);
  }

  lemma ConnectCloser(c: Client, u: nat) returns (e: Work)
    requires Matched(c.live, c.acts) && u < |c.acts| && c.acts[u].SendingConnect?
    ensures e.DropConnect? && e.t == u && WorkEnabled(c, e) && Closer(c, WorkNext(c, e))
  {
    hide Sum, HasQueued, Matched;
    var x := ForConnect(c.acts[u].generation);
    assert Sends(c.acts[u], x);
    var k := SenderHasCommand(c, x);
    e := DropConnect(u, k);
    WithoutEffort(c.live, k, |c.table.slots|);
    WithoutQueuesNone(c.live, k);
    ActEffort(c.acts, u, FailedConnect, |c.table.slots|);
  }

  /** Nobody is just sending a command or replaying. */
  predicate Settled(c: Client) {
    && (forall i | 0 <= i < |c.acts| :: !c.acts[i].SendingConnect? && !c.acts[i].ReplayingAll?)
    && (forall k | 0 <= k < |c.live| :: !c.live[k].stage.Unsent? && !c.live[k].stage.Replaying?)
  }

  lemma ClosesIn(c: Client, e: Event, t: nat)
    requires Left(c, t) && !Undrainable(c) && Enabled(c, e) && Closer(c, Next(c, e)) && Does(Next(c, e), t, Deiniting)
    ensures Left(Next(c, e), t) && !Undrainable(Next(c, e)) && Effort(Next(c, e)) < Effort(c)
  {
    hide Exact, Matched, Next, Enabled, HasQueued, Effort;
    StepExact(c, e);
    AllMatched(c, e);
  }

  lemma ReplayProgress(c: Client, t: nat, who: Replayer) returns (e: Event)
    requires Left(c, t) && !Undrainable(c) && HasCursor(c, who)
    ensures Enabled(c, e) && Left(Next(c, e), t) && !Undrainable(Next(c, e)) && Effort(Next(c, e)) < Effort(c)
  {
    var r := ReplayCloser(c, who);
    e := OfReplay(r);
    ReplayKeepsTeardown(c, r, t);
    hide Left, Closer, Undrainable, ReplayNext, ReplayEnabled;
    ClosesIn(c, e, t);
  }

  lemma ReplayKeepsTeardown(c: Client, r: Replay, t: nat)
    requires ReplayEnabled(c, r) && Does(c, t, Deiniting)
    ensures Does(ReplayNext(c, r), t, Deiniting)
  {
    hide Replayed, RolledBack;
  }

  lemma ConnectProgress(c: Client, t: nat, u: nat) returns (e: Event)
    requires Left(c, t) && !Undrainable(c) && u < |c.acts| && c.acts[u].SendingConnect?
    ensures Enabled(c, e) && Left(Next(c, e), t) && !Undrainable(Next(c, e)) && Effort(Next(c, e)) < Effort(c)
  {
    var w := ConnectCloser(c, u);
    e := OfWork(w);
    assert Does(Next(c, e), t, Deiniting);
    hide Left, Closer, Undrainable, WorkNext, WorkEnabled;
    ClosesIn(c, e, t);
  }

  /** While somebody sends or replays, a sender can give up. */
  lemma SenderProgress(c: Client, t: nat) returns (e: Event)
    requires Left(c, t) && !Undrainable(c) && !Settled(c)
    ensures Enabled(c, e) && Left(Next(c, e), t) && !Undrainable(Next(c, e)) && Effort(Next(c, e)) < Effort(c)
  {
    hide Exact, Undrainable, Next, Enabled, Effort;
    if u :| 0 <= u < |c.acts| && c.acts[u].SendingConnect? {
      e := ConnectProgress(c, t, u);
    } else if u :| 0 <= u < |c.acts| && c.acts[u].ReplayingAll? {
      e := ReplayProgress(c, t, ByProcess(u));
    } else if k :| 0 <= k < |c.live| && c.live[k].stage.Replaying? {
      e := ReplayProgress(c, t, ByCompletion(k));
    } else {
      var j :| 0 <= j < |c.live| && c.live[j].stage.Unsent?;
      CommandHasSender(c, j);
      assert false;
    }
  }

  // ---------------------------------------------------------------- calls leave

  /** The step with which a call ends, or comes closer to its end. */
  function LeaveEvent(c: Client, u: nat): Event
    requires u < |c.acts|
  {
    match c.acts[u]
    case InCallback => OfGate(LeaveCallback(u))
    case InApi => OfGate(StopProcess(u))
    case Processing => OfGate(EndProcess(u))
    case Beginning(_, _) => OfLink(ReleaseConnect(u))
    case Opening(_) => OfLink(FailConnect(u))
    case FailedConnect => OfLink(FailConnect(u))
    case AwaitConnect(_) => OfLink(AwaitedConnect(u))
    case Cancelling(_) => OfLink(CancelConnect(u))
    case AwaitDisconnect(_) => OfLink(AwaitedDisconnect(u))
    case Aborting(_) => OfLink(AbortDisconnect(u))
    case Reconnecting(_) => OfLink(FailRetry(u, true))
    case _ => OfGate(LeaveApi(u))
  }

  lemma LeaveStep(c: Client, u: nat)
    requires Settled(c) && u < |c.acts| && !Outside(c.acts[u])
    ensures Enabled(c, LeaveEvent(c, u))
    ensures var d, slots := Next(c, LeaveEvent(c, u)), |c.table.slots|;
            && d.live == c.live && d.table == c.table && d.life.cancelled == c.life.cancelled && d.life.closing == c.life.closing
            && |d.acts| == |c.acts| && d.acts == c.acts[u := d.acts[u]]
            && ActivityEffort(d.acts[u], slots) < ActivityEffort(c.acts[u], slots)
            && (!c.acts[u].Processing? ==> d.life.running == c.life.running)
  {
    hide LinkConn, Swept, CursorEffort;
  }

  lemma LeaveProgress(c: Client, t: nat, u: nat)
    requires Left(c, t) && Settled(c) && !Undrainable(c) && u < |c.acts| && !Outside(c.acts[u])
    requires c.live == [] || !c.acts[u].Processing?
    ensures Enabled(c, LeaveEvent(c, u))
    ensures var d := Next(c, LeaveEvent(c, u)); Left(d, t) && !Undrainable(d) && Effort(d) < Effort(c)
  {
    LeaveStep(c, u);
    StepExact(c, LeaveEvent(c, u));
    AllMatched(c, LeaveEvent(c, u));
    var d := Next(c, LeaveEvent(c, u));
    ActEffort(c.acts, u, d.acts[u], |c.table.slots|);
    hide Exact, Matched, Next, Enabled, LeaveEvent, Sum, ActivityEffort;
  }

  /** The last operation is received, completed or removed. */
  function DrainEvent(c: Client, agent: nat): Event
    requires c.live != []
  {
    var k := |c.live| - 1;
    match c.live[k].stage
    case Queued => OfWork(Receive(agent, k))
    case Done => OfWork(Leave(k))
    case _ => OfWork(Complete(k, RecvFailed, false, false))
  }

  lemma DrainStep(c: Client, agent: nat)
    requires Settled(c) && c.live != [] && (c.live[|c.live| - 1].stage.Queued? ==> RunsAgent(c, agent))
    ensures Enabled(c, DrainEvent(c, agent))
    ensures var d := Next(c, DrainEvent(c, agent)); d.acts == c.acts && Closer(c, d)
  {
    hide HasQueued, ConnAfter, MayHandOut, Sum;
    var k := |c.live| - 1;
    var stage := c.live[k].stage;
    if stage.Done? {
      WithoutEffort(c.live, k, |c.table.slots|);
      WithoutQueuesNone(c.live, k);
    } else {
      var after := if !stage.Queued? then Done else if MayHandOut(c.conn, c.live[k].op) then Held else Refusal;
      StagedEffort(c.live, k, after, |c.table.slots|);
      StagedQueuesNone(c.live, k, after);
    }
  }

  lemma DrainProgress(c: Client, t: nat, agent: nat)
    requires Left(c, t) && Settled(c) && !Undrainable(c)
    requires c.live != [] && (c.live[|c.live| - 1].stage.Queued? ==> RunsAgent(c, agent))
    ensures Enabled(c, DrainEvent(c, agent))
    ensures var d := Next(c, DrainEvent(c, agent)); Left(d, t) && !Undrainable(d) && Effort(d) < Effort(c)
  {
    DrainStep(c, agent);
    hide Exact, Matched, Closer, Undrainable, Next, Enabled, DrainEvent, Settled;
    ClosesIn(c, DrainEvent(c, agent), t);
  }

  /** There is an agent for a queued command, or a reconnecting process loop that will be one. */
  lemma AgentOrReconnect(c: Client, t: nat) returns (u: nat)
    requires Left(c, t) && Settled(c) && !Undrainable(c) && HasQueued(c.live)
    ensures u < |c.acts| && (RunsAgent(c, u) || c.acts[u].Reconnecting?)
  {
    hide Matched;
    if !c.life.cancelled {
      u := t;
    } else {
      u := CountFind(c.acts, RUNS);
    }
  }

  /** One step towards the end. */
  lemma Progress(c: Client, t: nat) returns (e: Event)
    requires Left(c, t) && !Undrainable(c) && (c.live != [] || exists u | 0 <= u < |c.acts| :: !Outside(c.acts[u]))
    ensures Enabled(c, e) && Left(Next(c, e), t) && !Undrainable(Next(c, e)) && Effort(Next(c, e)) < Effort(c)
  {
    hide Left, Undrainable, Next, Enabled, DrainEvent, LeaveEvent, HasQueued, Outside, Settled, Effort;
    if !Settled(c) {
      e := SenderProgress(c, t);
    } else if c.live == [] {
      var u :| 0 <= u < |c.acts| && !Outside(c.acts[u]);
      LeaveProgress(c, t, u);
      e := LeaveEvent(c, u);
    } else if c.live[|c.live| - 1].stage.Queued? {
      QueuedAt(c.live, |c.live| - 1);
      var u := AgentOrReconnect(c, t);
      if RunsAgent(c, u) {
        DrainProgress(c, t, u);
        e := DrainEvent(c, u);
      } else {
        ReconnectingIsInside(c.acts[u]);
        LeaveProgress(c, t, u);
        e := LeaveEvent(c, u);
      }
    } else {
      DrainProgress(c, t, t);
      e := DrainEvent(c, t);
    }
  }

  lemma QueuedAt(live: seq<Live>, k: nat)
    requires k < |live| && live[k].stage.Queued?
    ensures HasQueued(live)
  {
  }

  lemma ReconnectingIsInside(a: Activity)
    ensures a.Reconnecting? ==> !Outside(a)
  {
  }

  lemma PathSnocFront(c: Client, e: Event, states: seq<Client>, events: seq<Event>)
    requires Path(states, events) && Moves(c, e, states[0])
    ensures Path([c] + states, [e] + events)
  {
    hide Moves;
    forall i | 0 <= i < |[e] + events|
      ensures Moves(([c] + states)[i], ([e] + events)[i], ([c] + states)[i + 1])
    {
      if i > 0 { assert Moves(states[i - 1], events[i - 1], states[i]); }
    }
  }

  lemma {:induction false} Finishes(c: Client, t: nat) returns (states: seq<Client>, events: seq<Event>)
    requires Left(c, t) && !Undrainable(c)
    ensures Path(states, events) && states[0] == c && events != [] && events[|events| - 1] == OfGate(FinishDeinit(t))
    decreases Effort(c)
  {
    if c.live == [] && forall u | 0 <= u < |c.acts| :: Outside(c.acts[u]) {
      states, events := FinishesEmpty(c, t);
    } else {
      hide Left, Undrainable, Next, Enabled, Outside, Effort;
      var e := Progress(c, t);
      var rest, more := Finishes(Next(c, e), t);
      PathSnocFront(c, e, rest, more);
      states, events := [c] + rest, [e] + more;
    }
  }

  lemma FinishesEmpty(c: Client, t: nat) returns (states: seq<Client>, events: seq<Event>)
    requires Left(c, t) && c.live == [] && forall u | 0 <= u < |c.acts| :: Outside(c.acts[u])
    ensures Path(states, events) && states[0] == c && events != [] && events[|events| - 1] == OfGate(FinishDeinit(t))
  {
    CountZero(c.acts, USES_API);
    CountZero(c.acts, CALLING);
    CountZero(c.acts, RUNS);
    hide Count, Matched;
    var c1 := c.(life := c.life.(cancelled := true));
    var c2 := c1.(life := c1.life.(claimed := false));
    var c3 := c2.(acts := c2.acts[t := Finished]);
    assert Moves(c, OfGate(EndCancel(t)), c1);
    assert Moves(c1, OfGate(ReleaseClaim(t)), c2);
    assert Moves(c2, OfGate(FinishDeinit(t)), c3);
    states := [c, c1, c2, c3];
    events := [OfGate(EndCancel(t)), OfGate(ReleaseClaim(t)), OfGate(FinishDeinit(t))];
  }

  ghost predicate CanFinish(c: Client, t: nat) {
    exists states, events ::
      Path(states, events) && states[0] == c && events != [] && events[|events| - 1] == OfGate(FinishDeinit(t))
  }

  lemma EndsIff(c: Client, t: nat)
    requires Left(c, t)
    ensures CanFinish(c, t) <==> !Undrainable(c)
  {
    if Undrainable(c) {
      assert Wedged(c);
      if CanFinish(c, t) {
        var states, events :| Path(states, events) && states[0] == c && events != [] && events[|events| - 1] == OfGate(FinishDeinit(t));
        WedgedForEver(states, events);
      }
    } else {
      var states, events := Finishes(c, t);
    }
  }

  /** In every run, whatever the other calls are doing, a teardown of a closing client can come to its end if
      and only if not: the cancelling is over, a command is in the queue, and no process loop runs. */
  lemma TeardownEndsIff(states: seq<Client>, events: seq<Event>, slots: nat, n: nat, t: nat)
    requires Run(states, events, slots) && n < |states| && states[n].life.closing && Does(states[n], t, Deiniting)
    ensures CanFinish(states[n], t) <==> !Undrainable(states[n])
  {
    RunExact(states, events, slots, n);
    RunMatched(states, events, slots, n);
    hide Exact, Matched, Path, Run, Undrainable, CanFinish;
    EndsIff(states[n], t);
  }

  /** A teardown ends only when nothing is in progress: in every run, when it does, everything has been cancelled, no
      operation is live, nobody is inside a call, a callback or the process loop, and the claim flag is down. */
  lemma EndsOnlyWhenIdle(states: seq<Client>, events: seq<Event>, slots: nat, n: nat, t: nat)
    requires Run(states, events, slots) && n < |events| && events[n] == OfGate(FinishDeinit(t))
    ensures states[n].life.cancelled && states[n].live == [] && !states[n].life.running && !states[n].life.claimed
    ensures t < |states[n].acts| && states[n].acts[t] == Deiniting
    ensures forall u | 0 <= u < |states[n].acts| :: states[n].acts[u].Out? || states[n].acts[u].Deiniting? || states[n].acts[u].Finished?
  {
    RunExact(states, events, slots, n);
    assert Moves(states[n], events[n], states[n + 1]);
    CountZero(states[n].acts, USES_API);
    CountZero(states[n].acts, CALLING);
    assert forall u | 0 <= u < |states[n].acts| :: USES_API(states[n].acts[u]) == UsesApi(states[n].acts[u]);
    hide Count;
  }

  /** The client of the run below: two threads, one slot. */
  function Example(conn: Conn, life: Life, counts: Counts, live: seq<Live>, acts: seq<Activity>): Client {
    Client(conn, life, counts, Table([EMPTY_SLOT], 0), live, acts)
  }

  lemma ExampleCloses(idle: Conn, open: Life, cancelled: Life)
    requires idle == Conn(Initialized, 0, false, false, false, false)
    requires open == Life(false, false, false, false, false, false) && cancelled == Life(true, true, true, false, false, true)
    ensures var c1 := Example(idle, open, Counts(1, 0, 0), [], [InApi, Out]);
            var c2 := Example(idle, cancelled.(cancelled := false), Counts(1, 0, 0), [], [InApi, Deiniting]);
            var c3 := Example(idle, cancelled, Counts(1, 0, 0), [], [InApi, Deiniting]);
            && Start(1, 2) == Example(idle, open, Counts(0, 0, 0), [], [Out, Out])
            && Moves(Start(1, 2), OfGate(EnterApi(0)), c1)
            && Moves(c1, OfGate(BeginDeinit(1)), c2)
            && Moves(c2, OfGate(EndCancel(1)), c3)
  {
    assert Start(1, 2).acts == [Out, Out] && Start(1, 2).table.slots == [EMPTY_SLOT];
  }

  lemma ExampleConnects(idle: Conn, on: Conn, life: Life)
    requires idle == Conn(Initialized, 0, false, false, false, false) && on == Conn(Connecting, 1, false, false, false, false)
    ensures var c3 := Example(idle, life, Counts(1, 0, 0), [], [InApi, Deiniting]);
            var c4 := Example(on, life, Counts(1, 0, 0), [], [Beginning(1, Initialized), Deiniting]);
            var c5 := Example(on, life, Counts(1, 0, 0), [], [Opening(1), Deiniting]);
            var c6 := Example(on, life, Counts(1, 0, 1), [Live(ConnectOp(1), Unsent)], [SendingConnect(1), Deiniting]);
            var c7 := Example(on, life, Counts(1, 0, 1), [Live(ConnectOp(1), Queued)], [AwaitConnect(1), Deiniting]);
            && Moves(c3, OfLink(BeginConnect(0)), c4)
            && Moves(c4, OfLink(InstallConfig(0)), c5)
            && Moves(c5, OfWork(EnterConnect(0)), c6)
            && Moves(c6, OfWork(SendConnect(0, 0)), c7)
  {
  }

  lemma ExampleGivesUp(on: Conn, off: Conn, life: Life)
    requires on == Conn(Connecting, 1, false, false, false, false) && off == Conn(Disconnected, 2, false, false, false, false)
    ensures var queued := [Live(ConnectOp(1), Queued)];
            var c7 := Example(on, life, Counts(1, 0, 1), queued, [AwaitConnect(1), Deiniting]);
            var c8 := Example(on, life, Counts(1, 0, 1), queued, [Cancelling(1), Deiniting]);
            var c9 := Example(off, life, Counts(1, 0, 1), queued, [OutApi, Deiniting]);
            var c10 := Example(off, life, Counts(0, 0, 1), queued, [Out, Deiniting]);
            && Moves(c7, OfLink(AwaitedConnect(0)), c8)
            && Moves(c8, OfLink(CancelConnect(0)), c9)
            && Moves(c9, OfGate(LeaveApi(0)), c10)
  {
  }

  lemma WedgedRun(idle: Conn, on: Conn, off: Conn, open: Life, life: Life) returns (states: seq<Client>, events: seq<Event>)
    requires idle == Conn(Initialized, 0, false, false, false, false) && on == Conn(Connecting, 1, false, false, false, false)
    requires off == Conn(Disconnected, 2, false, false, false, false)
    requires open == Life(false, false, false, false, false, false) && life == Life(true, true, true, false, false, true)
    ensures |events| == 10 && Path(states, events) && states[0] == Start(1, 2)
    ensures states[10] == Example(off, life, Counts(0, 0, 1), [Live(ConnectOp(1), Queued)], [Out, Deiniting])
  {
    var queued := [Live(ConnectOp(1), Queued)];
    ExampleCloses(idle, open, life);
    ExampleConnects(idle, on, life);
    ExampleGivesUp(on, off, life);
    hide Moves, Example, Start, Path;
    assert Path([Start(1, 2)], []) by { PathNothing(Start(1, 2)); }
    states, events := [Start(1, 2)], [];
    states, events := Extend(states, events, OfGate(EnterApi(0)), Example(idle, open, Counts(1, 0, 0), [], [InApi, Out]));
    states, events := Extend(states, events, OfGate(BeginDeinit(1)),
                             Example(idle, life.(cancelled := false), Counts(1, 0, 0), [], [InApi, Deiniting]));
    states, events := Extend(states, events, OfGate(EndCancel(1)),
                             Example(idle, life, Counts(1, 0, 0), [], [InApi, Deiniting]));
    states, events := Extend(states, events, OfLink(BeginConnect(0)),
                             Example(on, life, Counts(1, 0, 0), [], [Beginning(1, Initialized), Deiniting]));
    states, events := Extend(states, events, OfLink(InstallConfig(0)),
                             Example(on, life, Counts(1, 0, 0), [], [Opening(1), Deiniting]));
    states, events := Extend(states, events, OfWork(EnterConnect(0)),
                             Example(on, life, Counts(1, 0, 1), [Live(ConnectOp(1), Unsent)], [SendingConnect(1), Deiniting]));
    states, events := Extend(states, events, OfWork(SendConnect(0, 0)),
                             Example(on, life, Counts(1, 0, 1), queued, [AwaitConnect(1), Deiniting]));
    states, events := Extend(states, events, OfLink(AwaitedConnect(0)),
                             Example(on, life, Counts(1, 0, 1), queued, [Cancelling(1), Deiniting]));
    states, events := Extend(states, events, OfLink(CancelConnect(0)),
                             Example(off, life, Counts(1, 0, 1), queued, [OutApi, Deiniting]));
    states, events := Extend(states, events, OfGate(LeaveApi(0)),
                             Example(off, life, Counts(0, 0, 1), queued, [Out, Deiniting]));
  }

  /** Such a client can be reached: a connect that was admitted before the close queues its command
      after the cancelling and gives up; the teardown can then never end. */
  lemma WedgedIsReachable() returns (states: seq<Client>, events: seq<Event>)
    ensures Run(states, events, 1) && Wedged(states[|events|]) && Does(states[|events|], 1, Deiniting)
    ensures !CanFinish(states[|events|], 1)
  {
    var idle, on, off := Conn(Initialized, 0, false, false, false, false), Conn(Connecting, 1, false, false, false, false),
                         Conn(Disconnected, 2, false, false, false, false);
    states, events := WedgedRun(idle, on, off, Life(false, false, false, false, false, false), Life(true, true, true, false, false, true));
    hide Moves, CanFinish;
    assert |states[0].acts| == 2;
    RunExact(states, events, 1, 10);
    var last := states[10];
    assert last.live[0].stage.Queued?;
    hide Exact;
    TeardownEndsIff(states, events, 1, 10, 1);
  }
}
