/** The control plane of the MQTT client: connection generations, operations in flight, the
    subscription table, and the closing protocol, as atomic steps under the client's lock. The
    agent is an environment that may complete any operation it holds, with any status, at any
    time; `acts` are the activities of all threads. */
module MqttClient {
  import opened Counting
  import opened MqttTable

  datatype ConnState = Initialized | Connected | Connecting | Disconnected | Disconnecting | WaitingReconnect

  datatype Conn = Conn(
    state: ConnState,
    generation: nat,
    connectDone: bool,
    connectOk: bool,
    disconnectDone: bool,
    disconnectOk: bool)

  datatype Life = Life(closing: bool, deiniting: bool, stopRequested: bool, claimed: bool, running: bool, cancelled: bool)

  datatype Counts = Counts(api: nat, callbacks: nat, operations: nat)

  datatype Op =
    | ConnectOp(generation: nat)
    | DisconnectOp(generation: nat)
    | PublishOp(generation: nat)
    | SlotOp(generation: nat, unsubscribe: bool, index: nat, token: nat, topic: string)

  /** The replay loop at slot `i`: about to look at it; its command being sent; the send failed and
      the slot still to be put back. */
  datatype Cursor = At(i: nat) | Sending(i: nat, token: nat) | Undoing(i: nat, token: nat)

  /** A counted operation: being sent, in the command queue, with the agent, popped and refused,
      completed but still replaying subscriptions, completed. */
  datatype Stage = Unsent | Queued | Held | Refusal | Replaying(cursor: Cursor) | Done

  datatype Live = Live(op: Op, stage: Stage)

  datatype Activity =
    | Out
    | InApi
    | OutApi
    | Beginning(generation: nat, previous: ConnState)
    | Opening(generation: nat)
    | SendingConnect(generation: nat)
    | FailedConnect
    | AwaitConnect(generation: nat)
    | Cancelling(generation: nat)
    | AwaitDisconnect(generation: nat)
    | Aborting(generation: nat)
    | Processing
    | Reconnecting(generation: nat)
    | ReplayingAll(cursor: Cursor)
    | InCallback
    | Deiniting
    | Finished

  datatype Client = Client(
    conn: Conn,
    life: Life,
    counts: Counts,
    table: Table,
    live: seq<Live>,
    acts: seq<Activity>)

  datatype Status = Success | NeedMoreBytes | SendFailed | RecvFailed | KeepAliveTimeout | OtherFailure

  // ---------------------------------------------------------------- locked sections

  /** `mqtt_lifecycle_idle_locked`. */
  predicate Idle(c: Client) {
    && c.counts.api == 0 && c.counts.callbacks == 0 && c.counts.operations == 0
    && !c.life.claimed && !c.life.running
  }

  /** `mqtt_agent_recv`: the generation is current and the state fits the type. */
  predicate MayHandOut(conn: Conn, op: Op) {
    && op.generation == conn.generation
    && (match op
        case ConnectOp(_) => conn.state.Connecting?
        case DisconnectOp(_) => conn.state.Disconnecting?
        case _ => conn.state.Connected?)
  }

  /** `mqtt_complete_connect_attempt` accepts. */
  predicate AcceptsConnect(conn: Conn, op: Op) {
    op.ConnectOp? && op.generation == conn.generation && conn.state.Connecting?
  }

  /** What a completion does to the connection. */
  function ConnAfter(conn: Conn, op: Op, status: Status): Conn {
    match op
    case ConnectOp(generation) =>
      if !AcceptsConnect(conn, op) then conn
      else conn.(connectDone := true, connectOk := status.Success? || status.NeedMoreBytes?,
                 state := if status.Success? then Connected else Disconnected)
    case DisconnectOp(generation) =>
      if generation != conn.generation || !conn.state.Disconnecting? then conn
      else conn.(disconnectDone := true, disconnectOk := status.Success? || status.NeedMoreBytes?,
                 state := if status.Success? then Disconnected else Connected)
    case PublishOp(generation) =>
      if (status.SendFailed? || status.RecvFailed? || status.KeepAliveTimeout?)
         && generation == conn.generation && conn.state.Connected?
      then conn.(state := WaitingReconnect)
      else conn
    case SlotOp(_, _, _, _, _) => conn
  }

  /** What a completion does to the table. */
  function TableAfter(conn: Conn, table: Table, op: Op, status: Status, granted: bool): Table {
    if op.SlotOp? && op.generation == conn.generation then
      Answered(table, op.index, op.token, op.unsubscribe, status.Success? && (op.unsubscribe || granted))
    else table
  }

  function StageAfter(conn: Conn, op: Op, status: Status, present: bool): Stage {
    if AcceptsConnect(conn, op) && status.Success? && !present then Replaying(At(0)) else Done
  }

  function NewGeneration(conn: Conn, state: ConnState): Conn {
    conn.(generation := conn.generation + 1, state := state)
  }

  /** `mqtt_begin_connect`. */
  predicate MayConnect(c: Client) {
    c.conn.state.Initialized? || (c.conn.state.Disconnected? && !c.life.running)
  }

  // ---------------------------------------------------------------- steps

  /** Admission, and leaving again. */
  datatype Gate =
    | EnterApi(t: nat)
    | LeaveApi(t: nat)
    | EnterCallback(t: nat)
    | LeaveCallback(t: nat)
    | BeginProcess(t: nat)
    | EndProcess(t: nat)
    | StopProcess(t: nat)
    | Claim(t: nat, taken: bool)
    | BeginDeinit(t: nat)
    | EndCancel(t: nat)
    | ReleaseClaim(t: nat)
    | AbortDeinit(t: nat)
    | FinishDeinit(t: nat)

  /** The connection and its generations. */
  datatype Link =
    | BeginConnect(t: nat)
    | ReleaseConnect(t: nat)
    | InstallConfig(t: nat)
    | FailConnect(t: nat)
    | AwaitedConnect(t: nat)
    | CancelConnect(t: nat)
    | AwaitedDisconnect(t: nat)
    | AbortDisconnect(t: nat)
    | LoseConnection(t: nat)
    | SettleProcess(t: nat)
    | Retry(t: nat)
    | FailRetry(t: nat, linked: bool)
    | EndRetry(t: nat, present: bool)

  /** Operations, from their creation to the end of their completion. */
  datatype Work =
    | EnterConnect(t: nat)
    | SendConnect(t: nat, k: nat)
    | DropConnect(t: nat, k: nat)
    | Disconnect(t: nat, queued: bool)
    | Publish(t: nat, queued: bool)
    | Request(t: nat, topic: string, unsubscribe: bool, queued: bool)
    | Receive(t: nat, k: nat)
    | Complete(k: nat, status: Status, granted: bool, present: bool)
    | Leave(k: nat)

  /** The replay of the subscriptions, by a connect's completion or by the process loop. */
  datatype Replayer = ByCompletion(k: nat) | ByProcess(t: nat)

  datatype Replay =
    | ReplaySlot(who: Replayer)
    | ReplaySent(who: Replayer, j: nat)
    | ReplayDropped(who: Replayer, j: nat)
    | ReplayUndone(who: Replayer)

  datatype Event = OfGate(gate: Gate) | OfLink(link: Link) | OfWork(work: Work) | OfReplay(replay: Replay)

  predicate Does(c: Client, t: nat, a: Activity) {
    t < |c.acts| && c.acts[t] == a
  }

  /** The agent runs on this thread: in the process loop, or in the teardown while it cancels what
      is left, which drains the command queue through the same receive function. */
  predicate RunsAgent(c: Client, t: nat) {
    t < |c.acts| && (c.acts[t].Processing? || (c.acts[t].Deiniting? && !c.life.cancelled))
  }

  predicate GateEnabled(c: Client, e: Gate) {
    match e
    case EnterApi(t) => Does(c, t, Out)
    case LeaveApi(t) => Does(c, t, OutApi)
    case EnterCallback(t) => Does(c, t, Out)
    case LeaveCallback(t) => Does(c, t, InCallback)
    case BeginProcess(t) => Does(c, t, InApi)
    case EndProcess(t) => Does(c, t, Processing)
    case StopProcess(t) => Does(c, t, InApi)
    case Claim(t, _) => RunsAgent(c, t)
    case BeginDeinit(t) => Does(c, t, Out)
    case EndCancel(t) => Does(c, t, Deiniting)
    case ReleaseClaim(t) => Does(c, t, Deiniting)
    case AbortDeinit(t) => Does(c, t, Deiniting)
    case FinishDeinit(t) => Does(c, t, Deiniting) && c.life.cancelled && Idle(c)
  }

  function GateNext(c: Client, e: Gate): Client
    requires GateEnabled(c, e)
  {
    match e
    case EnterApi(t) =>
      if c.life.closing then c
      else c.(counts := c.counts.(api := c.counts.api + 1), acts := c.acts[t := InApi])
    case LeaveApi(t) => c.(counts := c.counts.(api := Dec(c.counts.api)), acts := c.acts[t := Out])
    case EnterCallback(t) =>
      if c.life.closing then c
      else c.(counts := c.counts.(callbacks := c.counts.callbacks + 1), acts := c.acts[t := InCallback])
    case LeaveCallback(t) => c.(counts := c.counts.(callbacks := Dec(c.counts.callbacks)), acts := c.acts[t := Out])
    case BeginProcess(t) =>
      if c.life.closing || c.life.running then c.(acts := c.acts[t := OutApi])
      else c.(life := c.life.(running := true), acts := c.acts[t := Processing])
    case EndProcess(t) => c.(life := c.life.(running := false, stopRequested := false), acts := c.acts[t := OutApi])
    case StopProcess(t) =>
      c.(life := if c.life.closing then c.life else c.life.(stopRequested := true), acts := c.acts[t := OutApi])
    case Claim(t, taken) => c.(life := c.life.(claimed := taken))
    case BeginDeinit(t) =>
      if c.counts.callbacks > 0 || c.life.deiniting
         || (!c.life.closing && (c.conn.state.Connected? || c.conn.state.Connecting?))
      then c
      else c.(life := c.life.(closing := true, deiniting := true, stopRequested := true), acts := c.acts[t := Deiniting])
    case EndCancel(t) => c.(life := c.life.(cancelled := true))
    case ReleaseClaim(t) => c.(life := c.life.(claimed := false))
    case AbortDeinit(t) => c.(life := c.life.(deiniting := false), acts := c.acts[t := Out])
    case FinishDeinit(t) => c.(acts := c.acts[t := Finished])
  }

  predicate LinkEnabled(c: Client, e: Link) {
    match e
    case BeginConnect(t) => Does(c, t, InApi)
    case ReleaseConnect(t) => t < |c.acts| && c.acts[t].Beginning?
    case InstallConfig(t) => t < |c.acts| && c.acts[t].Beginning?
    case FailConnect(t) => t < |c.acts| && (c.acts[t].Opening? || c.acts[t].FailedConnect?)
    case AwaitedConnect(t) => t < |c.acts| && c.acts[t].AwaitConnect?
    case CancelConnect(t) => t < |c.acts| && c.acts[t].Cancelling?
    case AwaitedDisconnect(t) => t < |c.acts| && c.acts[t].AwaitDisconnect?
    case AbortDisconnect(t) => t < |c.acts| && c.acts[t].Aborting?
    case LoseConnection(t) => Does(c, t, Processing)
    case SettleProcess(t) => Does(c, t, Processing)
    case Retry(t) => Does(c, t, Processing)
    case FailRetry(t, _) => t < |c.acts| && c.acts[t].Reconnecting?
    case EndRetry(t, _) => t < |c.acts| && c.acts[t].Reconnecting?
  }

  /** The connection after a step. */
  function LinkConn(c: Client, e: Link): Conn
    requires LinkEnabled(c, e)
  {
    match e
    case BeginConnect(t) => if MayConnect(c) then NewGeneration(c.conn, Connecting).(connectDone := false) else c.conn
    case ReleaseConnect(t) =>
      if c.acts[t].generation == c.conn.generation && c.conn.state.Connecting? then c.conn.(state := c.acts[t].previous)
      else c.conn
    case InstallConfig(_) => c.conn
    case FailConnect(_) => c.conn.(state := Disconnected)
    case AwaitedConnect(_) => c.conn
    case CancelConnect(t) =>
      if c.acts[t].generation == c.conn.generation && !c.conn.connectDone then NewGeneration(c.conn, Disconnected)
      else c.conn
    case AwaitedDisconnect(_) => c.conn
    case AbortDisconnect(t) =>
      if c.acts[t].generation == c.conn.generation && c.conn.state.Disconnecting? && !c.conn.disconnectDone
      then NewGeneration(c.conn, Disconnected)
      else c.conn
    case LoseConnection(_) => c.conn.(state := WaitingReconnect)
    case SettleProcess(_) => c.conn.(state := Disconnected)
    case Retry(_) => NewGeneration(c.conn, Connecting)
    case FailRetry(t, linked) =>
      if !linked && c.acts[t].generation == c.conn.generation then c.conn.(state := WaitingReconnect) else c.conn
    case EndRetry(t, _) =>
      if c.acts[t].generation == c.conn.generation && c.conn.state.Connecting? then c.conn.(state := Connected) else c.conn
  }

  /** What the activity does after a step. */
  function LinkAct(c: Client, e: Link): Activity
    requires LinkEnabled(c, e)
  {
    match e
    case BeginConnect(t) => if MayConnect(c) then Beginning(c.conn.generation + 1, c.conn.state) else OutApi
    case ReleaseConnect(_) => OutApi
    case InstallConfig(t) =>
      if c.acts[t].generation == c.conn.generation && c.conn.state.Connecting? then Opening(c.acts[t].generation)
      else c.acts[t]
    case FailConnect(_) => OutApi
    case AwaitedConnect(t) => if c.conn.connectDone && c.conn.connectOk then OutApi else Cancelling(c.acts[t].generation)
    case CancelConnect(_) => OutApi
    case AwaitedDisconnect(t) =>
      if c.conn.disconnectDone && c.conn.disconnectOk then OutApi else Aborting(c.acts[t].generation)
    case AbortDisconnect(_) => OutApi
    case LoseConnection(_) => Processing
    case SettleProcess(_) => Processing
    case Retry(_) => Reconnecting(c.conn.generation + 1)
    case FailRetry(_, _) => Processing
    case EndRetry(_, present) => if present then Processing else ReplayingAll(At(0))
  }

  function LinkNext(c: Client, e: Link): Client
    requires LinkEnabled(c, e)
  {
    c.(conn := LinkConn(c, e), table := if e.Retry? then Swept(c.table) else c.table, acts := c.acts[e.t := LinkAct(c, e)])
  }

  function Added(c: Client, op: Op, stage: Stage): Client {
    c.(counts := c.counts.(operations := c.counts.operations + 1), live := c.live + [Live(op, stage)])
  }

  function Without(live: seq<Live>, k: nat): seq<Live>
    requires k < |live|
  {
    live[..k] + live[k + 1..]
  }

  /** `mqtt_operation_leave`. */
  function Removed(c: Client, k: nat): Client
    requires k < |c.live|
  {
    c.(counts := c.counts.(operations := Dec(c.counts.operations)), live := Without(c.live, k))
  }

  function Staged(c: Client, k: nat, stage: Stage): Client
    requires k < |c.live|
  {
    c.(live := c.live[k := c.live[k].(stage := stage)])
  }

  function Acting(c: Client, t: nat, a: Activity): Client
    requires t < |c.acts|
  {
    c.(acts := c.acts[t := a])
  }

  predicate WorkEnabled(c: Client, e: Work) {
    match e
    case EnterConnect(t) => t < |c.acts| && c.acts[t].Opening?
    case SendConnect(t, k) =>
      t < |c.acts| && c.acts[t].SendingConnect? && k < |c.live| && c.live[k] == Live(ConnectOp(c.acts[t].generation), Unsent)
    case DropConnect(t, k) =>
      t < |c.acts| && c.acts[t].SendingConnect? && k < |c.live| && c.live[k] == Live(ConnectOp(c.acts[t].generation), Unsent)
    case Disconnect(t, _) => Does(c, t, InApi)
    case Publish(t, _) => Does(c, t, InApi)
    case Request(t, topic, _, _) => Does(c, t, InApi) && topic != ""
    case Receive(t, k) => RunsAgent(c, t) && k < |c.live| && c.live[k].stage.Queued?
    case Complete(k, status, _, _) =>
      k < |c.live| && (c.live[k].stage.Held? || (c.live[k].stage.Refusal? && status.RecvFailed?))
    case Leave(k) => k < |c.live| && c.live[k].stage.Done?
  }

  /** A subscribe or unsubscribe: reserve a slot, queue the command, and put the slot back when it
      could not be queued; all of it under the lock. */
  function Requested(c: Client, topic: string, unsubscribe: bool, queued: bool): Client {
    var r := Reserve(c.table, topic, unsubscribe);
    if !c.conn.state.Connected? || r.Refused? then c
    else
      var table, token := AfterReserve(c.table, r.index, topic, unsubscribe), c.table.last + 1;
      if queued then Added(c.(table := table), SlotOp(c.conn.generation, unsubscribe, r.index, token, topic), Queued)
      else c.(table := RolledBack(table, r.index, token, if unsubscribe then Active else Empty))
  }

  function WorkNext(c: Client, e: Work): Client
    requires WorkEnabled(c, e)
  {
    match e
    case EnterConnect(t) =>
      Acting(Added(c, ConnectOp(c.acts[t].generation), Unsent), t, SendingConnect(c.acts[t].generation))
    case SendConnect(t, k) => Acting(Staged(c, k, Queued), t, AwaitConnect(c.acts[t].generation))
    case DropConnect(t, k) => Acting(Removed(c, k), t, FailedConnect)
    case Disconnect(t, queued) =>
      if !c.conn.state.Connected? then Acting(c, t, OutApi)
      else if !queued then Acting(c.(conn := c.conn.(disconnectDone := false)), t, OutApi)
      else
        Acting(Added(c.(conn := c.conn.(state := Disconnecting, disconnectDone := false)),
                     DisconnectOp(c.conn.generation), Queued),
               t, AwaitDisconnect(c.conn.generation))
    case Publish(t, queued) =>
      Acting(if c.conn.state.Connected? && queued then Added(c, PublishOp(c.conn.generation), Queued) else c, t, OutApi)
    case Request(t, topic, unsubscribe, queued) => Acting(Requested(c, topic, unsubscribe, queued), t, OutApi)
    case Receive(t, k) =>
      if MayHandOut(c.conn, c.live[k].op) then Staged(c, k, Held).(life := c.life.(claimed := true))
      else Staged(c, k, Refusal)
    case Complete(k, status, granted, present) =>
      var op := c.live[k].op;
      Staged(c, k, StageAfter(c.conn, op, status, present)).(
        conn := ConnAfter(c.conn, op, status),
        table := TableAfter(c.conn, c.table, op, status, granted))
    case Leave(k) => Removed(c, k)
  }

  predicate HasCursor(c: Client, who: Replayer) {
    match who
    case ByCompletion(k) => k < |c.live| && c.live[k].stage.Replaying?
    case ByProcess(t) => t < |c.acts| && c.acts[t].ReplayingAll?
  }

  function CursorOf(c: Client, who: Replayer): Cursor
    requires HasCursor(c, who)
  {
    match who case ByCompletion(k) => c.live[k].stage.cursor case ByProcess(t) => c.acts[t].cursor
  }

  function WithCursor(c: Client, who: Replayer, cursor: Cursor): Client
    requires HasCursor(c, who)
  {
    match who
    case ByCompletion(k) => Staged(c, k, Replaying(cursor))
    case ByProcess(t) => Acting(c, t, ReplayingAll(cursor))
  }

  function EndCursor(c: Client, who: Replayer): Client
    requires HasCursor(c, who)
  {
    match who
    case ByCompletion(k) => Staged(c, k, Done)
    case ByProcess(t) => Acting(c, t, Processing)
  }

  /** The command of a replay that is being sent. */
  predicate IsSent(c: Client, who: Replayer, j: nat) {
    && HasCursor(c, who) && CursorOf(c, who).Sending?
    && j < |c.live| && c.live[j].op.SlotOp? && c.live[j].stage.Unsent?
    && c.live[j].op.index == CursorOf(c, who).i && c.live[j].op.token == CursorOf(c, who).token
  }

  predicate ReplayEnabled(c: Client, e: Replay) {
    match e
    case ReplaySlot(who) => HasCursor(c, who) && CursorOf(c, who).At?
    case ReplaySent(who, j) => IsSent(c, who, j)
    case ReplayDropped(who, j) => IsSent(c, who, j)
    case ReplayUndone(who) => HasCursor(c, who) && CursorOf(c, who).Undoing?
  }

  function ReplayNext(c: Client, e: Replay): Client
    requires ReplayEnabled(c, e)
  {
    var cursor := CursorOf(c, e.who);
    match e
    case ReplaySlot(who) =>
      if cursor.i >= |c.table.slots| then EndCursor(c, who)
      else if !c.table.slots[cursor.i].state.Active? then WithCursor(c, who, At(cursor.i + 1))
      else
        var token := c.table.last + 1;
        Added(WithCursor(c, who, Sending(cursor.i, token)).(table := Replayed(c.table, cursor.i)),
              SlotOp(c.conn.generation, false, cursor.i, token, c.table.slots[cursor.i].topic), Unsent)
    case ReplaySent(who, j) => WithCursor(Staged(c, j, Queued), who, At(cursor.i + 1))
    case ReplayDropped(who, j) => Removed(WithCursor(c, who, Undoing(cursor.i, cursor.token)), j)
    case ReplayUndone(who) =>
      WithCursor(c, who, At(cursor.i + 1)).(table := RolledBack(c.table, cursor.i, cursor.token, Active))
  }

  predicate Enabled(c: Client, e: Event) {
    match e
    case OfGate(g) => GateEnabled(c, g)
    case OfLink(l) => LinkEnabled(c, l)
    case OfWork(w) => WorkEnabled(c, w)
    case OfReplay(r) => ReplayEnabled(c, r)
  }

  function Next(c: Client, e: Event): Client
    requires Enabled(c, e)
  {
    match e
    case OfGate(g) => GateNext(c, g)
    case OfLink(l) => LinkNext(c, l)
    case OfWork(w) => WorkNext(c, w)
    case OfReplay(r) => ReplayNext(c, r)
  }
}
