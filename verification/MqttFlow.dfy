/** What the client is for: with the right answers from the agent a connect, a subscribe, an unsubscribe, a
    publish, a reconnect and a disconnect each come to the end hoped for, from every state that allows them. */
module MqttFlow {
  import opened MqttTable
  import opened MqttClient

  /** These steps, one after the other. */
  predicate Leads(c: Client, events: seq<Event>, d: Client)
    decreases |events|
  {
    if events == [] then d == c else Enabled(c, events[0]) && Leads(Next(c, events[0]), events[1..], d)
  }

  lemma LeadsNothing(c: Client)
    ensures Leads(c, [], c)
  {
  }

  lemma LeadsOne(c: Client, e: Event, c': Client, events: seq<Event>, d: Client)
    requires Enabled(c, e) && c' == Next(c, e) && Leads(c', events, d)
    ensures Leads(c, [e] + events, d)
  {
    hide Enabled, Next;
    assert ([e] + events)[1..] == events;
  }

  lemma Overwritten<T>(s: seq<T>, t: nat, p: T, q: T)
    requires t < |s|
    ensures s[t := p][t := q] == s[t := q]
  {
  }

  lemma Added1(live: seq<Live>, a: Live, b: Live)
    ensures (live + [a])[|live| := b] == live + [b]
    ensures Without(live + [a], |live|) == live
  {
    assert (live + [a])[|live| + 1..] == [];
  }

  /** An operation that is with the command queue goes to the agent, is completed and leaves. */
  function Served(u: nat, k: nat, granted: bool): seq<Event> {
    [OfWork(Receive(u, k))] + ([OfWork(Complete(k, Success, granted, true))] + ([OfWork(Leave(k))] + []))
  }

  /** What a successful completion does to the connection and the table, spelled out. */
  function Completed(c: Client, op: Op, granted: bool): Client {
    c.(conn := match op {
                 case ConnectOp(_) => c.conn.(state := Connected, connectDone := true, connectOk := true)
                 case DisconnectOp(_) => c.conn.(state := Disconnected, disconnectDone := true, disconnectOk := true)
                 case _ => c.conn
               },
       table := if op.SlotOp? && op.index < |c.table.slots| && c.table.slots[op.index].token == op.token
                then c.table.(slots := c.table.slots[op.index := if op.unsubscribe || !granted then Slot(Empty, 0, "")
                                                                 else Slot(Active, op.token, c.table.slots[op.index].topic)])
                else c.table)
  }

  function WithQueued(c: Client, op: Op): Client {
    c.(counts := c.counts.(operations := c.counts.operations + 1), live := c.live + [Live(op, Queued)])
  }

  function Delivered(c: Client, op: Op, granted: bool): Client {
    Completed(c, op, granted).(life := c.life.(claimed := true))
  }

  /** A queued operation of the current generation, in the state that fits it, is handed to a running agent, and
      its success has the effect it is for. */
  lemma ServedWell(c: Client, u: nat, op: Op, granted: bool)
    requires RunsAgent(c, u) && op.generation == c.conn.generation && (op.SlotOp? ==> op.token > 0)
    requires c.conn.state == match op { case ConnectOp(_) => Connecting case DisconnectOp(_) => Disconnecting case _ => Connected }
    ensures Leads(WithQueued(c, op), Served(u, |c.live|, granted), Delivered(c, op, granted))
  {
    hide Leads, Completed;
    var k := |c.live|;
    var many := c.counts.(operations := c.counts.operations + 1);
    var c0 := c.(counts := many, live := c.live + [Live(op, Queued)]);
    var c1 := c0.(live := c.live + [Live(op, Held)], life := c.life.(claimed := true));
    var end := Completed(c, op, granted).(life := c.life.(claimed := true));
    var c2 := end.(counts := many, live := c.live + [Live(op, Done)]);
    Added1(c.live, Live(op, Queued), Live(op, Held));
    Added1(c.live, Live(op, Held), Live(op, Done));
    Added1(c.live, Live(op, Done), Live(op, Done));
    CompletesInto(c, op, granted);
    assert Next(c0, OfWork(Receive(u, k))) == c1;
    CompleteStep(c1, c, op, granted, c2);
    assert Next(c2, OfWork(Leave(k))) == end by { CompletedKeeps(c, op, granted); }
    LeadsNothing(end);
    LeadsOne(c2, OfWork(Leave(k)), end, [], end);
    LeadsOne(c1, OfWork(Complete(k, Success, granted, true)), c2, [OfWork(Leave(k))] + [], end);
    LeadsOne(c0, OfWork(Receive(u, k)), c1, [OfWork(Complete(k, Success, granted, true))] + ([OfWork(Leave(k))] + []), end);
  }

  lemma CompletedKeeps(c: Client, op: Op, granted: bool)
    ensures var d := Completed(c, op, granted);
            d.counts == c.counts && d.live == c.live && d.acts == c.acts && d.life == c.life
  {
  }

  lemma CompletesInto(c: Client, op: Op, granted: bool)
    requires op.generation == c.conn.generation && (op.SlotOp? ==> op.token > 0)
    requires c.conn.state == match op { case ConnectOp(_) => Connecting case DisconnectOp(_) => Disconnecting case _ => Connected }
    ensures ConnAfter(c.conn, op, Success) == Completed(c, op, granted).conn
    ensures TableAfter(c.conn, c.table, op, Success, granted) == Completed(c, op, granted).table
    ensures StageAfter(c.conn, op, Success, true) == Done
  {
  }

  lemma CompleteStep(c1: Client, c: Client, op: Op, granted: bool, c2: Client)
    requires c1.live == c.live + [Live(op, Held)] && c1.conn == c.conn && c1.table == c.table && c1.acts == c.acts
    requires ConnAfter(c.conn, op, Success) == Completed(c, op, granted).conn
    requires TableAfter(c.conn, c.table, op, Success, granted) == Completed(c, op, granted).table
    requires StageAfter(c.conn, op, Success, true) == Done
    requires c2 == Completed(c, op, granted).(counts := c1.counts, life := c1.life, live := c.live + [Live(op, Done)])
    ensures Enabled(c1, OfWork(Complete(|c.live|, Success, granted, true)))
    ensures Next(c1, OfWork(Complete(|c.live|, Success, granted, true))) == c2
  {
    CompletedKeeps(c, op, granted);
    Added1(c.live, Live(op, Held), Live(op, Done));
    hide Completed, ConnAfter, TableAfter, StageAfter;
  }

  lemma {:induction false} LeadsAppend(c: Client, a: seq<Event>, d: Client, b: seq<Event>, e: Client)
    requires Leads(c, a, d) && Leads(d, b, e)
    ensures Leads(c, a + b, e)
    decreases |a|
  {
    hide Enabled, Next;
    if a == [] {
      assert a + b == b;
    } else {
      assert (a + b)[1..] == a[1..] + b;
      LeadsAppend(Next(c, a[0]), a[1..], d, b, e);
    }
  }

  // ---------------------------------------------------------------- connect

  function ConnectSteps(t: nat, u: nat, k: nat): seq<Event> {
    ([OfLink(BeginConnect(t))] + ([OfLink(InstallConfig(t))] + ([OfWork(EnterConnect(t))] + ([OfWork(SendConnect(t, k))] + []))))
    + (Served(u, k, true) + ([OfLink(AwaitedConnect(t))] + []))
  }

  lemma ConnectBegins(c: Client, t: nat, on: Conn)
    requires Does(c, t, InApi) && (c.conn.state == Initialized || (c.conn.state == Disconnected && !c.life.running))
    requires on == c.conn.(generation := c.conn.generation + 1, state := Connecting, connectDone := false)
    ensures var c1 := c.(conn := on, acts := c.acts[t := Beginning(on.generation, c.conn.state)]);
            var c2 := c.(conn := on, acts := c.acts[t := Opening(on.generation)]);
            && Enabled(c, OfLink(BeginConnect(t))) && Next(c, OfLink(BeginConnect(t))) == c1
            && Enabled(c1, OfLink(InstallConfig(t))) && Next(c1, OfLink(InstallConfig(t))) == c2
  {
    Overwritten(c.acts, t, Beginning(on.generation, c.conn.state), Opening(on.generation));
  }

  lemma ConnectIsSent(c: Client, t: nat, on: Conn)
    requires t < |c.acts| && on.generation > 0
    ensures var g, k, many := on.generation, |c.live|, c.counts.(operations := c.counts.operations + 1);
            var c2 := c.(conn := on, acts := c.acts[t := Opening(g)]);
            var c3 := c.(conn := on, acts := c.acts[t := SendingConnect(g)], counts := many, live := c.live + [Live(ConnectOp(g), Unsent)]);
            var c4 := WithQueued(c.(conn := on, acts := c.acts[t := AwaitConnect(g)]), ConnectOp(g));
            && Enabled(c2, OfWork(EnterConnect(t))) && Next(c2, OfWork(EnterConnect(t))) == c3
            && Enabled(c3, OfWork(SendConnect(t, k))) && Next(c3, OfWork(SendConnect(t, k))) == c4
  {
    var g := on.generation;
    Overwritten(c.acts, t, Opening(g), SendingConnect(g));
    Overwritten(c.acts, t, SendingConnect(g), AwaitConnect(g));
    Added1(c.live, Live(ConnectOp(g), Unsent), Live(ConnectOp(g), Queued));
  }

  lemma ConnectQueued(c: Client, t: nat, u: nat)
    requires Does(c, t, InApi) && Does(c, u, Processing)
    requires c.conn.state == Initialized || (c.conn.state == Disconnected && !c.life.running)
    ensures var g := c.conn.generation + 1;
            Leads(c, [OfLink(BeginConnect(t))] + ([OfLink(InstallConfig(t))] + ([OfWork(EnterConnect(t))] + ([OfWork(SendConnect(t, |c.live|))] + []))),
                  WithQueued(c.(conn := c.conn.(generation := g, state := Connecting, connectDone := false),
                                acts := c.acts[t := AwaitConnect(g)]),
                             ConnectOp(g)))
  {
    hide Leads, Enabled, Next, WithQueued;
    var g, k := c.conn.generation + 1, |c.live|;
    var on := c.conn.(generation := g, state := Connecting, connectDone := false);
    var many := c.counts.(operations := c.counts.operations + 1);
    var c1 := c.(conn := on, acts := c.acts[t := Beginning(g, c.conn.state)]);
    var c2 := c.(conn := on, acts := c.acts[t := Opening(g)]);
    var c3 := c.(conn := on, acts := c.acts[t := SendingConnect(g)], counts := many, live := c.live + [Live(ConnectOp(g), Unsent)]);
    var c4 := WithQueued(c.(conn := on, acts := c.acts[t := AwaitConnect(g)]), ConnectOp(g));
    ConnectBegins(c, t, on);
    ConnectIsSent(c, t, on);
    LeadsNothing(c4);
    LeadsOne(c3, OfWork(SendConnect(t, k)), c4, [], c4);
    LeadsOne(c2, OfWork(EnterConnect(t)), c3, [OfWork(SendConnect(t, k))] + [], c4);
    LeadsOne(c1, OfLink(InstallConfig(t)), c2, [OfWork(EnterConnect(t))] + ([OfWork(SendConnect(t, k))] + []), c4);
    LeadsOne(c, OfLink(BeginConnect(t)), c1, [OfLink(InstallConfig(t))] + ([OfWork(EnterConnect(t))] + ([OfWork(SendConnect(t, k))] + [])), c4);
  }

  lemma ConnectAnswered(c: Client, t: nat, g: nat)
    requires t < |c.acts|
    ensures var waiting := c.(conn := c.conn.(generation := g, state := Connecting, connectDone := false), acts := c.acts[t := AwaitConnect(g)]);
            var served := Delivered(waiting, ConnectOp(g), true);
            && Enabled(served, OfLink(AwaitedConnect(t)))
            && Next(served, OfLink(AwaitedConnect(t)))
               == c.(conn := c.conn.(generation := g, state := Connected, connectDone := true, connectOk := true),
                     life := c.life.(claimed := true), acts := c.acts[t := OutApi])
  {
    Overwritten(c.acts, t, AwaitConnect(g), OutApi);
  }

  /** A connect of a client that has never been connected, with a process loop on another thread: the steps are
      enabled one after the other and end CONNECTED, in a new generation, with a successful result and nothing
      left in flight. */
  lemma ConnectConnects(c: Client, t: nat, u: nat)
    requires Does(c, t, InApi) && Does(c, u, Processing) && c.conn.state == Initialized
    ensures Leads(c, ConnectSteps(t, u, |c.live|),
                  c.(conn := c.conn.(generation := c.conn.generation + 1, state := Connected, connectDone := true, connectOk := true),
                     life := c.life.(claimed := true), acts := c.acts[t := OutApi]))
  {
    var g, k := c.conn.generation + 1, |c.live|;
    var waiting := c.(conn := c.conn.(generation := g, state := Connecting, connectDone := false), acts := c.acts[t := AwaitConnect(g)]);
    var op := ConnectOp(g);
    ConnectAnswered(c, t, g);
    ConnectQueued(c, t, u);
    assert RunsAgent(waiting, u);
    hide Leads, Served, Enabled, Next, WithQueued, Delivered, RunsAgent;
    var served := Delivered(waiting, op, true);
    var end := Next(served, OfLink(AwaitedConnect(t)));
    ServedWell(waiting, u, op, true);
    LeadsNothing(end);
    LeadsOne(served, OfLink(AwaitedConnect(t)), end, [], end);
    LeadsAppend(WithQueued(waiting, op), Served(u, k, true), served, [OfLink(AwaitedConnect(t))] + [], end);
    LeadsAppend(c, [OfLink(BeginConnect(t))] + ([OfLink(InstallConfig(t))] + ([OfWork(EnterConnect(t))] + ([OfWork(SendConnect(t, k))] + []))),
                WithQueued(waiting, op), Served(u, k, true) + ([OfLink(AwaitedConnect(t))] + []), end);
  }

  // ---------------------------------------------------------------- subscribe, unsubscribe, publish

  /** The slot `i` of the table is this, and the others are as before. */
  predicate SlotNow(a: Table, b: Table, i: nat, slot: Slot) {
    i < |a.slots| && b == Table(a.slots[i := slot], a.last + 1)
  }

  /** A subscribe to a topic that is in no slot, with a slot empty, ends with the topic active in one slot under a
      new token; an unsubscribe of an active topic ends with its slot empty. Nothing else has changed. */
  lemma RequestIsGranted(c: Client, t: nat, u: nat, topic: string, unsubscribe: bool) returns (i: nat, d: Client)
    requires Does(c, t, InApi) && Does(c, u, Processing) && c.conn.state == Connected && topic != "" && ValidTable(c.table)
    requires if unsubscribe then exists j :: 0 <= j < |c.table.slots| && c.table.slots[j].state == Active && c.table.slots[j].topic == topic
             else (forall j | 0 <= j < |c.table.slots| :: c.table.slots[j].state == Empty || c.table.slots[j].topic != topic)
                  && exists j :: 0 <= j < |c.table.slots| && c.table.slots[j].state == Empty
    ensures Leads(c, [OfWork(Request(t, topic, unsubscribe, true))] + Served(u, |c.live|, true), d)
    ensures i < |c.table.slots| && (if unsubscribe then c.table.slots[i].state == Active && c.table.slots[i].topic == topic
                                    else c.table.slots[i].state == Empty)
    ensures SlotNow(c.table, d.table, i, if unsubscribe then Slot(Empty, 0, "") else Slot(Active, c.table.last + 1, topic))
    ensures d == c.(table := d.table, life := c.life.(claimed := true), acts := c.acts[t := OutApi])
  {
    hide ValidTable, Completed, Leads, Served;
    var r := Reserve(c.table, topic, unsubscribe);
    ReservedWell(c.table, topic, unsubscribe);
    i := r.index;
    var token := c.table.last + 1;
    var op := SlotOp(c.conn.generation, unsubscribe, i, token, topic);
    var table := AfterReserve(c.table, i, topic, unsubscribe);
    var asked := c.(table := table, acts := c.acts[t := OutApi]);
    var queued := asked.(counts := c.counts.(operations := c.counts.operations + 1), live := c.live + [Live(op, Queued)]);
    d := Completed(asked, op, true).(life := c.life.(claimed := true));
    RequestQueued(c, t, topic, unsubscribe, op);
    RequestAnswered(c.table, asked, op, i, topic, unsubscribe);
    hide Leads, Served, Enabled, Next, Completed, Reserve, AfterReserve, SlotNow;
    assert RunsAgent(asked, u);
    ServedWell(asked, u, op, true);
    CompletedKeeps(asked, op, true);
    LeadsOne(c, OfWork(Request(t, topic, unsubscribe, true)), queued, Served(u, |c.live|, true), d);
  }

  lemma RequestQueued(c: Client, t: nat, topic: string, unsubscribe: bool, op: Op)
    requires Does(c, t, InApi) && c.conn.state == Connected && topic != "" && Reserve(c.table, topic, unsubscribe).Reserved?
    requires op == SlotOp(c.conn.generation, unsubscribe, Reserve(c.table, topic, unsubscribe).index, c.table.last + 1, topic)
    ensures Enabled(c, OfWork(Request(t, topic, unsubscribe, true)))
    ensures Next(c, OfWork(Request(t, topic, unsubscribe, true)))
         == c.(table := AfterReserve(c.table, op.index, topic, unsubscribe), acts := c.acts[t := OutApi],
               counts := c.counts.(operations := c.counts.operations + 1), live := c.live + [Live(op, Queued)])
  {
    hide Reserve, AfterReserve;
  }

  lemma RequestAnswered(table: Table, asked: Client, op: Op, i: nat, topic: string, unsubscribe: bool)
    requires i < |table.slots| && asked.table == AfterReserve(table, i, topic, unsubscribe)
    requires op == SlotOp(asked.conn.generation, unsubscribe, i, table.last + 1, topic)
    ensures SlotNow(table, Completed(asked, op, true).table, i, if unsubscribe then Slot(Empty, 0, "") else Slot(Active, table.last + 1, topic))
    ensures Completed(asked, op, true).conn == asked.conn
  {
    Overwritten(table.slots, i, asked.table.slots[i], if unsubscribe then Slot(Empty, 0, "") else Slot(Active, table.last + 1, topic));
  }

  lemma ReservedWell(table: Table, topic: string, unsubscribe: bool)
    requires ValidTable(table)
    requires if unsubscribe then exists j :: 0 <= j < |table.slots| && table.slots[j].state == Active && table.slots[j].topic == topic
             else (forall j | 0 <= j < |table.slots| :: table.slots[j].state == Empty || table.slots[j].topic != topic)
                  && exists j :: 0 <= j < |table.slots| && table.slots[j].state == Empty
    ensures var r := Reserve(table, topic, unsubscribe);
            && r.Reserved?
            && if unsubscribe then table.slots[r.index].state == Active && table.slots[r.index].topic == topic
               else table.slots[r.index].state == Empty
  {
    assert forall j | 0 <= j < |table.slots| :: SlotOk(table.slots[j], table.last);
    ReserveMeaning(table, topic, unsubscribe);
    if unsubscribe {
      var j :| 0 <= j < |table.slots| && table.slots[j].state == Active && table.slots[j].topic == topic;
      assert SlotHolds(table.slots[j], topic) && table.slots[j].state.Active?;
    } else {
      var j :| 0 <= j < |table.slots| && table.slots[j].state == Empty;
      assert table.slots[j] == EMPTY_SLOT;
      assert !HasTopic(table, topic);
    }
  }

  lemma PublishQueued(c: Client, t: nat)
    requires Does(c, t, InApi) && c.conn.state == Connected
    ensures var op, asked := PublishOp(c.conn.generation), c.(acts := c.acts[t := OutApi]);
            && Enabled(c, OfWork(Publish(t, true))) && Next(c, OfWork(Publish(t, true))) == WithQueued(asked, op)
            && Delivered(asked, op, true) == c.(life := c.life.(claimed := true), acts := c.acts[t := OutApi])
  {
  }

  /** A publish on a connected client ends with the connection and the table as they were. */
  lemma PublishIsDelivered(c: Client, t: nat, u: nat)
    requires Does(c, t, InApi) && Does(c, u, Processing) && c.conn.state == Connected
    ensures Leads(c, [OfWork(Publish(t, true))] + Served(u, |c.live|, true),
                  c.(life := c.life.(claimed := true), acts := c.acts[t := OutApi]))
  {
    var op := PublishOp(c.conn.generation);
    var asked := c.(acts := c.acts[t := OutApi]);
    PublishQueued(c, t);
    assert RunsAgent(asked, u);
    hide Leads, Served, Enabled, Next, WithQueued, Delivered, RunsAgent;
    ServedWell(asked, u, op, true);
    LeadsOne(c, OfWork(Publish(t, true)), WithQueued(asked, op), Served(u, |c.live|, true), Delivered(asked, op, true));
  }

  // ---------------------------------------------------------------- disconnect and reconnect

  lemma DisconnectQueued(c: Client, t: nat)
    requires Does(c, t, InApi) && c.conn.state == Connected
    ensures var waiting := c.(conn := c.conn.(state := Disconnecting, disconnectDone := false), acts := c.acts[t := AwaitDisconnect(c.conn.generation)]);
            && Enabled(c, OfWork(Disconnect(t, true)))
            && Next(c, OfWork(Disconnect(t, true))) == WithQueued(waiting, DisconnectOp(c.conn.generation))
  {
  }

  lemma DisconnectAnswered(c: Client, t: nat, g: nat)
    requires t < |c.acts| && g == c.conn.generation
    ensures var waiting := c.(conn := c.conn.(state := Disconnecting, disconnectDone := false), acts := c.acts[t := AwaitDisconnect(g)]);
            var served := Delivered(waiting, DisconnectOp(g), true);
            && Enabled(served, OfLink(AwaitedDisconnect(t)))
            && Next(served, OfLink(AwaitedDisconnect(t)))
               == c.(conn := c.conn.(state := Disconnected, disconnectDone := true, disconnectOk := true),
                     life := c.life.(claimed := true), acts := c.acts[t := OutApi])
  {
    Overwritten(c.acts, t, AwaitDisconnect(g), OutApi);
  }

  /** A disconnect of a connected client ends DISCONNECTED with a successful result. */
  lemma DisconnectDisconnects(c: Client, t: nat, u: nat)
    requires Does(c, t, InApi) && Does(c, u, Processing) && c.conn.state == Connected
    ensures Leads(c, [OfWork(Disconnect(t, true))] + (Served(u, |c.live|, true) + ([OfLink(AwaitedDisconnect(t))] + [])),
                  c.(conn := c.conn.(state := Disconnected, disconnectDone := true, disconnectOk := true),
                     life := c.life.(claimed := true), acts := c.acts[t := OutApi]))
  {
    var g, k := c.conn.generation, |c.live|;
    var waiting := c.(conn := c.conn.(state := Disconnecting, disconnectDone := false), acts := c.acts[t := AwaitDisconnect(g)]);
    var op := DisconnectOp(g);
    DisconnectAnswered(c, t, g);
    DisconnectQueued(c, t);
    assert RunsAgent(waiting, u);
    hide Leads, Served, Enabled, Next, WithQueued, Delivered, RunsAgent;
    var served := Delivered(waiting, op, true);
    var end := Next(served, OfLink(AwaitedDisconnect(t)));
    ServedWell(waiting, u, op, true);
    LeadsNothing(end);
    LeadsOne(served, OfLink(AwaitedDisconnect(t)), end, [], end);
    LeadsAppend(WithQueued(waiting, op), Served(u, k, true), served, [OfLink(AwaitedDisconnect(t))] + [], end);
    LeadsOne(c, OfWork(Disconnect(t, true)), WithQueued(waiting, op), Served(u, k, true) + ([OfLink(AwaitedDisconnect(t))] + []), end);
  }

  lemma RetryStarts(c: Client, u: nat)
    requires Does(c, u, Processing)
    ensures Enabled(c, OfLink(Retry(u)))
    ensures Next(c, OfLink(Retry(u)))
         == c.(conn := c.conn.(generation := c.conn.generation + 1, state := Connecting), table := Swept(c.table),
               acts := c.acts[u := Reconnecting(c.conn.generation + 1)])
  {
    hide Swept;
  }

  lemma RetryEnds(c: Client, u: nat, present: bool)
    requires Does(c, u, Reconnecting(c.conn.generation)) && c.conn.state == Connecting
    ensures Enabled(c, OfLink(EndRetry(u, present)))
    ensures Next(c, OfLink(EndRetry(u, present)))
         == c.(conn := c.conn.(state := Connected), acts := c.acts[u := if present then Processing else ReplayingAll(At(0))])
  {
    hide Swept;
  }

  /** A process loop that has lost the connection and gets it back ends CONNECTED in a new generation: with a session
      present every unanswered subscribe is given up and every unanswered unsubscribe active again; without one it
      goes on to replay. */
  lemma ReconnectReconnects(c: Client, u: nat, present: bool)
    requires Does(c, u, Processing)
    ensures Leads(c, [OfLink(Retry(u))] + ([OfLink(EndRetry(u, present))] + []),
                  c.(conn := c.conn.(generation := c.conn.generation + 1, state := Connected), table := Swept(c.table),
                     acts := if present then c.acts else c.acts[u := ReplayingAll(At(0))]))
    ensures |Swept(c.table).slots| == |c.table.slots|
    ensures forall i | 0 <= i < |c.table.slots| ::
              Swept(c.table).slots[i] == match c.table.slots[i].state {
                case SubPending => Slot(Empty, 0, "")
                case UnsubPending => Slot(Active, c.table.slots[i].token, c.table.slots[i].topic)
                case _ => c.table.slots[i]
              }
  {
    var g := c.conn.generation + 1;
    var c1 := c.(conn := c.conn.(generation := g, state := Connecting), table := Swept(c.table), acts := c.acts[u := Reconnecting(g)]);
    var d := c.(conn := c.conn.(generation := g, state := Connected), table := Swept(c.table),
                acts := if present then c.acts else c.acts[u := ReplayingAll(At(0))]);
    Overwritten(c.acts, u, Reconnecting(g), if present then Processing else ReplayingAll(At(0)));
    assert present ==> c.acts[u := Processing] == c.acts;
    RetryStarts(c, u);
    RetryEnds(c1, u, present);
    assert forall i | 0 <= i < |c.table.slots| :: Swept(c.table).slots[i] == SweptSlot(c.table.slots[i]);
    hide Leads, Swept, Enabled, Next;
    LeadsNothing(d);
    LeadsOne(c1, OfLink(EndRetry(u, present)), d, [], d);
    LeadsOne(c, OfLink(Retry(u)), c1, [OfLink(EndRetry(u, present))] + [], d);
  }

  // ---------------------------------------------------------------- each step on its own

  /** Admission and leaving. An open client takes every call and callback, and one process loop at a time; a closing
      one takes none. A process loop that ends takes back what asked it to stop. */
  lemma GateOutcomes(c: Client, e: Gate)
    requires GateEnabled(c, e)
    ensures var d := GateNext(c, e);
            match e
            case EnterApi(t) =>
              d == if c.life.closing then c else c.(counts := c.counts.(api := c.counts.api + 1), acts := c.acts[t := InApi])
            case EnterCallback(t) =>
              d == if c.life.closing then c else c.(counts := c.counts.(callbacks := c.counts.callbacks + 1), acts := c.acts[t := InCallback])
            case BeginProcess(t) =>
              d == if !c.life.closing && !c.life.running then c.(life := c.life.(running := true), acts := c.acts[t := Processing])
                   else c.(acts := c.acts[t := OutApi])
            case EndProcess(t) => d == c.(life := c.life.(running := false, stopRequested := false), acts := c.acts[t := OutApi])
            case StopProcess(t) =>
              d == c.(life := c.life.(stopRequested := c.life.stopRequested || !c.life.closing), acts := c.acts[t := OutApi])
            case AbortDeinit(t) => d == c.(life := c.life.(deiniting := false), acts := c.acts[t := Out]) && d.life.closing == c.life.closing
            case FinishDeinit(t) => d == c.(acts := c.acts[t := Finished])
            case _ => d.conn == c.conn && d.table == c.table && d.live == c.live
  {
    hide Idle;
  }

  /** Where a call that does not go well leaves the connection: released before its configuration is in place, as it
      was found, if nobody has come in between; failed, DISCONNECTED; and a connect or disconnect returns a success
      only if its answer is there and good. */
  lemma CallOutcomes(c: Client, t: nat)
    requires t < |c.acts|
    ensures c.acts[t].Beginning? ==>
              var current := c.acts[t].generation == c.conn.generation && c.conn.state == Connecting;
              && Enabled(c, OfLink(ReleaseConnect(t))) && Enabled(c, OfLink(InstallConfig(t)))
              && Next(c, OfLink(ReleaseConnect(t)))
                 == c.(conn := if current then c.conn.(state := c.acts[t].previous) else c.conn, acts := c.acts[t := OutApi])
              && Next(c, OfLink(InstallConfig(t)))
                 == if current then c.(acts := c.acts[t := Opening(c.acts[t].generation)]) else c.(acts := c.acts[t := c.acts[t]])
    ensures c.acts[t].Opening? || c.acts[t].FailedConnect? ==>
              && Enabled(c, OfLink(FailConnect(t)))
              && Next(c, OfLink(FailConnect(t))) == c.(conn := c.conn.(state := Disconnected), acts := c.acts[t := OutApi])
    ensures c.acts[t].AwaitConnect? ==>
              && Enabled(c, OfLink(AwaitedConnect(t)))
              && Next(c, OfLink(AwaitedConnect(t)))
                 == c.(acts := c.acts[t := if c.conn.connectDone && c.conn.connectOk then OutApi else Cancelling(c.acts[t].generation)])
    ensures c.acts[t].AwaitDisconnect? ==>
              && Enabled(c, OfLink(AwaitedDisconnect(t)))
              && Next(c, OfLink(AwaitedDisconnect(t)))
                 == c.(acts := c.acts[t := if c.conn.disconnectDone && c.conn.disconnectOk then OutApi else Aborting(c.acts[t].generation)])
  {
  }

  /** What the process loop does to the connection: it loses it, settles it, or fails to get it back; and an attempt
      that has come back connects only if nobody has started another generation meanwhile. */
  lemma LoopOutcomes(c: Client, t: nat, linked: bool, present: bool)
    requires t < |c.acts|
    ensures c.acts[t].Processing? ==>
              && Enabled(c, OfLink(LoseConnection(t))) && Enabled(c, OfLink(SettleProcess(t)))
              && Next(c, OfLink(LoseConnection(t))) == c.(conn := c.conn.(state := WaitingReconnect))
              && Next(c, OfLink(SettleProcess(t))) == c.(conn := c.conn.(state := Disconnected))
    ensures c.acts[t].Reconnecting? ==>
              var current := c.acts[t].generation == c.conn.generation;
              && Enabled(c, OfLink(FailRetry(t, linked))) && Enabled(c, OfLink(EndRetry(t, present)))
              && Next(c, OfLink(FailRetry(t, linked)))
                 == c.(conn := if current && !linked then c.conn.(state := WaitingReconnect) else c.conn, acts := c.acts[t := Processing])
              && Next(c, OfLink(EndRetry(t, present))).conn
                 == if current && c.conn.state == Connecting then c.conn.(state := Connected) else c.conn
  {
    assert c.acts[t := c.acts[t]] == c.acts;
    hide Swept;
  }

  /** A completion replays the subscriptions exactly when it is a successful connect that counts and the agent has no
      session. */
  lemma ReplayStarts(c: Client, k: nat, status: Status, granted: bool, present: bool)
    requires WorkEnabled(c, Complete(k, status, granted, present))
    ensures WorkNext(c, Complete(k, status, granted, present)).live[k].stage
         == if c.live[k].op == ConnectOp(c.conn.generation) && c.conn.state == Connecting && status == Success && !present
            then Replaying(At(0)) else Done
  {
    hide TableAfter, ConnAfter;
  }

  /** An operation that the receive has turned away comes back failed, whatever the agent makes of it, and its
      completion neither connects nor makes a subscription active. */
  lemma RefusedOnlyFails(c: Client, k: nat, status: Status, granted: bool, present: bool)
    requires WorkEnabled(c, Complete(k, status, granted, present)) && c.live[k].stage == Refusal
    ensures status == RecvFailed
    ensures var d, op := WorkNext(c, Complete(k, status, granted, present)), c.live[k].op;
            && d.live[k].stage == Done
            && (d.conn.state == Connected ==> c.conn.state == Connected || op.DisconnectOp?)
            && forall i | 0 <= i < |c.table.slots| && i < |d.table.slots| ::
                 d.table.slots[i].state == Active && c.table.slots[i].state != Active ==> op.SlotOp? && op.unsubscribe
  {
  }
}
