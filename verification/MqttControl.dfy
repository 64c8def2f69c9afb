/** The client context as the source keeps it: fields and a slot array updated in place. Every
    locked section is proved to be the step of `MqttClient` that models it. */
module MqttControl {
  import opened MqttTable
  import opened MqttClient

  class Control {
    var state: ConnState
    var generation: nat
    var connectDone: bool
    var connectOk: bool
    var disconnectDone: bool
    var disconnectOk: bool
    var closing: bool
    var deiniting: bool
    var stopRequested: bool
    var claimed: bool
    var running: bool
    var cancelled: bool
    var apiInFlight: nat
    var callbackInFlight: nat
    var operationInFlight: nat
    const subscriptions: Subscriptions

    constructor (slots: nat)
      ensures fresh(subscriptions) && fresh(subscriptions.slots) && Valid()
      ensures ConnView() == Conn(Initialized, 0, false, false, false, false)
      ensures LifeView() == Life(false, false, false, false, false, false) && CountsView() == Counts(0, 0, 0)
      ensures TableView() == Table(seq(slots, _ => EMPTY_SLOT), 0)
    {
      state, generation := Initialized, 0;
      connectDone, connectOk, disconnectDone, disconnectOk := false, false, false, false;
      closing, deiniting, stopRequested, claimed, running, cancelled := false, false, false, false, false, false;
      apiInFlight, callbackInFlight, operationInFlight := 0, 0, 0;
      subscriptions := new Subscriptions(slots);
    }

    ghost predicate Valid()
      reads this, subscriptions, subscriptions.slots
    {
      ValidTable(subscriptions.View())
    }

    ghost function ConnView(): Conn
      reads this
    {
      Conn(state, generation, connectDone, connectOk, disconnectDone, disconnectOk)
    }

    ghost function LifeView(): Life
      reads this
    {
      Life(closing, deiniting, stopRequested, claimed, running, cancelled)
    }

    ghost function CountsView(): Counts
      reads this
    {
      Counts(apiInFlight, callbackInFlight, operationInFlight)
    }

    ghost function TableView(): Table
      reads this, subscriptions, subscriptions.slots
    {
      subscriptions.View()
    }

    /** The context together with what only the model tracks. */
    ghost function View(live: seq<Live>, acts: seq<Activity>): Client
      reads this, subscriptions, subscriptions.slots
    {
      Client(ConnView(), LifeView(), CountsView(), TableView(), live, acts)
    }

    /** `mqtt_lifecycle_idle_locked`. */
    method IsIdle(ghost live: seq<Live>, ghost acts: seq<Activity>) returns (idle: bool)
      ensures idle == Idle(View(live, acts))
    {
      idle := apiInFlight == 0 && callbackInFlight == 0 && operationInFlight == 0 && !claimed && !running;
    }

    /** `mqtt_api_enter`. */
    method ApiEnter(ghost t: nat, ghost live: seq<Live>, ghost acts: seq<Activity>) returns (admitted: bool)
      requires t < |acts| && acts[t].Out?
      modifies this`apiInFlight
      ensures admitted == !closing
      ensures View(live, if admitted then acts[t := InApi] else acts) == GateNext(old(View(live, acts)), EnterApi(t))
    {
      if closing {
        return false;
      }
      apiInFlight := apiInFlight + 1;
      admitted := true;
    }

    /** `mqtt_api_leave`; the result says whether to signal the waiting teardown. */
    method ApiLeave(ghost t: nat, ghost live: seq<Live>, ghost acts: seq<Activity>) returns (signal: bool)
      requires t < |acts| && acts[t].OutApi?
      modifies this`apiInFlight
      ensures View(live, acts[t := Out]) == GateNext(old(View(live, acts)), LeaveApi(t))
      ensures signal == (closing && Idle(View(live, acts[t := Out])))
    {
      if apiInFlight > 0 {
        apiInFlight := apiInFlight - 1;
      }
      var idle := IsIdle(live, acts[t := Out]);
      signal := closing && idle;
    }

    /** The first section of `actrust_mqtt_deinit`. */
    method DeinitBegin(ghost t: nat, ghost live: seq<Live>, ghost acts: seq<Activity>) returns (begun: bool)
      requires t < |acts| && acts[t].Out?
      modifies this`closing, this`deiniting, this`stopRequested
      ensures old(closing) ==> closing
      ensures begun <==> callbackInFlight == 0 && !old(deiniting) && (old(closing) || (state != Connected && state != Connecting))
      ensures begun ==> closing && deiniting && stopRequested
      ensures View(live, if begun then acts[t := Deiniting] else acts) == GateNext(old(View(live, acts)), BeginDeinit(t))
    {
      if callbackInFlight > 0 || deiniting {
        return false;
      }
      if !closing && (state.Connected? || state.Connecting?) {
        return false;
      }
      if !closing {
        closing := true;
      }
      deiniting, stopRequested := true, true;
      begun := true;
    }

    /** `mqtt_begin_connect`. */
    method ConnectBegin(ghost t: nat, ghost live: seq<Live>, ghost acts: seq<Activity>)
      returns (begun: bool, previous: ConnState, token: nat)
      requires t < |acts| && acts[t].InApi?
      modifies this`state, this`generation, this`connectDone
      ensures begun <==> old(state) == Initialized || (old(state) == Disconnected && !running)
      ensures previous == old(state) && generation == old(generation) + if begun then 1 else 0
      ensures begun ==> token == generation && state == Connecting && !connectDone
      ensures !begun ==> state == old(state)
      ensures View(live, acts[t := if begun then Beginning(token, previous) else OutApi])
           == LinkNext(old(View(live, acts)), BeginConnect(t))
    {
      previous, token := state, 0;
      if !state.Initialized? && (!state.Disconnected? || running) {
        return false, previous, token;
      }
      generation := generation + 1;
      token := generation;
      state, connectDone := Connecting, false;
      begun := true;
    }

    /** `mqtt_cancel_connect_attempt`. */
    method ConnectCancel(attempt: nat, ghost t: nat, ghost live: seq<Live>, ghost acts: seq<Activity>)
      requires t < |acts| && acts[t] == Cancelling(attempt)
      modifies this`state, this`generation, this`connectDone
      ensures if old(generation) == attempt && !old(connectDone) then state == Disconnected && generation == attempt + 1
              else state == old(state) && generation == old(generation)
      ensures View(live, acts[t := OutApi]) == LinkNext(old(View(live, acts)), CancelConnect(t))
    {
      if generation == attempt && !connectDone {
        generation, connectDone, state := generation + 1, false, Disconnected;
      }
    }

    /** The locked section of `mqtt_try_schedule_connect`. */
    method RetryBegin(ghost t: nat, ghost live: seq<Live>, ghost acts: seq<Activity>) returns (attempt: nat)
      requires Valid() && t < |acts| && acts[t].Processing?
      modifies this`state, this`generation, subscriptions.slots
      ensures Valid() && state == Connecting && generation == attempt == old(generation) + 1
      ensures forall i | 0 <= i < subscriptions.slots.Length ::
                var was := old(subscriptions.slots[i]);
                subscriptions.slots[i] == match was.state {
                  case SubPending => Slot(Empty, 0, "")
                  case UnsubPending => Slot(Active, was.token, was.topic)
                  case _ => was
                }
      ensures View(live, acts[t := Reconnecting(attempt)]) == LinkNext(old(View(live, acts)), Retry(t))
    {
      SweptValid(subscriptions.View());
      generation := generation + 1;
      attempt, state := generation, Connecting;
      subscriptions.Sweep();
    }

    /** The check of `mqtt_agent_recv`. */
    method Receives(op: Op, ghost k: nat, ghost t: nat, ghost live: seq<Live>, ghost acts: seq<Activity>) returns (valid: bool)
      requires RunsAgent(View(live, acts), t) && k < |live| && live[k] == Live(op, Queued)
      modifies this`claimed
      ensures valid <==> op.generation == generation && state == (if op.ConnectOp? then Connecting else if op.DisconnectOp? then Disconnecting
                                                                  else Connected)
      ensures claimed == (old(claimed) || valid)
      ensures View(live[k := Live(op, if valid then Held else Refusal)], acts) == WorkNext(old(View(live, acts)), Receive(t, k))
    {
      valid := op.generation == generation
               && ((op.ConnectOp? && state.Connecting?)
                   || (op.DisconnectOp? && state.Disconnecting?)
                   || ((op.PublishOp? || op.SlotOp?) && state.Connected?));
      if valid {
        claimed := true;
      }
    }

    /** `mqtt_complete_connect_attempt`. */
    method CompletesConnect(attempt: nat, status: Status) returns (accepted: bool)
      modifies this`state, this`connectDone, this`connectOk
      ensures accepted == AcceptsConnect(old(ConnView()), ConnectOp(attempt))
      ensures accepted <==> generation == attempt && old(state) == Connecting
      ensures accepted ==> connectDone && connectOk == (status == Success || status == NeedMoreBytes)
                           && state == if status == Success then Connected else Disconnected
      ensures !accepted ==> state == old(state) && connectDone == old(connectDone) && connectOk == old(connectOk)
      ensures ConnView() == ConnAfter(old(ConnView()), ConnectOp(attempt), status)
    {
      accepted := generation == attempt && state.Connecting?;
      if accepted {
        connectOk, connectDone := status.Success? || status.NeedMoreBytes?, true;
        state := if status.Success? then Connected else Disconnected;
      }
    }

    method CompletesDisconnect(attempt: nat, status: Status)
      modifies this`state, this`disconnectDone, this`disconnectOk
      ensures if generation == attempt && old(state) == Disconnecting
              then disconnectDone && disconnectOk == (status == Success || status == NeedMoreBytes)
                   && state == if status == Success then Disconnected else Connected
              else state == old(state) && disconnectDone == old(disconnectDone) && disconnectOk == old(disconnectOk)
      ensures ConnView() == ConnAfter(old(ConnView()), DisconnectOp(attempt), status)
    {
      if generation == attempt && state.Disconnecting? {
        disconnectOk, disconnectDone := status.Success? || status.NeedMoreBytes?, true;
        state := if status.Success? then Disconnected else Connected;
      }
    }

    method CompletesPublish(attempt: nat, status: Status)
      modifies this`state
      ensures state == if generation == attempt && old(state) == Connected
                          && (status == SendFailed || status == RecvFailed || status == KeepAliveTimeout)
                       then WaitingReconnect else old(state)
      ensures ConnView() == ConnAfter(old(ConnView()), PublishOp(attempt), status)
    {
      if (status.SendFailed? || status.RecvFailed? || status.KeepAliveTimeout?) && generation == attempt && state.Connected? {
        state := WaitingReconnect;
      }
    }

    method CompletesSlot(op: Op, status: Status, granted: bool)
      requires Valid() && op.SlotOp? && op.token > 0
      modifies subscriptions.slots
      ensures Valid() && TableView() == TableAfter(ConnView(), old(TableView()), op, status, granted)
      ensures forall i | 0 <= i < subscriptions.slots.Length ::
                var was := old(subscriptions.slots[i]);
                subscriptions.slots[i] ==
                  if op.generation != generation || i != op.index || was.token != op.token then was
                  else if op.unsubscribe then (if status == Success then Slot(Empty, 0, "") else Slot(Active, was.token, was.topic))
                  else if status == Success && granted then Slot(Active, was.token, was.topic)
                  else Slot(Empty, 0, "")
    {
      if generation == op.generation {
        var accepted := status.Success? && (op.unsubscribe || granted);
        AnsweredValid(subscriptions.View(), op.index, op.token, op.unsubscribe, accepted);
        subscriptions.Answer(op.index, op.token, op.unsubscribe, accepted);
      }
    }

    /** The locked part of `mqtt_agent_command_complete`; the result says whether to replay. */
    method Completes(op: Op, status: Status, granted: bool, present: bool) returns (replay: bool)
      requires Valid() && (op.SlotOp? ==> op.token > 0)
      modifies this`state, this`connectDone, this`connectOk, this`disconnectDone, this`disconnectOk, subscriptions.slots
      ensures Valid()
      ensures ConnView() == ConnAfter(old(ConnView()), op, status)
      ensures TableView() == TableAfter(old(ConnView()), old(TableView()), op, status, granted)
      ensures StageAfter(old(ConnView()), op, status, present) == if replay then Replaying(At(0)) else Done
    {
      hide ValidTable, Answered;
      replay := false;
      match op
      case ConnectOp(attempt) =>
        var accepted := CompletesConnect(attempt, status);
        replay := accepted && status.Success? && !present;
      case DisconnectOp(attempt) => CompletesDisconnect(attempt, status);
      case PublishOp(attempt) => CompletesPublish(attempt, status);
      case SlotOp(_, _, _, _, _) => CompletesSlot(op, status, granted);
    }

    /** `actrust_mqtt_subscribe` and `actrust_mqtt_unsubscribe` under the lock; `queued` is what the
        command queue answers. */
    method Requests(topic: string, unsubscribe: bool, queued: bool, ghost live: seq<Live>, ghost acts: seq<Activity>)
      returns (sent: bool, ghost op: Op)
      requires Valid() && topic != ""
      modifies this`operationInFlight, subscriptions, subscriptions.slots
      ensures Valid()
      ensures View(if sent then live + [Live(op, Queued)] else live, acts)
           == Requested(old(View(live, acts)), topic, unsubscribe, queued)
    {
      op := PublishOp(0);
      if !state.Connected? {
        return false, op;
      }
      ghost var table := subscriptions.View();
      var r, token := subscriptions.ReserveSlot(topic, unsubscribe);
      if r.Refused? {
        return false, op;
      }
      ReserveValid(table, topic, unsubscribe);
      ghost var reserved := subscriptions.View();
      op := SlotOp(generation, unsubscribe, r.index, token, topic);
      operationInFlight := operationInFlight + 1;
      if !queued {
        operationInFlight := operationInFlight - 1;
        if unsubscribe { ActivatedValid(reserved, r.index); } else { ClearedValid(reserved, r.index, token); }
        subscriptions.Rollback(r.index, token, if unsubscribe then Active else Empty);
        return false, op;
      }
      sent := true;
    }

    // -------------------------------------------------------------- whole calls

    /** `actrust_mqtt_subscribe` and `actrust_mqtt_unsubscribe`, from admission to leaving. Turned away
        or not queued, they leave every topic and state, the connection and all counters as they were;
        queued, there is one operation more and its slot waits under a new token. */
    method Ask(topic: string, unsubscribe: bool, queued: bool, ghost t: nat, ghost live: seq<Live>, ghost acts: seq<Activity>)
      returns (sent: bool)
      requires Valid() && topic != "" && t < |acts| && acts[t].Out?
      modifies this`apiInFlight, this`operationInFlight, subscriptions, subscriptions.slots
      ensures Valid()
      ensures CountsView() == old(CountsView()).(operations := old(operationInFlight) + if sent then 1 else 0)
      ensures sent <==> !closing && queued && state == Connected && MayAsk(old(TableView()).slots, topic, unsubscribe)
      ensures !sent ==> SameTopics(old(TableView()), TableView())
      ensures sent ==> exists i | 0 <= i < |TableView().slots| ::
                TableView().slots[i] == Slot(if unsubscribe then UnsubPending else SubPending, old(TableView()).last + 1, topic)
    {
      AskOutcome(TableView(), topic, unsubscribe, queued);
      MayAskMeaning(TableView(), topic, unsubscribe);
      hide MayAsk, ValidTable, Reserve, AfterReserve, RolledBack, SameTopics;
      var admitted := ApiEnter(t, live, acts);
      if !admitted {
        return false;
      }
      ghost var op;
      sent, op := Requests(topic, unsubscribe, queued, live, acts[t := InApi]);
      var _ := ApiLeave(t, if sent then live + [Live(op, Queued)] else live, acts[t := OutApi]);
    }

    /** `actrust_mqtt_connect` whose answer does not come in time: the attempt is cancelled, and when
        its completion comes after all, with whatever status, it is turned away. */
    method ConnectTooLate(late: Status, ghost t: nat, ghost live: seq<Live>, ghost acts: seq<Activity>) returns (begun: bool)
      requires t < |acts| && acts[t].InApi?
      modifies this`state, this`generation, this`connectDone, this`connectOk
      ensures begun ==> state == Disconnected && !connectDone && generation == old(generation) + 2 && connectOk == old(connectOk)
      ensures !begun ==> ConnView() == old(ConnView())
    {
      var previous, attempt;
      ghost var before := View(live, acts);
      begun, previous, attempt := ConnectBegin(t, live, acts);
      assert ConnView() == LinkConn(before, BeginConnect(t));
      assert acts[t := if begun then Beginning(attempt, previous) else OutApi][t] == LinkAct(before, BeginConnect(t));
      if begun {
        ghost var waiting := View(live, acts[t := Cancelling(attempt)]);
        ConnectCancel(attempt, t, live, acts[t := Cancelling(attempt)]);
        assert ConnView() == LinkConn(waiting, CancelConnect(t));
        var accepted := CompletesConnect(attempt, late);
        assert !accepted;
      }
    }

    /** Once a teardown has begun no call is admitted again. */
    method CloseThenTry(ghost t: nat, ghost u: nat, ghost live: seq<Live>, ghost acts: seq<Activity>) returns (begun: bool, admitted: bool)
      requires t < |acts| && u < |acts| && t != u && acts[t].Out? && acts[u].Out?
      modifies this`closing, this`deiniting, this`stopRequested, this`apiInFlight
      ensures begun ==> closing && !admitted && CountsView() == old(CountsView())
      ensures old(closing) ==> closing && !admitted
    {
      begun := DeinitBegin(t, live, acts);
      admitted := ApiEnter(u, live, if begun then acts[t := Deiniting] else acts);
    }
  }

  /** A topic to unsubscribe is active; one to subscribe to is in no slot, and a slot is empty. */
  predicate MayAsk(slots: seq<Slot>, topic: string, unsubscribe: bool) {
    if unsubscribe then exists i :: 0 <= i < |slots| && slots[i].state == Active && slots[i].topic == topic
    else
      && (forall i | 0 <= i < |slots| :: slots[i].state == Empty || slots[i].topic != topic)
      && (exists i :: 0 <= i < |slots| && slots[i].state == Empty)
  }

  lemma MayAskMeaning(table: Table, topic: string, unsubscribe: bool)
    requires ValidTable(table)
    ensures Reserve(table, topic, unsubscribe).Reserved? <==> MayAsk(table.slots, topic, unsubscribe)
  {
    ReserveMeaning(table, topic, unsubscribe);
    assert forall i | 0 <= i < |table.slots| :: SlotOk(table.slots[i], table.last);
    if unsubscribe {
      assert forall i | 0 <= i < |table.slots| && table.slots[i].state == Active ::
          SlotHolds(table.slots[i], topic) <==> table.slots[i].topic == topic;
    }
  }

  /** The same topics in the same states. */
  predicate SameTopics(a: Table, b: Table) {
    && |a.slots| == |b.slots|
    && forall i | 0 <= i < |a.slots| :: a.slots[i].state == b.slots[i].state && a.slots[i].topic == b.slots[i].topic
  }

  lemma AskOutcome(table: Table, topic: string, unsubscribe: bool, queued: bool)
    requires ValidTable(table)
    ensures SameTopics(table, table)
    ensures var r := Reserve(table, topic, unsubscribe);
            r.Reserved? ==>
              var t := AfterReserve(table, r.index, topic, unsubscribe);
              && r.index < |t.slots|
              && t.slots[r.index] == Slot(if unsubscribe then UnsubPending else SubPending, table.last + 1, topic)
              && SameTopics(table, RolledBack(t, r.index, table.last + 1, if unsubscribe then Active else Empty))
  {
    var r := Reserve(table, topic, unsubscribe);
    if r.Reserved? {
      if unsubscribe { UnsubscribeRollsBack(table, r.index, true); } else { SubscribeRollsBack(table, topic); }
    }
  }
}
