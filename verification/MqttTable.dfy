/** The table of subscription slots and their tokens. */
module MqttTable {

  datatype SlotState = Empty | SubPending | Active | UnsubPending

  datatype Slot = Slot(state: SlotState, token: nat, topic: string)

  const EMPTY_SLOT := Slot(Empty, 0, "")

  /** The slots and the last token given out. */
  datatype Table = Table(slots: seq<Slot>, last: nat)

  datatype TableError = Already | NoRoom | UnsubscribeFailed

  datatype Reservation = Refused(error: TableError) | Reserved(index: nat)

  // ---------------------------------------------------------------- invariant

  predicate Taken(slot: Slot) {
    !slot.state.Empty?
  }

  predicate SlotOk(slot: Slot, last: nat) {
    if Taken(slot) then 0 < slot.token <= last && slot.topic != "" else slot == EMPTY_SLOT
  }

  predicate Apart(a: Slot, b: Slot) {
    Taken(a) && Taken(b) ==> a.topic != b.topic && a.token != b.token
  }

  /** Empty slots are zeroed; the others have a topic and a token of their own. */
  predicate ValidTable(t: Table) {
    && (forall i | 0 <= i < |t.slots| :: SlotOk(t.slots[i], t.last))
    && (forall i, j | 0 <= i < |t.slots| && 0 <= j < |t.slots| && i != j :: Apart(t.slots[i], t.slots[j]))
  }

  predicate HasTopic(t: Table, topic: string) {
    exists i | 0 <= i < |t.slots| :: SlotHolds(t.slots[i], topic)
  }

  predicate SlotHolds(slot: Slot, topic: string) {
    Taken(slot) && slot.topic == topic
  }

  // ---------------------------------------------------------------- operations

  function FindTopic(slots: seq<Slot>, topic: string, from: nat): (i: nat)
    requires from <= |slots|
    ensures from <= i <= |slots|
    ensures forall j | from <= j < i :: !SlotHolds(slots[j], topic)
    ensures i < |slots| ==> SlotHolds(slots[i], topic)
    decreases |slots| - from
  {
    if from == |slots| || SlotHolds(slots[from], topic) then from else FindTopic(slots, topic, from + 1)
  }

  function FindEmpty(slots: seq<Slot>, from: nat): (i: nat)
    requires from <= |slots|
    ensures from <= i <= |slots|
    ensures forall j | from <= j < i :: Taken(slots[j])
    ensures i < |slots| ==> !Taken(slots[i])
    decreases |slots| - from
  {
    if from == |slots| || !Taken(slots[from]) then from else FindEmpty(slots, from + 1)
  }

  /** What `mqtt_subscription_reserve_locked` decides. */
  function Reserve(t: Table, topic: string, unsubscribe: bool): (r: Reservation)
    ensures r.Reserved? ==> r.index < |t.slots|
  {
    var found := FindTopic(t.slots, topic, 0);
    var free := FindEmpty(t.slots, 0);
    if unsubscribe then
      if found == |t.slots| || !t.slots[found].state.Active? then Refused(UnsubscribeFailed) else Reserved(found)
    else if found < |t.slots| then Refused(Already)
    else if free == |t.slots| then Refused(NoRoom)
    else Reserved(free)
  }

  /** The table after a reservation, with its new token. */
  function AfterReserve(t: Table, index: nat, topic: string, unsubscribe: bool): Table
    requires index < |t.slots|
  {
    var token := t.last + 1;
    var slot := t.slots[index];
    Table(t.slots[index := if unsubscribe then Slot(UnsubPending, token, slot.topic) else Slot(SubPending, token, topic)],
          token)
  }

  /** `mqtt_subscription_clear_locked`. */
  function Cleared(t: Table, index: nat, token: nat): Table {
    if index < |t.slots| && t.slots[index].token == token then t.(slots := t.slots[index := EMPTY_SLOT]) else t
  }

  /** `mqtt_subscription_rollback_locked`. */
  function RolledBack(t: Table, index: nat, token: nat, state: SlotState): Table {
    if index < |t.slots| && t.slots[index].token == token then
      if state.Empty? then Cleared(t, index, token)
      else t.(slots := t.slots[index := t.slots[index].(state := state)])
    else t
  }

  /** What an answered subscribe or unsubscribe does to its slot. */
  function Answered(t: Table, index: nat, token: nat, unsubscribe: bool, accepted: bool): Table {
    if index < |t.slots| && t.slots[index].token == token then
      if unsubscribe == accepted then Cleared(t, index, token)
      else t.(slots := t.slots[index := t.slots[index].(state := Active)])
    else t
  }

  function SweptSlot(slot: Slot): Slot {
    match slot.state
    case SubPending => EMPTY_SLOT
    case UnsubPending => slot.(state := Active)
    case _ => slot
  }

  /** A reconnect gives up every unanswered request. */
  function Swept(t: Table): Table {
    t.(slots := seq(|t.slots|, i requires 0 <= i < |t.slots| => SweptSlot(t.slots[i])))
  }

  /** The replay of one active slot. */
  function Replayed(t: Table, index: nat): Table
    requires index < |t.slots|
  {
    Table(t.slots[index := Slot(SubPending, t.last + 1, t.slots[index].topic)], t.last + 1)
  }

  // ---------------------------------------------------------------- what they keep

  /** Replacing one slot keeps the table valid when the new slot is in order and differs from the
      others. */
  lemma UpdateValid(t: Table, index: nat, slot: Slot, last: nat)
    requires ValidTable(t) && index < |t.slots| && t.last <= last && SlotOk(slot, last)
    requires forall j | 0 <= j < |t.slots| && j != index :: Apart(slot, t.slots[j])
    ensures ValidTable(Table(t.slots[index := slot], last))
  {
    var u := Table(t.slots[index := slot], last);
    forall i, j | 0 <= i < |u.slots| && 0 <= j < |u.slots| && i != j
      ensures Apart(u.slots[i], u.slots[j])
    {
      assert Apart(t.slots[i], t.slots[j]);
      if i == index { assert Apart(slot, t.slots[j]); }
      if j == index { assert Apart(slot, t.slots[i]); }
    }
  }

  lemma ReserveValid(t: Table, topic: string, unsubscribe: bool)
    requires ValidTable(t) && topic != "" && Reserve(t, topic, unsubscribe).Reserved?
    ensures ValidTable(AfterReserve(t, Reserve(t, topic, unsubscribe).index, topic, unsubscribe))
  {
    var index := Reserve(t, topic, unsubscribe).index;
    var slot := AfterReserve(t, index, topic, unsubscribe).slots[index];
    assert SlotOk(t.slots[index], t.last);
    forall j | 0 <= j < |t.slots| && j != index
      ensures Apart(slot, t.slots[j])
    {
      assert SlotOk(t.slots[j], t.last) && Apart(t.slots[index], t.slots[j]);
    }
    UpdateValid(t, index, slot, t.last + 1);
  }

  lemma ClearedValid(t: Table, index: nat, token: nat)
    requires ValidTable(t)
    ensures ValidTable(Cleared(t, index, token))
  {
    if index < |t.slots| && t.slots[index].token == token { UpdateValid(t, index, EMPTY_SLOT, t.last); }
  }

  lemma ActivatedValid(t: Table, index: nat)
    requires ValidTable(t) && index < |t.slots| && Taken(t.slots[index])
    ensures ValidTable(t.(slots := t.slots[index := t.slots[index].(state := Active)]))
  {
    assert SlotOk(t.slots[index], t.last);
    forall j | 0 <= j < |t.slots| && j != index
      ensures Apart(t.slots[index].(state := Active), t.slots[j])
    {
      assert Apart(t.slots[index], t.slots[j]);
    }
    UpdateValid(t, index, t.slots[index].(state := Active), t.last);
  }

  lemma AnsweredValid(t: Table, index: nat, token: nat, unsubscribe: bool, accepted: bool)
    requires ValidTable(t) && token > 0
    ensures ValidTable(Answered(t, index, token, unsubscribe, accepted))
  {
    if index < |t.slots| && t.slots[index].token == token {
      assert SlotOk(t.slots[index], t.last);
      if unsubscribe == accepted { ClearedValid(t, index, token); } else { ActivatedValid(t, index); }
    }
  }

  lemma ReplayedValid(t: Table, index: nat)
    requires ValidTable(t) && index < |t.slots| && t.slots[index].state.Active?
    ensures ValidTable(Replayed(t, index))
  {
    var slot := Slot(SubPending, t.last + 1, t.slots[index].topic);
    assert SlotOk(t.slots[index], t.last);
    forall j | 0 <= j < |t.slots| && j != index
      ensures Apart(slot, t.slots[j])
    {
      assert SlotOk(t.slots[j], t.last) && Apart(t.slots[index], t.slots[j]);
    }
    UpdateValid(t, index, slot, t.last + 1);
  }

  lemma SweptValid(t: Table)
    requires ValidTable(t)
    ensures ValidTable(Swept(t))
    ensures forall i | 0 <= i < |t.slots| :: Swept(t).slots[i].state.Empty? || Swept(t).slots[i].state.Active?
  {
    var u := Swept(t);
    forall i | 0 <= i < |u.slots|
      ensures SlotOk(u.slots[i], u.last) && (u.slots[i].state.Empty? || u.slots[i].state.Active?)
    {
      assert SlotOk(t.slots[i], t.last);
    }
    forall i, j | 0 <= i < |u.slots| && 0 <= j < |u.slots| && i != j
      ensures Apart(u.slots[i], u.slots[j])
    {
      assert Apart(t.slots[i], t.slots[j]);
    }
  }

  // ---------------------------------------------------------------- what they mean

  /** A subscribe is refused exactly when its topic is in the table or the table is full; an
      unsubscribe is taken exactly when its topic is active. */
  lemma ReserveMeaning(t: Table, topic: string, unsubscribe: bool)
    requires ValidTable(t)
    ensures !unsubscribe ==> (Reserve(t, topic, false) == Refused(Already) <==> HasTopic(t, topic))
    ensures !unsubscribe ==>
              (Reserve(t, topic, false).Reserved? <==>
                 !HasTopic(t, topic) && exists i | 0 <= i < |t.slots| :: t.slots[i] == EMPTY_SLOT)
    ensures unsubscribe ==>
              (Reserve(t, topic, true).Reserved? <==>
                 exists i | 0 <= i < |t.slots| :: SlotHolds(t.slots[i], topic) && t.slots[i].state.Active?)
  {
    var found := FindTopic(t.slots, topic, 0);
    var free := FindEmpty(t.slots, 0);
    assert forall i | 0 <= i < |t.slots| :: SlotOk(t.slots[i], t.last);
    if found < |t.slots| {
      assert SlotHolds(t.slots[found], topic);
      forall i | 0 <= i < |t.slots| && SlotHolds(t.slots[i], topic)
        ensures i == found
      {
        assert i != found ==> Apart(t.slots[i], t.slots[found]);
      }
    }
    if free < |t.slots| {
      assert t.slots[free] == EMPTY_SLOT;
    }
  }

  /** A subscribe that cannot be queued leaves every slot exactly as it was. */
  lemma SubscribeRollsBack(t: Table, topic: string)
    requires ValidTable(t) && Reserve(t, topic, false).Reserved?
    ensures var index := Reserve(t, topic, false).index;
            RolledBack(AfterReserve(t, index, topic, false), index, t.last + 1, Empty).slots == t.slots
  {
    var index := Reserve(t, topic, false).index;
    assert SlotOk(t.slots[index], t.last);
  }

  /** An unsubscribe, or a replay, that cannot be queued leaves every slot's topic and state as they
      were, and every other slot entirely. */
  lemma UnsubscribeRollsBack(t: Table, index: nat, unsubscribe: bool)
    requires ValidTable(t) && index < |t.slots| && t.slots[index].state.Active?
    ensures var u := RolledBack(if unsubscribe then AfterReserve(t, index, t.slots[index].topic, true) else Replayed(t, index),
                                index, t.last + 1, Active);
            && u.slots == t.slots[index := t.slots[index].(token := t.last + 1)]
            && forall i | 0 <= i < |t.slots| :: u.slots[i].state == t.slots[i].state && u.slots[i].topic == t.slots[i].topic
  {
  }

  /** A subscribe that a replay has queued. */
  datatype Sent = Sent(index: nat, token: nat, topic: string)

  /** What a replay makes of a slot, when its command is queued or not. */
  predicate ReplaysTo(was: Slot, now: Slot, queued: bool) {
    if was.state.Active? then now.topic == was.topic && now.state == if queued then SubPending else Active
    else now == was
  }

  lemma ReplayedSlot(was: Slot, now: Slot, queued: bool)
    ensures if was.state.Active? then now == Slot(if queued then SubPending else Active, now.token, was.topic) ==> ReplaysTo(was, now, queued)
            else now == was ==> ReplaysTo(was, now, queued)
  {
  }

  /** A queued subscribe is for a slot that was active, and the slot now waits for it. */
  predicate IsRequest(was: seq<Slot>, now: seq<Slot>, queued: seq<bool>, s: Sent) {
    && s.index < |was| == |now| == |queued|
    && was[s.index].state.Active? && queued[s.index]
    && was[s.index].topic == s.topic && now[s.index] == Slot(SubPending, s.token, s.topic)
  }

  predicate InOrder(sent: seq<Sent>) {
    forall k, l | 0 <= k < l < |sent| :: sent[k].index < sent[l].index && sent[k].token < sent[l].token
  }

  predicate WasSent(sent: seq<Sent>, i: nat) {
    exists k | 0 <= k < |sent| :: sent[k].index == i
  }

  lemma NothingSent()
    ensures InOrder([])
  {
  }

  lemma SentMore(sent: seq<Sent>, s: Sent)
    requires InOrder(sent) && forall k | 0 <= k < |sent| :: sent[k].index < s.index && sent[k].token < s.token
    ensures InOrder(sent + [s]) && WasSent(sent + [s], s.index)
    ensures forall i | WasSent(sent, i) :: WasSent(sent + [s], i)
  {
    var more := sent + [s];
    assert more[|sent|] == s && forall k | 0 <= k < |sent| :: more[k] == sent[k];
  }

  lemma ReplayedStepValid(t: Table, index: nat, queued: bool)
    requires ValidTable(t) && index < |t.slots| && t.slots[index].state.Active?
    ensures ValidTable(if queued then Replayed(t, index) else RolledBack(Replayed(t, index), index, t.last + 1, Active))
  {
    ReplayedValid(t, index);
    if !queued { ActivatedValid(Replayed(t, index), index); }
  }

  // ---------------------------------------------------------------- in place

  class Subscriptions {
    const slots: array<Slot>
    var last: nat

    constructor (capacity: nat)
      ensures slots.Length == capacity && fresh(slots) && View() == Table(seq(capacity, _ => EMPTY_SLOT), 0)
      ensures ValidTable(View())
    {
      slots := new Slot[capacity](_ => EMPTY_SLOT);
      last := 0;
      new;
      assert slots[..] == seq(capacity, _ => EMPTY_SLOT);
    }

    ghost function View(): Table
      reads this, slots
    {
      Table(slots[..], last)
    }

    /** `mqtt_subscription_reserve_locked`: one pass looks for the topic and the first free slot. */
    method ReserveSlot(topic: string, unsubscribe: bool) returns (r: Reservation, token: nat)
      modifies this, slots
      ensures r == Reserve(old(View()), topic, unsubscribe)
      ensures r.Reserved? ==> token == last && View() == AfterReserve(old(View()), r.index, topic, unsubscribe)
      ensures r.Refused? ==> View() == old(View())
    {
      var found, free, i := slots.Length, slots.Length, 0;
      token := 0;
      while i < slots.Length && found == slots.Length
        invariant 0 <= i <= slots.Length
        invariant FindTopic(slots[..], topic, 0) == if found < slots.Length then found else FindTopic(slots[..], topic, i)
        invariant found <= slots.Length && free <= slots.Length
        invariant found == slots.Length ==>
                    FindEmpty(slots[..], 0) == if free < slots.Length then free else FindEmpty(slots[..], i)
        invariant View() == old(View())
      {
        if SlotHolds(slots[i], topic) {
          found := i;
        } else if free == slots.Length && slots[i].state.Empty? {
          free := i;
        }
        i := i + 1;
      }
      if unsubscribe {
        if found == slots.Length || !slots[found].state.Active? {
          return Refused(UnsubscribeFailed), 0;
        }
        r, token, last := Reserved(found), last + 1, last + 1;
        slots[found] := slots[found].(state := UnsubPending, token := token);
      } else {
        if found != slots.Length {
          return Refused(Already), 0;
        }
        if free == slots.Length {
          return Refused(NoRoom), 0;
        }
        r, token, last := Reserved(free), last + 1, last + 1;
        slots[free] := Slot(SubPending, token, topic);
      }
    }

    /** `mqtt_subscription_rollback_locked`, and with it `mqtt_subscription_clear_locked`. */
    method Rollback(index: nat, token: nat, state: SlotState)
      modifies slots
      ensures View() == RolledBack(old(View()), index, token, state)
      ensures forall i | 0 <= i < slots.Length ::
                slots[i] == if i != index || old(slots[i]).token != token then old(slots[i])
                            else if state == Empty then Slot(Empty, 0, "")
                            else Slot(state, token, old(slots[i]).topic)
    {
      if index >= slots.Length || slots[index].token != token {
        return;
      }
      slots[index] := if state.Empty? then EMPTY_SLOT else slots[index].(state := state);
    }

    /** The slot part of `mqtt_agent_command_complete`. */
    method Answer(index: nat, token: nat, unsubscribe: bool, accepted: bool)
      modifies slots
      ensures View() == Answered(old(View()), index, token, unsubscribe, accepted)
      ensures forall i | 0 <= i < slots.Length ::
                slots[i] == if i != index || old(slots[i]).token != token then old(slots[i])
                            else if unsubscribe == accepted then Slot(Empty, 0, "")
                            else Slot(Active, token, old(slots[i]).topic)
    {
      if index >= slots.Length || slots[index].token != token {
        return;
      }
      if unsubscribe == accepted {
        slots[index] := EMPTY_SLOT;
      } else {
        slots[index] := slots[index].(state := Active);
      }
    }

    /** `mqtt_replay_subscriptions` without interference: exactly the active slots whose command is
        queued are requested again, in order and once each, each under a new token; an active one whose
        command is not queued goes back to active. */
    method ReplayAll(queued: seq<bool>) returns (sent: seq<Sent>)
      requires |queued| == slots.Length && ValidTable(View())
      modifies this, slots
      ensures ValidTable(View()) && old(last) <= last
      ensures forall i | 0 <= i < slots.Length :: ReplaysTo(old(slots[i]), slots[i], queued[i])
      ensures forall k | 0 <= k < |sent| :: IsRequest(old(slots[..]), slots[..], queued, sent[k])
      ensures forall k | 0 <= k < |sent| :: old(last) < sent[k].token <= last
      ensures InOrder(sent)
      ensures forall i | 0 <= i < slots.Length && old(slots[i]).state.Active? && queued[i] :: WasSent(sent, i)
    {
      hide ValidTable, ReplaysTo, InOrder, WasSent;
      sent := [];
      NothingSent();
      for i := 0 to slots.Length
        invariant ValidTable(View()) && old(last) <= last
        invariant forall j | 0 <= j < i :: ReplaysTo(old(slots[j]), slots[j], queued[j])
        invariant forall j | i <= j < slots.Length :: slots[j] == old(slots[j])
        invariant forall k | 0 <= k < |sent| :: sent[k].index < i && IsRequest(old(slots[..]), slots[..], queued, sent[k])
        invariant forall k | 0 <= k < |sent| :: old(last) < sent[k].token <= last
        invariant InOrder(sent)
        invariant forall j | 0 <= j < i && old(slots[j]).state.Active? && queued[j] :: WasSent(sent, j)
      {
        if slots[i].state.Active? {
          var token := ReplayOne(i, queued[i]);
          if queued[i] {
            SentMore(sent, Sent(i, token, slots[i].topic));
            sent := sent + [Sent(i, token, slots[i].topic)];
          }
        }
        ReplayedSlot(old(slots[i]), slots[i], queued[i]);
      }
    }

    /** One active slot of the replay: a new token and a request, undone when it is not queued. */
    method ReplayOne(i: nat, queued: bool) returns (token: nat)
      requires i < slots.Length && slots[i].state.Active? && ValidTable(View())
      modifies this, slots
      ensures ValidTable(View())
      ensures forall j | 0 <= j < slots.Length && j != i :: slots[j] == old(slots[j])
      ensures token == last == old(last) + 1
      ensures slots[i] == Slot(if queued then SubPending else Active, token, old(slots[i].topic))
    {
      ghost var before := View();
      ReplayedStepValid(before, i, queued);
      hide ValidTable;
      token, last := last + 1, last + 1;
      slots[i] := slots[i].(state := SubPending, token := token);
      assert View() == Replayed(before, i);
      if !queued {
        Rollback(i, token, Active);
      }
      assert View() == if queued then Replayed(before, i) else RolledBack(Replayed(before, i), i, before.last + 1, Active);
    }

    /** The loop of `mqtt_try_schedule_connect`. */
    method Sweep()
      modifies slots
      ensures View() == Swept(old(View()))
      ensures forall i | 0 <= i < slots.Length ::
                var was := old(slots[i]);
                slots[i] == match was.state {
                  case SubPending => Slot(Empty, 0, "")
                  case UnsubPending => Slot(Active, was.token, was.topic)
                  case _ => was
                }
    {
      for i := 0 to slots.Length
        invariant forall j | 0 <= j < i :: slots[j] == SweptSlot(old(slots[j]))
        invariant forall j | i <= j < slots.Length :: slots[j] == old(slots[j])
      {
        if slots[i].state.SubPending? {
          slots[i] := EMPTY_SLOT;
        } else if slots[i].state.UnsubPending? {
          slots[i] := slots[i].(state := Active);
        }
      }
      assert slots[..] == Swept(old(View())).slots;
    }
  }
}
