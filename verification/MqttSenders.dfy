/** Every command that is being sent has exactly one sender: a connect that is queueing it, or a replay at
    its slot. */
module MqttSenders {
  import opened Counting
  import opened MqttTable
  import opened MqttClient
  import opened MqttClosing

  /** What a sender and its command have in common. */
  datatype Errand = ForConnect(generation: nat) | ForSlot(index: nat, token: nat) | ForNobody

  function ErrandOf(op: Op): Errand {
    match op
    case ConnectOp(generation) => ForConnect(generation)
    case SlotOp(_, _, index, token, _) => ForSlot(index, token)
    case _ => ForNobody
  }

  predicate Carries(cursor: Cursor, x: Errand) {
    cursor.Sending? && x == ForSlot(cursor.i, cursor.token)
  }

  predicate Unsends(l: Live, x: Errand) {
    l.stage.Unsent? && ErrandOf(l.op) == x
  }

  predicate Replays(l: Live, x: Errand) {
    l.stage.Replaying? && Carries(l.stage.cursor, x)
  }

  predicate Sends(a: Activity, x: Errand) {
    match a
    case SendingConnect(generation) => x == ForConnect(generation)
    case ReplayingAll(cursor) => Carries(cursor, x)
    case _ => false
  }

  /** The command of an operation that is being sent; the sender that an operation is while it replays;
      the sender that a thread is. */
  function UNSENT(x: Errand): Live -> bool {
    (l: Live) => Unsends(l, x)
  }

  function REPLAYING(x: Errand): Live -> bool {
    (l: Live) => Replays(l, x)
  }

  function SENDING(x: Errand): Activity -> bool {
    (a: Activity) => Sends(a, x)
  }

  predicate MatchedFor(live: seq<Live>, acts: seq<Activity>, x: Errand) {
    Count(live, UNSENT(x)) == Count(live, REPLAYING(x)) + Count(acts, SENDING(x))
  }

  /** Commands and senders are the same, one for one. */
  ghost predicate Matched(live: seq<Live>, acts: seq<Activity>) {
    forall x :: MatchedFor(live, acts, x)
  }

  // ---------------------------------------------------------------- parts of steps

  lemma ActMoves(acts: seq<Activity>, t: nat, a: Activity, x: Errand)
    requires t < |acts|
    ensures Count(acts[t := a], SENDING(x)) + One(Sends(acts[t], x)) == Count(acts, SENDING(x)) + One(Sends(a, x))
  {
    CountUpdate(acts, t, a, SENDING(x));
    if Sends(acts[t], x) { CountOne(acts, t, SENDING(x)); }
  }

  lemma StageMoves(live: seq<Live>, k: nat, stage: Stage, x: Errand)
    requires k < |live|
    ensures var l := live[k].(stage := stage);
            && Count(live[k := l], UNSENT(x)) + One(Unsends(live[k], x)) == Count(live, UNSENT(x)) + One(Unsends(l, x))
            && Count(live[k := l], REPLAYING(x)) + One(Replays(live[k], x)) == Count(live, REPLAYING(x)) + One(Replays(l, x))
  {
    CountUpdate(live, k, live[k].(stage := stage), UNSENT(x));
    CountUpdate(live, k, live[k].(stage := stage), REPLAYING(x));
    if Unsends(live[k], x) { CountOne(live, k, UNSENT(x)); }
    if Replays(live[k], x) { CountOne(live, k, REPLAYING(x)); }
  }

  lemma LiveAdds(live: seq<Live>, l: Live, x: Errand)
    ensures Count(live + [l], UNSENT(x)) == Count(live, UNSENT(x)) + One(Unsends(l, x))
    ensures Count(live + [l], REPLAYING(x)) == Count(live, REPLAYING(x)) + One(Replays(l, x))
  {
    CountSnoc(live, l, UNSENT(x));
    CountSnoc(live, l, REPLAYING(x));
  }

  lemma LiveDrops(live: seq<Live>, k: nat, x: Errand)
    requires k < |live|
    ensures Count(Without(live, k), UNSENT(x)) + One(Unsends(live[k], x)) == Count(live, UNSENT(x))
    ensures Count(Without(live, k), REPLAYING(x)) + One(Replays(live[k], x)) == Count(live, REPLAYING(x))
  {
    CountWithout(live, k, UNSENT(x));
    CountWithout(live, k, REPLAYING(x));
  }

  // ---------------------------------------------------------------- steps

  lemma GateMatched(c: Client, e: Gate, x: Errand)
    requires MatchedFor(c.live, c.acts, x) && GateEnabled(c, e)
    ensures MatchedFor(GateNext(c, e).live, GateNext(c, e).acts, x)
  {
    hide Count;
    ActMoves(c.acts, e.t, GateNext(c, e).acts[e.t], x);
    assert c.acts[e.t := c.acts[e.t]] == c.acts;
  }

  lemma LinkMatched(c: Client, e: Link, x: Errand)
    requires MatchedFor(c.live, c.acts, x) && LinkEnabled(c, e)
    ensures MatchedFor(LinkNext(c, e).live, LinkNext(c, e).acts, x)
  {
    hide Count, LinkConn, Swept;
    ActMoves(c.acts, e.t, LinkAct(c, e), x);
  }

  lemma ConnectMatched(c: Client, e: Work, x: Errand)
    requires MatchedFor(c.live, c.acts, x) && WorkEnabled(c, e) && (e.EnterConnect? || e.SendConnect? || e.DropConnect?)
    ensures MatchedFor(WorkNext(c, e).live, WorkNext(c, e).acts, x)
  {
    hide Count;
    ActMoves(c.acts, e.t, WorkNext(c, e).acts[e.t], x);
    match e
    case EnterConnect(t) => LiveAdds(c.live, Live(ConnectOp(c.acts[t].generation), Unsent), x);
    case SendConnect(t, k) => StageMoves(c.live, k, Queued, x);
    case DropConnect(t, k) => LiveDrops(c.live, k, x);
  }

  lemma CallMatched(c: Client, e: Work, x: Errand)
    requires MatchedFor(c.live, c.acts, x) && WorkEnabled(c, e) && (e.Disconnect? || e.Publish? || e.Request?)
    ensures MatchedFor(WorkNext(c, e).live, WorkNext(c, e).acts, x)
  {
    hide Count, Reserve, AfterReserve, RolledBack;
    var d := WorkNext(c, e);
    ActMoves(c.acts, e.t, d.acts[e.t], x);
    if |d.live| > |c.live| { LiveAdds(c.live, d.live[|c.live|], x); }
  }

  lemma OperationMatched(c: Client, e: Work, x: Errand)
    requires MatchedFor(c.live, c.acts, x) && WorkEnabled(c, e) && (e.Receive? || e.Complete? || e.Leave?)
    ensures MatchedFor(WorkNext(c, e).live, WorkNext(c, e).acts, x)
  {
    hide Count, ConnAfter, TableAfter, MayHandOut, AcceptsConnect;
    match e
    case Receive(t, k) => StageMoves(c.live, k, WorkNext(c, e).live[k].stage, x);
    case Complete(k, _, _, _) => StageMoves(c.live, k, WorkNext(c, e).live[k].stage, x);
    case Leave(k) => LiveDrops(c.live, k, x);
  }

  function SendersFor(c: Client, x: Errand): nat {
    Count(c.live, REPLAYING(x)) + Count(c.acts, SENDING(x))
  }

  lemma CursorMoves(c: Client, who: Replayer, cursor: Cursor, x: Errand)
    requires HasCursor(c, who)
    ensures var d := WithCursor(c, who, cursor);
            && Count(d.live, UNSENT(x)) == Count(c.live, UNSENT(x))
            && SendersFor(d, x) + One(Carries(CursorOf(c, who), x)) == SendersFor(c, x) + One(Carries(cursor, x))
  {
    hide Count;
    match who
    case ByCompletion(k) => StageMoves(c.live, k, Replaying(cursor), x);
    case ByProcess(t) => ActMoves(c.acts, t, ReplayingAll(cursor), x);
  }

  lemma CursorEnds(c: Client, who: Replayer, x: Errand)
    requires MatchedFor(c.live, c.acts, x) && HasCursor(c, who) && CursorOf(c, who).At?
    ensures MatchedFor(EndCursor(c, who).live, EndCursor(c, who).acts, x)
  {
    hide Count;
    match who
    case ByCompletion(k) => StageMoves(c.live, k, Done, x);
    case ByProcess(t) => ActMoves(c.acts, t, Processing, x);
  }

  lemma SlotMatched(c: Client, who: Replayer, x: Errand)
    requires MatchedFor(c.live, c.acts, x) && ReplayEnabled(c, ReplaySlot(who))
    ensures MatchedFor(ReplayNext(c, ReplaySlot(who)).live, ReplayNext(c, ReplaySlot(who)).acts, x)
  {
    hide Count, Replayed;
    var cursor := CursorOf(c, who);
    CursorMoves(c, who, At(cursor.i + 1), x);
    CursorMoves(c, who, Sending(cursor.i, c.table.last + 1), x);
    if cursor.i >= |c.table.slots| {
      CursorEnds(c, who, x);
    } else if c.table.slots[cursor.i].state.Active? {
      LiveAdds(WithCursor(c, who, Sending(cursor.i, c.table.last + 1)).live,
               Live(SlotOp(c.conn.generation, false, cursor.i, c.table.last + 1, c.table.slots[cursor.i].topic), Unsent), x);
    }
  }

  lemma SentMatched(c: Client, who: Replayer, j: nat, x: Errand)
    requires MatchedFor(c.live, c.acts, x) && IsSent(c, who, j)
    ensures MatchedFor(ReplayNext(c, ReplaySent(who, j)).live, ReplayNext(c, ReplaySent(who, j)).acts, x)
  {
    hide Count;
    StageMoves(c.live, j, Queued, x);
    CursorMoves(Staged(c, j, Queued), who, At(CursorOf(c, who).i + 1), x);
  }

  lemma DroppedMatched(c: Client, who: Replayer, j: nat, x: Errand)
    requires MatchedFor(c.live, c.acts, x) && IsSent(c, who, j)
    ensures MatchedFor(ReplayNext(c, ReplayDropped(who, j)).live, ReplayNext(c, ReplayDropped(who, j)).acts, x)
  {
    hide Count;
    var cursor := CursorOf(c, who);
    CursorMoves(c, who, Undoing(cursor.i, cursor.token), x);
    LiveDrops(WithCursor(c, who, Undoing(cursor.i, cursor.token)).live, j, x);
  }

  lemma ReplayMatched(c: Client, e: Replay, x: Errand)
    requires MatchedFor(c.live, c.acts, x) && ReplayEnabled(c, e)
    ensures MatchedFor(ReplayNext(c, e).live, ReplayNext(c, e).acts, x)
  {
    hide MatchedFor, RolledBack;
    match e
    case ReplaySlot(who) => SlotMatched(c, who, x);
    case ReplaySent(who, j) => SentMatched(c, who, j, x);
    case ReplayDropped(who, j) => DroppedMatched(c, who, j, x);
    case ReplayUndone(who) => UndoneMatched(c, who, x);
  }

  lemma UndoneMatched(c: Client, who: Replayer, x: Errand)
    requires MatchedFor(c.live, c.acts, x) && ReplayEnabled(c, ReplayUndone(who))
    ensures MatchedFor(ReplayNext(c, ReplayUndone(who)).live, ReplayNext(c, ReplayUndone(who)).acts, x)
  {
    hide Count, RolledBack;
    CursorMoves(c, who, At(CursorOf(c, who).i + 1), x);
  }

  lemma StepMatched(c: Client, e: Event, x: Errand)
    requires MatchedFor(c.live, c.acts, x) && Enabled(c, e)
    ensures MatchedFor(Next(c, e).live, Next(c, e).acts, x)
  {
    hide MatchedFor, GateNext, LinkNext, WorkNext, ReplayNext, GateEnabled, LinkEnabled, WorkEnabled, ReplayEnabled;
    match e
    case OfGate(g) => GateMatched(c, g, x);
    case OfLink(l) => LinkMatched(c, l, x);
    case OfWork(w) =>
      if w.EnterConnect? || w.SendConnect? || w.DropConnect? { ConnectMatched(c, w, x); }
      else if w.Disconnect? || w.Publish? || w.Request? { CallMatched(c, w, x); }
      else { OperationMatched(c, w, x); }
    case OfReplay(r) => ReplayMatched(c, r, x);
  }

  lemma AllMatched(c: Client, e: Event)
    requires Matched(c.live, c.acts) && Enabled(c, e)
    ensures Matched(Next(c, e).live, Next(c, e).acts)
  {
    hide MatchedFor, Next, Enabled;
    forall x
      ensures MatchedFor(Next(c, e).live, Next(c, e).acts, x)
    {
      StepMatched(c, e, x);
    }
  }

  // ---------------------------------------------------------------- runs

  /** In every run commands being sent and senders match, one for one. */
  lemma {:induction false} RunMatched(states: seq<Client>, events: seq<Event>, slots: nat, n: nat)
    requires Run(states, events, slots) && n < |states|
    ensures Matched(states[n].live, states[n].acts)
  {
    if n == 0 {
      forall x
        ensures MatchedFor(states[0].live, states[0].acts, x)
      {
        CountZero(states[0].acts, SENDING(x));
      }
    } else {
      hide Matched, Next, Enabled, Start;
      RunMatched(states, events, slots, n - 1);
      assert Moves(states[n - 1], events[n - 1], states[n]);
      AllMatched(states[n - 1], events[n - 1]);
    }
  }

  /** So every sender has a command to send or to drop, ... */
  lemma SenderHasCommand(c: Client, x: Errand) returns (j: nat)
    requires Matched(c.live, c.acts)
    requires (exists k | 0 <= k < |c.live| :: Replays(c.live[k], x)) || (exists t | 0 <= t < |c.acts| :: Sends(c.acts[t], x))
    ensures j < |c.live| && Unsends(c.live[j], x)
  {
    assert MatchedFor(c.live, c.acts, x);
    if k :| 0 <= k < |c.live| && Replays(c.live[k], x) {
      CountOne(c.live, k, REPLAYING(x));
    } else {
      var t :| 0 <= t < |c.acts| && Sends(c.acts[t], x);
      CountOne(c.acts, t, SENDING(x));
    }
    j := CountFind(c.live, UNSENT(x));
  }

  /** ... and every command being sent has a sender. */
  lemma CommandHasSender(c: Client, j: nat)
    requires Matched(c.live, c.acts) && j < |c.live| && c.live[j].stage.Unsent?
    ensures var x := ErrandOf(c.live[j].op);
            (exists k | 0 <= k < |c.live| :: Replays(c.live[k], x)) || (exists t | 0 <= t < |c.acts| :: Sends(c.acts[t], x))
  {
    var x := ErrandOf(c.live[j].op);
    assert MatchedFor(c.live, c.acts, x);
    CountOne(c.live, j, UNSENT(x));
    if Count(c.acts, SENDING(x)) > 0 {
      var t := CountFind(c.acts, SENDING(x));
      assert Sends(c.acts[t], x);
    } else {
      var k := CountFind(c.live, REPLAYING(x));
      assert Replays(c.live[k], x);
    }
  }
}
