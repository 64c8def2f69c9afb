/** The counters of the MQTT client are exact, so a client that is closing and idle stays so. */
module MqttClosing {
  import opened Counting
  import opened MqttTable
  import opened MqttClient

  predicate UsesApi(a: Activity) {
    !(a.Out? || a.InCallback? || a.Deiniting? || a.Finished?)
  }

  predicate Runs(a: Activity) {
    a.Processing? || a.Reconnecting? || a.ReplayingAll?
  }

  const USES_API: Activity -> bool := (a: Activity) => UsesApi(a)
  const RUNS: Activity -> bool := (a: Activity) => Runs(a)
  const CALLING: Activity -> bool := (a: Activity) => a.InCallback?

  /** Every counter counts what it stands for. */
  predicate Exact(c: Client) {
    && c.counts.api == Count(c.acts, USES_API)
    && c.counts.callbacks == Count(c.acts, CALLING)
    && c.counts.operations == |c.live|
    && Count(c.acts, RUNS) == if c.life.running then 1 else 0
  }

  function Start(slots: nat, threads: nat): Client {
    Client(Conn(Initialized, 0, false, false, false, false), Life(false, false, false, false, false, false), Counts(0, 0, 0),
           Table(seq(slots, _ => EMPTY_SLOT), 0), [], seq(threads, _ => Out))
  }

  lemma StartExact(slots: nat, threads: nat)
    ensures Exact(Start(slots, threads))
  {
    var acts := Start(slots, threads).acts;
    CountZero(acts, USES_API);
    CountZero(acts, CALLING);
    CountZero(acts, RUNS);
  }

  /** One activity changes: how the three counts move. */
  lemma CountsMove(acts: seq<Activity>, t: nat, a: Activity)
    requires t < |acts|
    ensures Count(acts[t := a], USES_API) == Count(acts, USES_API) - One(UsesApi(acts[t])) + One(UsesApi(a))
    ensures Count(acts[t := a], RUNS) == Count(acts, RUNS) - One(Runs(acts[t])) + One(Runs(a))
    ensures Count(acts[t := a], CALLING) == Count(acts, CALLING) - One(acts[t].InCallback?) + One(a.InCallback?)
    ensures Count(acts, USES_API) >= One(UsesApi(acts[t]))
    ensures Count(acts, RUNS) >= One(Runs(acts[t]))
    ensures Count(acts, CALLING) >= One(acts[t].InCallback?)
  {
    CountUpdate(acts, t, a, USES_API);
    CountUpdate(acts, t, a, RUNS);
    CountUpdate(acts, t, a, CALLING);
    if UsesApi(acts[t]) { CountOne(acts, t, USES_API); }
    if Runs(acts[t]) { CountOne(acts, t, RUNS); }
    if acts[t].InCallback? { CountOne(acts, t, CALLING); }
  }

  lemma GateExact(c: Client, e: Gate)
    requires Exact(c) && GateEnabled(c, e)
    ensures Exact(GateNext(c, e))
  {
    hide Count;
    CountsMove(c.acts, e.t, GateNext(c, e).acts[e.t]);
    assert c.acts[e.t := c.acts[e.t]] == c.acts;
  }

  lemma LinkExact(c: Client, e: Link)
    requires Exact(c) && LinkEnabled(c, e)
    ensures Exact(LinkNext(c, e))
  {
    hide Count, LinkConn, Swept;
    CountsMove(c.acts, e.t, LinkAct(c, e));
  }

  lemma WorkExact(c: Client, e: Work)
    requires Exact(c) && WorkEnabled(c, e)
    ensures Exact(WorkNext(c, e))
  {
    hide Count, ConnAfter, TableAfter, StageAfter, MayHandOut, Reserve, AfterReserve, RolledBack;
    if !e.Complete? && !e.Leave? {
      CountsMove(c.acts, e.t, WorkNext(c, e).acts[e.t]);
      assert c.acts[e.t := c.acts[e.t]] == c.acts;
    }
  }

  lemma ReplayExact(c: Client, e: Replay)
    requires Exact(c) && ReplayEnabled(c, e)
    ensures Exact(ReplayNext(c, e))
  {
    hide Count, Replayed, RolledBack;
    if e.who.ByProcess? { CountsMove(c.acts, e.who.t, ReplayNext(c, e).acts[e.who.t]); }
  }

  lemma StepExact(c: Client, e: Event)
    requires Exact(c) && Enabled(c, e)
    ensures Exact(Next(c, e))
  {
    hide Exact, GateNext, LinkNext, WorkNext, ReplayNext, GateEnabled, LinkEnabled, WorkEnabled, ReplayEnabled;
    match e
    case OfGate(g) => GateExact(c, g);
    case OfLink(l) => LinkExact(c, l);
    case OfWork(w) => WorkExact(c, w);
    case OfReplay(r) => ReplayExact(c, r);
  }

  // ---------------------------------------------------------------- closing

  /** Closing, with no API call, callback, operation or process loop in progress. */
  predicate Quiet(c: Client) {
    c.life.closing && c.counts.api == 0 && c.counts.callbacks == 0 && c.counts.operations == 0 && !c.life.running
  }

  /** The threads of such a client are all outside, or tearing it down. */
  lemma QuietMeansOutside(c: Client)
    requires Exact(c) && Quiet(c)
    ensures c.live == []
    ensures forall t | 0 <= t < |c.acts| :: c.acts[t].Out? || c.acts[t].Deiniting? || c.acts[t].Finished?
  {
    CountZero(c.acts, USES_API);
    CountZero(c.acts, CALLING);
    forall t | 0 <= t < |c.acts|
      ensures c.acts[t].Out? || c.acts[t].Deiniting? || c.acts[t].Finished?
    {
      assert !USES_API(c.acts[t]) && !CALLING(c.acts[t]);
    }
  }

  lemma GateStaysQuiet(c: Client, e: Gate)
    requires Quiet(c) && c.live == [] && GateEnabled(c, e)
    requires forall t | 0 <= t < |c.acts| :: c.acts[t].Out? || c.acts[t].Deiniting? || c.acts[t].Finished?
    ensures Quiet(GateNext(c, e))
    ensures GateNext(c, e).conn == c.conn && GateNext(c, e).table == c.table && GateNext(c, e).live == []
    ensures c.life.cancelled ==> GateNext(c, e).life.cancelled && (!c.life.claimed ==> !GateNext(c, e).life.claimed)
  {
  }

  /** No step of any thread, the teardown's cancelling included, admits an API call, callback,
      operation or process loop again. Once what was left has been cancelled, the claim flag cannot
      come back either. */
  lemma QuietIsStable(c: Client, e: Event)
    requires Exact(c) && Quiet(c) && Enabled(c, e)
    ensures Quiet(Next(c, e))
    ensures Next(c, e).conn == c.conn && Next(c, e).table == c.table && Next(c, e).live == []
    ensures c.life.cancelled ==> Next(c, e).life.cancelled && (!c.life.claimed ==> !Next(c, e).life.claimed)
  {
    hide Exact, GateNext, ReplayNext, WorkNext, LinkNext;
    QuietMeansOutside(c);
    match e
    case OfGate(g) =>
      GateStaysQuiet(c, g);
    case OfLink(_) =>
      assert false;
    case OfWork(_) =>
      assert false;
    case OfReplay(_) =>
      assert false;
  }

  /** The claim flag alone is not final before the cancelling: the teardown's own receive raises it
      on an idle client. */
  lemma TeardownClaimsWhileIdle(c: Client, t: nat)
    requires Exact(c) && c.life.closing && Idle(c) && Does(c, t, Deiniting)
    ensures GateEnabled(c, Claim(t, true)) <==> !c.life.cancelled
    ensures !c.life.cancelled ==> Quiet(GateNext(c, Claim(t, true))) && !Idle(GateNext(c, Claim(t, true)))
  {
  }

  predicate Moves(c: Client, e: Event, d: Client) {
    Enabled(c, e) && d == Next(c, e)
  }

  /** Steps from any client. */
  predicate Path(states: seq<Client>, events: seq<Event>) {
    |states| == |events| + 1 && forall i | 0 <= i < |events| :: Moves(states[i], events[i], states[i + 1])
  }

  lemma PathNothing(c: Client)
    ensures Path([c], [])
  {
  }

  lemma Extend(states: seq<Client>, events: seq<Event>, e: Event, c: Client) returns (longer: seq<Client>, more: seq<Event>)
    requires |states| == |events| + 1 && Path(states, events) && Moves(states[|events|], e, c)
    ensures |longer| == |more| + 1 == |states| + 1 && Path(longer, more) && longer[0] == states[0] && longer[|more|] == c
  {
    hide Moves;
    longer, more := states + [c], events + [e];
    forall i | 0 <= i < |more|
      ensures Moves(longer[i], more[i], longer[i + 1])
    {
      if i < |events| { assert Moves(states[i], events[i], states[i + 1]); }
    }
  }

  predicate Run(states: seq<Client>, events: seq<Event>, slots: nat) {
    Path(states, events) && states[0] == Start(slots, |states[0].acts|)
  }

  lemma {:induction false} RunExact(states: seq<Client>, events: seq<Event>, slots: nat, n: nat)
    requires Run(states, events, slots) && n < |states|
    ensures Exact(states[n])
  {
    hide Exact, Next, Enabled, Start;
    if n == 0 {
      StartExact(slots, |states[0].acts|);
    } else {
      RunExact(states, events, slots, n - 1);
      assert Moves(states[n - 1], events[n - 1], states[n]);
      StepExact(states[n - 1], events[n - 1]);
    }
  }

  /** Once a run has been closing and quiet, it is for ever, and connection and table are frozen;
      once it has also been idle after the cancelling, it is idle for ever. */
  lemma {:induction false} QuietForEver(states: seq<Client>, events: seq<Event>, slots: nat, m: nat, n: nat)
    requires Run(states, events, slots) && m <= n < |states| && Quiet(states[m])
    ensures Quiet(states[n])
    ensures states[n].conn == states[m].conn && states[n].table == states[m].table
    ensures m < n ==> states[n].live == []
    ensures states[m].life.cancelled ==> states[n].life.cancelled && (Idle(states[m]) ==> Idle(states[n]))
  {
    hide Next, Enabled, Start;
    if m < n {
      QuietForEver(states, events, slots, m, n - 1);
      RunExact(states, events, slots, n - 1);
      assert Moves(states[n - 1], events[n - 1], states[n]);
      QuietIsStable(states[n - 1], events[n - 1]);
    }
  }

  /** The operation counter is the number of live operations, in every reachable state; likewise
      the counts of API calls, callbacks and the process loop. */
  lemma CountersAreExact(states: seq<Client>, events: seq<Event>, slots: nat, n: nat)
    requires Run(states, events, slots) && n < |states|
    ensures states[n].counts.operations == |states[n].live|
    ensures states[n].counts.api == Count(states[n].acts, USES_API)
    ensures states[n].counts.callbacks == Count(states[n].acts, CALLING)
    ensures states[n].life.running <==> exists t | 0 <= t < |states[n].acts| :: Runs(states[n].acts[t])
  {
    RunExact(states, events, slots, n);
    var acts := states[n].acts;
    CountZero(acts, RUNS);
    assert forall t | 0 <= t < |acts| :: RUNS(acts[t]) == Runs(acts[t]);
  }
}
