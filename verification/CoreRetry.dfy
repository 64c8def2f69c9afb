/** How the core loses its service: its wait for a job fails, it leaves over a teardown's job that is no
    longer pending, or a teardown cannot bring its job, or a new service, on its way. */
module CoreRetry {
  import opened JobPool
  import opened CoreLifecycle

  /** Nobody executes jobs: the service was never started again, or it has returned. */
  predicate Gone(service: Service) {
    service.NoTask? || service.Ended? || service.Broken?
  }

  /** The core is there, takes posts, and has nobody to execute them. */
  predicate ServiceLost(s: Core) {
    s.has.lock && !s.ctx.pending && Gone(s.service)
  }

  /** What loses it: with no teardown pending, the service's wait fails or it returns after a teardown's
      job; or a teardown is taken back while the service is gone, for want of a pool entry, of a place in
      the queue or of a post that works, or of a service that starts. */
  predicate Loses(s: Core, e: Event)
    requires Enabled(s, e)
  {
    match e
    case OfService(v) =>
      !s.ctx.pending && (v.DequeueFails? || (v.Return? && s.service.job.kind.DeinitJob?))
    case OfSubmit(m) =>
      || (m.DeinitAlloc? && Gone(s.service) && s.pool.free == [])
      || (m.DeinitEnqueue? && Gone(s.service) && !(m.posted && QueueTakes(s)))
      || (m == DeinitStart(false) && s.owner.start)
    case _ => false
  }

  lemma ValidOfInv(s: Core)
    requires Inv(s)
    ensures ValidPool(s.pool)
  {
  }

  lemma PosterKeepsService(s: Core, e: PosterEvent)
    requires Shape(s) && ValidPool(s.pool) && PosterEnabled(s, e) && !ServiceLost(s)
    ensures !ServiceLost(PosterNext(s, e))
  {
    hide ValidPool, GivenBack, Allocated, NewPool, OwnerShape;
  }

  lemma ServiceLeaves(s: Core, e: ServiceEvent)
    requires Shape(s) && ServiceEnabled(s, e) && !ServiceLost(s)
    ensures ServiceLost(ServiceNext(s, e)) <==> Loses(s, OfService(e))
  {
    hide GivenBack, Effect, OwnerShape;
  }

  lemma SubmitLoses(s: Core, e: SubmitEvent)
    requires Shape(s) && ValidPool(s.pool) && SubmitEnabled(s, e) && !ServiceLost(s)
    ensures ServiceLost(SubmitNext(s, e)) <==> Loses(s, OfSubmit(e))
  {
    hide ValidPool, GivenBack, Allocated, Drained;
  }

  lemma FinishKeepsService(s: Core, e: FinishEvent)
    requires Shape(s) && FinishEnabled(s, e) && !ServiceLost(s)
    ensures !ServiceLost(FinishNext(s, e))
  {
    hide Drained;
  }

  lemma FaultMarkAside(t: Core, b: bool)
    ensures ServiceLost(t.(faulted := b)) == ServiceLost(t)
  {
  }

  /** Whatever has happened before, a step loses the service if and only if it is one of those. */
  lemma ServiceLostIff(s: Core, e: Event)
    requires Inv(s) && !ServiceLost(s) && Enabled(s, e)
    ensures ValidPool(s.pool)
    ensures ServiceLost(Next(s, e)) <==> Loses(s, e)
  {
    ValidOfInv(s);
    FaultMarkAside(StepOf(s, e), s.faulted || Faults(s, e));
    hide Shape, PoolMatches, ValidPool, Order, InSequence, ServiceLost, PosterNext, ServiceNext, SubmitNext, FinishNext;
    hide PosterEnabled, ServiceEnabled, SubmitEnabled, FinishEnabled, Faults;
    match e
    case OfPoster(p) => PosterKeepsService(s, p);
    case OfService(v) => ServiceLeaves(s, v);
    case OfSubmit(m) => SubmitLoses(s, m);
    case OfFinish(f) => FinishKeepsService(s, f);
  }

  /** Once lost, it stays lost until a teardown is claimed, which only a READY or INIT_FAILED core
      allows. */
  lemma ServiceStaysLostIff(s: Core, e: Event)
    requires Inv(s) && ServiceLost(s) && Enabled(s, e)
    ensures ValidPool(s.pool)
    ensures !ServiceLost(Next(s, e)) <==> e == OfSubmit(Claim) && Restorable(s.ctx.state)
  {
    ValidOfInv(s);
    LostIsUnowned(s);
    match e
    case OfPoster(p) => LostPosts(s, p);
    case OfService(_) =>
    case OfSubmit(_) => LostClaims(s);
    case OfFinish(_) =>
    hide Inv;
  }

  lemma LostIsUnowned(s: Core)
    requires Inv(s) && ServiceLost(s)
    ensures s.owner.NoOwner? && !s.ctx.callbackActive && !s.ctx.finalizing && s.ctx.phase.PhaseJob?
    ensures s.has.queue && !s.has.queueClosed && s.depth > 0 && (s.posting.Posting? ==> !s.posting.kind.DeinitJob?)
  {
    hide PoolMatches, Order, InSequence;
  }

  lemma LostPosts(s: Core, e: PosterEvent)
    requires ServiceLost(s) && ValidPool(s.pool) && PosterEnabled(s, e)
    ensures ServiceLost(PosterNext(s, e))
  {
    hide ValidPool, GivenBack, Allocated, NewPool;
  }

  lemma LostClaims(s: Core)
    requires ServiceLost(s) && s.owner.NoOwner? && !s.ctx.callbackActive && !s.ctx.finalizing
    ensures !ServiceLost(AfterClaim(s)) <==> Restorable(s.ctx.state)
  {
  }

  /** Over runs: a core without its service has lost it at one such step, and has been without it since. */
  lemma {:induction false} LostSince(states: seq<Core>, events: seq<Event>, n: nat) returns (m: nat)
    requires Run(states, events) && n < |states| && ServiceLost(states[n])
    ensures m < n && !ServiceLost(states[m]) && Enabled(states[m], events[m]) && Loses(states[m], events[m])
    ensures forall k | m < k <= n :: ServiceLost(states[k])
  {
    hide Inv, Next, Enabled, ValidPool, ServiceLost, Loses, Start, Gone;
    StartHasService();
    RunInv(states, events, n - 1);
    assert Moves(states[n - 1], events[n - 1], states[n]);
    if ServiceLost(states[n - 1]) {
      m := LostSince(states, events, n - 1);
    } else {
      m := n - 1;
      ServiceLostIff(states[m], events[m]);
    }
  }

  lemma StartHasService()
    ensures !ServiceLost(Start())
  {
  }

  /** A teardown that is taken back restores the state it found, READY for a retry; only a failed start
      drains the queue. */
  lemma TakenBack(s: Core, m: SubmitEvent)
    requires Inv(s) && SubmitEnabled(s, m) && !m.Claim? && Loses(s, OfSubmit(m))
    ensures ValidPool(s.pool)
    ensures var t := SubmitNext(s, m);
            && t.ctx.state == s.owner.previous && !t.ctx.pending
            && t.queue == if m.DeinitStart? then [] else s.queue
  {
    ValidOfInv(s);
    hide PoolMatches, Drained, GivenBack, Order, InSequence;
  }

  /** Without an earlier fault it is always a retry, so READY. */
  lemma UnfaultedIsReady(s: Core, m: SubmitEvent)
    requires Inv(s) && !s.faulted && SubmitEnabled(s, m) && Loses(s, OfSubmit(m)) && !m.Claim?
    ensures s.owner.previous.Ready?
  {
    hide PoolMatches, InSequence, DeinitLast, NoDeinitQueued;
  }

  // ---------------------------------------------------------------- failed joins

  /** Between the attempts of a teardown the service is gone. */
  predicate Waited(s: Core) {
    && (s.ctx.pending && s.owner.NoOwner? ==> s.service.NoTask?)
    && (s.owner.Claimed? && !s.owner.submit ==> s.service.NoTask?)
  }

  lemma PosterWaits(s: Core, e: PosterEvent)
    requires Shape(s) && Waited(s) && PosterEnabled(s, e) && ValidPool(s.pool)
    ensures Waited(PosterNext(s, e))
  {
    hide ValidPool, GivenBack, Allocated, NewPool, OwnerShape;
  }

  lemma ServiceWaits(s: Core, e: ServiceEvent)
    requires Waited(s) && ServiceEnabled(s, e)
    ensures Waited(ServiceNext(s, e))
  {
    hide GivenBack, Effect;
  }

  lemma SubmitWaits(s: Core, e: SubmitEvent)
    requires Shape(s) && Waited(s) && SubmitEnabled(s, e) && ValidPool(s.pool)
    ensures Waited(SubmitNext(s, e))
  {
    hide ValidPool, GivenBack, Allocated, Drained;
  }

  lemma FinishWaits(s: Core, e: FinishEvent)
    requires Shape(s) && Waited(s) && FinishEnabled(s, e) && e != JoinFail
    ensures Waited(FinishNext(s, e))
  {
    hide Drained;
  }

  lemma WaitedStep(s: Core, e: Event)
    requires Inv(s) && Waited(s) && Enabled(s, e) && e != OfFinish(JoinFail)
    ensures ValidPool(s.pool) && Waited(Next(s, e))
  {
    ValidOfInv(s);
    WaitMarkAside(StepOf(s, e), s.faulted || Faults(s, e));
    hide Shape, PoolMatches, ValidPool, Order, InSequence, Waited, PosterNext, ServiceNext, SubmitNext, FinishNext;
    hide PosterEnabled, ServiceEnabled, SubmitEnabled, FinishEnabled, Faults;
    match e
    case OfPoster(p) => PosterWaits(s, p);
    case OfService(v) => ServiceWaits(s, v);
    case OfSubmit(m) => SubmitWaits(s, m);
    case OfFinish(f) => FinishWaits(s, f);
  }

  lemma WaitMarkAside(t: Core, b: bool)
    ensures Waited(t.(faulted := b)) == Waited(t)
  {
  }

  lemma {:induction false} AlwaysWaited(states: seq<Core>, events: seq<Event>, n: nat)
    requires Run(states, events) && n < |states|
    requires forall i | 0 <= i < n :: events[i] != OfFinish(JoinFail)
    ensures Waited(states[n])
  {
    hide Inv, Next, Enabled, ValidPool;
    if n > 0 {
      hide Waited, Start;
      AlwaysWaited(states, events, n - 1);
      RunInv(states, events, n - 1);
      assert Moves(states[n - 1], events[n - 1], states[n]);
      WaitedStep(states[n - 1], events[n - 1]);
    }
  }

  /** Without a failed join no pending teardown is ever claimed over. */
  lemma OnlyAfterFailedJoin(states: seq<Core>, events: seq<Event>, n: nat)
    requires Run(states, events) && n < |states| && !states[n].faulted
    requires forall i | 0 <= i < n :: events[i] != OfFinish(JoinFail)
    ensures !Reclaims(states[n])
  {
    hide Inv, Moves, Waited, Reclaims, Start;
    AlwaysWaited(states, events, n);
    RunInv(states, events, n);
    NotReclaimed(states[n]);
  }

  lemma NotReclaimed(s: Core)
    requires Inv(s) && !s.faulted && Waited(s)
    ensures !Reclaims(s)
  {
    hide PoolMatches, InSequence, DeinitLast, NoDeinitQueued;
  }

  // ---------------------------------------------------------------- without a service

  predicate StartsService(e: Event) {
    e == OfSubmit(DeinitStart(true)) || (e.OfPoster? && e.poster.Initialise?)
  }

  lemma GoneStep(s: Core, e: Event)
    requires Enabled(s, e) && ValidPool(s.pool) && Gone(s.service) && !StartsService(e)
    ensures Gone(Next(s, e).service) && Next(s, e).called == s.called
  {
    hide ValidPool, Drained, GivenBack, Allocated, Effect;
  }

  /** Until a teardown, or the next initialisation, starts the service, no callback is made. */
  lemma {:induction false} NothingIsExecuted(states: seq<Core>, events: seq<Event>, m: nat, n: nat)
    requires Run(states, events) && m <= n < |states| && ServiceLost(states[m])
    requires forall i | m <= i < n :: !StartsService(events[i])
    ensures Gone(states[n].service) && states[n].called == states[m].called
  {
    hide Next, Enabled, ValidPool, Start;
    if m < n {
      NothingIsExecuted(states, events, m, n - 1);
      assert Moves(states[n - 1], events[n - 1], states[n]);
      GoneStep(states[n - 1], events[n - 1]);
    }
  }

  lemma LostTakesPosts(t: Core)
    requires Shape(t) && PoolMatches(t.pool, Live(t)) && ServiceLost(t) && t.service.NoTask?
    requires t.ctx.state.Ready? && t.queue == [] && t.posting.NotPosting?
    ensures ValidPool(t.pool) && t.pool.free != []
    ensures PosterEnabled(t, BeginPost(ConnectJob)) && PosterNext(t, BeginPost(ConnectJob)) == Take(t, ConnectJob) && QueueTakes(t)
  {
    ValidOfMatches(t);
    IdlePoolHasRoom(t);
    hide PoolMatches, ValidPool;
  }

  lemma FailedStartShape(s: Core)
    requires Inv(s) && SubmitEnabled(s, DeinitStart(false)) && s.owner.start && s.posting.NotPosting?
    ensures ValidPool(s.pool)
    ensures var t := SubmitNext(s, DeinitStart(false));
            && Shape(t) && PoolMatches(t.pool, Live(t)) && t.service.NoTask? && t.posting.NotPosting?
            && t.queue == [] && t.ctx.state == s.owner.previous && ServiceLost(t)
  {
    ValidOfInv(s);
    ShapeKept(s, OfSubmit(DeinitStart(false)));
    PoolKept(s, OfSubmit(DeinitStart(false)));
    OwnerStarts(s);
    StartHasLock(s);
    hide Inv, Shape, PoolMatches, Live, Drained;
  }

  lemma StartHasLock(s: Core)
    requires Shape(s) && !s.owner.NoOwner?
    ensures s.has.lock
  {
  }

  /** After a failed start a connect is taken and queued as if nothing had happened. */
  lemma FailedStartLeavesNoService(s: Core)
    requires Inv(s) && SubmitEnabled(s, DeinitStart(false)) && s.owner.start && s.posting.NotPosting? && s.owner.previous.Ready?
    ensures ValidPool(s.pool)
    ensures var t := SubmitNext(s, DeinitStart(false));
            && ServiceLost(t) && t.ctx.state.Ready? && t.queue == [] && t.pool.free != []
            && PosterEnabled(t, BeginPost(ConnectJob)) && ValidPool(t.pool)
            && PosterNext(t, BeginPost(ConnectJob)) == Take(t, ConnectJob) && QueueTakes(t)
  {
    FailedStartShape(s);
    hide Inv, Shape, PoolMatches, ServiceLost, SubmitNext, Take, QueueTakes;
    LostTakesPosts(SubmitNext(s, DeinitStart(false)));
  }

  lemma ValidOfMatches(s: Core)
    requires PoolMatches(s.pool, Live(s))
    ensures ValidPool(s.pool)
  {
  }
}
