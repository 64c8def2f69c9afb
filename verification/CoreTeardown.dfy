/** When a core whose service is gone can still be torn down, be it for the first time or by a retry. */
module CoreTeardown {
  import opened JobPool
  import opened CoreLifecycle
  import opened CoreRetry

  predicate TearsDown(s: Core, states: seq<Core>, events: seq<Event>) {
    Path(states, events) && states[0] == s && events != [] && events[|events| - 1] == OfFinish(DestroyLock(true))
  }

  /** Some run from here releases the lock, whatever its steps and however many attempts it takes. */
  ghost predicate CanTearDown(s: Core) {
    exists states, events :: TearsDown(s, states, events)
  }

  /** The pool entries no queued job holds; a post in progress can still give its own back. */
  function Entries(s: Core): nat {
    |s.pool.free| + if s.posting.Posting? then 1 else 0
  }

  function Places(s: Core): int {
    s.depth - |s.queue|
  }

  /** How many teardown jobs have to be queued before one is executed: a service that has ended or failed
      but is not yet joined costs a whole attempt, whose job stays in the queue. */
  function Needed(service: Service): nat {
    if service.NoTask? then 1 else 2
  }

  // ---------------------------------------------------------------- for ever

  /** The jobs still to be queued, also in the middle of an attempt. */
  function StillNeeded(s: Core): nat {
    if s.owner.Claimed? && s.owner.submit then Needed(s.service)
    else if s.owner.NoOwner? && Restorable(s.ctx.state) then Needed(s.service)
    else 1
  }

  /** Neither a new teardown nor a retry is let in. */
  predicate Refused(s: Core) {
    s.owner.NoOwner? && !Restorable(s.ctx.state) && !(s.ctx.state.Deinit? && s.ctx.pending)
  }

  predicate Short(s: Core) {
    Refused(s) || Entries(s) < StillNeeded(s) || Places(s) < StillNeeded(s)
  }

  predicate JobSucceeded(s: Core) {
    s.ctx.jobDone && s.ctx.jobOk
  }

  /** No attempt, whether it is new or resumed, gets a service to execute its job. */
  predicate Doomed(s: Core) {
    && s.has.lock && Gone(s.service) && s.ctx.phase.PhaseJob?
    && (!s.owner.NoOwner? ==> s.ctx.state.Deinit?)
    && (s.ctx.pending && s.ctx.state.Deinit? ==> !JobSucceeded(s))
    && (s.owner.Submitted? ==> !s.owner.start)
    && (s.owner.Claimed? && s.owner.submit ==> (s.owner.start <==> s.service.NoTask?))
    && Short(s)
  }

  lemma DoomedPosts(s: Core, e: PosterEvent)
    requires Shape(s) && ValidPool(s.pool) && Doomed(s) && PosterEnabled(s, e)
    ensures Doomed(PosterNext(s, e))
  {
    hide ValidPool;
  }

  lemma DoomedSubmits(s: Core, e: SubmitEvent)
    requires Shape(s) && ValidPool(s.pool) && Doomed(s) && SubmitEnabled(s, e)
    ensures Doomed(SubmitNext(s, e))
  {
    hide ValidPool, Drained;
  }

  lemma DoomedFinishes(s: Core, e: FinishEvent)
    requires Shape(s) && Doomed(s) && FinishEnabled(s, e)
    ensures !e.DestroyLock? && Doomed(FinishNext(s, e))
  {
    hide Drained;
  }

  lemma DoomedMarkAside(t: Core, b: bool)
    ensures Doomed(t.(faulted := b)) == Doomed(t)
  {
  }

  lemma DoomedStep(s: Core, e: Event)
    requires Inv(s) && Doomed(s) && Enabled(s, e)
    ensures ValidPool(s.pool) && Doomed(Next(s, e)) && e != OfFinish(DestroyLock(true))
  {
    ValidOfInv(s);
    DoomedMarkAside(StepOf(s, e), s.faulted || Faults(s, e));
    hide Shape, PoolMatches, ValidPool, Order, InSequence, PosterNext, SubmitNext, FinishNext;
    hide PosterEnabled, SubmitEnabled, FinishEnabled, Faults, Short;
    match e
    case OfPoster(p) => DoomedPosts(s, p);
    case OfService(_) =>
    case OfSubmit(m) => DoomedSubmits(s, m);
    case OfFinish(f) => DoomedFinishes(s, f);
  }

  lemma {:induction false} DoomedForEver(states: seq<Core>, events: seq<Event>, n: nat)
    requires Path(states, events) && n < |states| && Inv(states[0]) && Doomed(states[0])
    ensures Inv(states[n]) && Doomed(states[n])
    ensures forall i | 0 <= i < n :: events[i] != OfFinish(DestroyLock(true))
  {
    hide Inv, Next, Enabled, ValidPool, Doomed;
    if n > 0 {
      DoomedForEver(states, events, n - 1);
      assert Moves(states[n - 1], events[n - 1], states[n]);
      StepInv(states[n - 1], events[n - 1]);
      DoomedStep(states[n - 1], events[n - 1]);
    }
  }

  lemma NeverTornDown(s: Core)
    requires Inv(s) && Doomed(s)
    ensures !CanTearDown(s)
  {
    hide Inv, Doomed, Moves;
    forall states, events | TearsDown(s, states, events)
      ensures false
    {
      DoomedForEver(states, events, |events|);
    }
  }

  // ---------------------------------------------------------------- one attempt, or two

  /** Backwards along a run. */
  lemma Onward(s: Core, e: Event)
    requires Inv(s) && Enabled(s, e)
    requires ValidPool(s.pool) && CanTearDown(Next(s, e))
    ensures CanTearDown(s)
  {
    hide Inv, Enabled, ValidPool, Next;
    var t := Next(s, e);
    var states, events :| TearsDown(t, states, events);
    var longer, more := [s] + states, [e] + events;
    forall i | 0 <= i < |more|
      ensures Moves(longer[i], more[i], longer[i + 1])
    {
      if i > 0 { assert Moves(states[i - 1], events[i - 1], states[i]); }
    }
    assert TearsDown(s, longer, more);
  }

  predicate ReleasesFrom(s: Core, phase: TeardownPhase) {
    Inv(s) && s.owner.Finalizing? && s.ctx.phase == phase
  }

  lemma LockReleased(s: Core)
    requires ReleasesFrom(s, PhaseLock)
    ensures CanTearDown(s)
  {
    ValidOfInv(s);
    var e := OfFinish(DestroyLock(true));
    assert Moves(s, e, Next(s, e));
    hide Inv, Next, Enabled;
    assert TearsDown(s, [s, Next(s, e)], [e]);
  }

  lemma PoolReleased(s: Core)
    requires ReleasesFrom(s, PhasePool)
    ensures CanTearDown(s)
  {
    hide Inv, ValidPool, CanTearDown, Faults;
    ValidOfInv(s);
    var e := OfFinish(DestroyPool(true));
    StepInv(s, e);
    LockReleased(Next(s, e));
    Onward(s, e);
  }

  lemma QueueReleased(s: Core)
    requires ReleasesFrom(s, PhaseQueue)
    ensures CanTearDown(s)
  {
    hide Inv, ValidPool, CanTearDown, Faults, Drained;
    ValidOfInv(s);
    var e := OfFinish(CloseQueue(true));
    StepInv(s, e);
    PoolReleased(Next(s, e));
    Onward(s, e);
  }

  lemma ResultAccepted(s: Core)
    requires Inv(s) && s.owner.Checking? && s.posting.NotPosting? && s.ctx.jobDone && s.ctx.jobOk
    ensures CanTearDown(s)
  {
    hide Inv, ValidPool, CanTearDown, Faults;
    ValidOfInv(s);
    var e := OfFinish(CheckResult);
    StepInv(s, e);
    QueueReleased(Next(s, e));
    Onward(s, e);
  }

  /** The service, once it runs, comes to a teardown's job; until then every other job may fail. */
  predicate Serving(s: Core) {
    && s.owner.Joining? && s.posting.NotPosting?
    && match s.service
       case Looping => !NoDeinitQueued(s.queue)
       case Running(job) => job.kind.DeinitJob? || !NoDeinitQueued(s.queue)
       case Executed(job, ok) => if job.kind.DeinitJob? then ok else !NoDeinitQueued(s.queue)
       case Completing(job) => if job.kind.DeinitJob? then s.ctx.jobDone && s.ctx.jobOk else !NoDeinitQueued(s.queue)
       case Releasing(job) => if job.kind.DeinitJob? then s.ctx.jobDone && s.ctx.jobOk else !NoDeinitQueued(s.queue)
       case Calling(job) => if job.kind.DeinitJob? then s.ctx.jobDone && s.ctx.jobOk else !NoDeinitQueued(s.queue)
       case Ended => s.ctx.jobDone && s.ctx.jobOk
       case NoTask => false
       case Broken => false
  }

  function ServiceTurn(service: Service): ServiceEvent
    requires Busy(service) || service.Looping?
  {
    match service
    case Looping => Dequeue
    case Running(job) => Execute(job.kind.DeinitJob?, false)
    case Executed(_, _) => Complete
    case Completing(_) => Release
    case Releasing(_) => CallBack
    case Calling(_) => Return
  }

  function TurnsLeft(service: Service): nat {
    match service
    case Running(_) => 6
    case Executed(_, _) => 5
    case Completing(_) => 4
    case Releasing(_) => 3
    case Calling(_) => 2
    case Looping => 1
    case _ => 0
  }

  lemma ServingTurn(s: Core)
    requires Serving(s) && !s.service.Ended?
    ensures ServiceEnabled(s, ServiceTurn(s.service))
    ensures var t := ServiceNext(s, ServiceTurn(s.service));
            Serving(t) && (|t.queue| < |s.queue| || (|t.queue| == |s.queue| && TurnsLeft(t.service) < TurnsLeft(s.service)))
  {
    hide GivenBack, Effect;
  }

  lemma ServingMarkAside(t: Core, b: bool)
    ensures Serving(t.(faulted := b)) == Serving(t)
  {
  }

  lemma {:induction false} Served(s: Core)
    requires Inv(s) && Serving(s)
    ensures CanTearDown(s)
    decreases |s.queue|, TurnsLeft(s.service)
  {
    hide Inv, ValidPool, CanTearDown, Faults, Serving, ServiceNext;
    ValidOfInv(s);
    if s.service.Ended? {
      ServedJoins(s);
    } else {
      ServingTurn(s);
      var e := OfService(ServiceTurn(s.service));
      StepInv(s, e);
      ServingMarkAside(StepOf(s, e), s.faulted || Faults(s, e));
        Served(Next(s, e));
      Onward(s, e);
    }
  }

  lemma ServedJoins(s: Core)
    requires Inv(s) && Serving(s) && s.service.Ended?
    ensures CanTearDown(s)
  {
    hide Inv, ValidPool, CanTearDown, Faults;
    ValidOfInv(s);
    var e := OfFinish(Join);
    StepInv(s, e);
    ResultAccepted(Next(s, e));
    Onward(s, e);
  }

  lemma ServiceStarted(s: Core)
    requires Inv(s) && s.owner.Submitted? && s.owner.start && s.posting.NotPosting? && !NoDeinitQueued(s.queue)
    ensures CanTearDown(s)
  {
    hide Inv, ValidPool, CanTearDown, Faults;
    ValidOfInv(s);
    var e := OfSubmit(DeinitStart(true));
    StepInv(s, e);
    Served(Next(s, e));
    Onward(s, e);
  }

  lemma JobQueued(s: Core)
    requires Inv(s) && s.owner.Claimed? && s.owner.start && s.posting.Posting? && QueueTakes(s)
    ensures CanTearDown(s)
  {
    hide Inv, ValidPool, CanTearDown, Faults;
    ValidOfInv(s);
    PostsItsJob(s);
    var e := OfSubmit(DeinitEnqueue(true));
    StepInv(s, e);
    assert Next(s, e).queue[|s.queue|].kind.DeinitJob?;
    ServiceStarted(Next(s, e));
    Onward(s, e);
  }

  lemma PostsItsJob(s: Core)
    requires Inv(s) && s.owner.Claimed? && s.posting.Posting?
    ensures s.posting.kind.DeinitJob?
  {
    hide PoolMatches, Order, InSequence;
  }

  lemma EntryTaken(s: Core)
    requires Inv(s) && s.owner.Claimed? && s.owner.submit && s.owner.start && s.posting.NotPosting? && s.pool.free != [] && QueueTakes(s)
    ensures CanTearDown(s)
  {
    hide Inv, ValidPool, CanTearDown, Faults;
    ValidOfInv(s);
    var e := OfSubmit(DeinitAlloc);
    StepInv(s, e);
    JobQueued(Next(s, e));
    Onward(s, e);
  }

  /** A core without a service, before an attempt or between two. */
  predicate Unserved(s: Core) {
    && Inv(s) && s.has.lock && s.owner.NoOwner? && s.posting.NotPosting? && s.service.NoTask? && s.ctx.phase.PhaseJob?
    && (Restorable(s.ctx.state) || (s.ctx.pending && s.ctx.state.Deinit? && !JobSucceeded(s)))
    && s.pool.free != [] && QueueTakes(s)
  }

  lemma UnservedClaims(s: Core)
    requires Unserved(s)
    ensures var t := AfterClaim(s);
            && t.owner.Claimed? && t.owner.submit && t.owner.start && t.posting.NotPosting?
            && t.pool == s.pool && QueueTakes(t)
  {
    hide PoolMatches, Order, InSequence;
  }

  lemma OneAttempt(s: Core)
    requires Unserved(s)
    ensures CanTearDown(s)
  {
    hide Inv, ValidPool, CanTearDown, Faults, AfterClaim;
    ValidOfInv(s);
    UnservedClaims(s);
    var e := OfSubmit(Claim);
    StepInv(s, e);
    EntryTaken(Next(s, e));
    Onward(s, e);
  }

  /** An attempt whose job no service will execute. */
  predicate Wasted(s: Core) {
    && Inv(s) && s.has.lock && s.ctx.pending && s.posting.NotPosting? && s.ctx.state.Deinit? && !JobSucceeded(s)
    && s.ctx.phase.PhaseJob? && s.pool.free != [] && QueueTakes(s)
  }

  lemma WastedChecked(s: Core)
    requires Wasted(s) && s.owner.Checking?
    ensures CanTearDown(s)
  {
    hide Inv, ValidPool, CanTearDown, Faults;
    ValidOfInv(s);
    CheckingIsUnserved(s);
    var e := OfFinish(CheckResult);
    StepInv(s, e);
    OneAttempt(Next(s, e));
    Onward(s, e);
  }

  lemma CheckingIsUnserved(s: Core)
    requires Inv(s) && s.owner.Checking?
    ensures s.service.NoTask?
  {
    hide PoolMatches, Order, InSequence;
  }

  lemma EndedJoined(s: Core)
    requires Wasted(s) && s.owner.Joining? && s.service.Ended?
    ensures CanTearDown(s)
  {
    hide Inv, ValidPool, CanTearDown, Faults;
    ValidOfInv(s);
    var e := OfFinish(Join);
    StepInv(s, e);
    WastedChecked(Next(s, e));
    Onward(s, e);
  }

  lemma FailedJoined(s: Core)
    requires Wasted(s) && s.owner.Joining? && s.service.Broken?
    ensures CanTearDown(s)
  {
    hide Inv, ValidPool, CanTearDown, Faults;
    ValidOfInv(s);
    var e := OfFinish(Join);
    StepInv(s, e);
    OneAttempt(Next(s, e));
    Onward(s, e);
  }

  lemma WastedJoined(s: Core)
    requires Wasted(s) && s.owner.Joining? && (s.service.Ended? || s.service.Broken?)
    ensures CanTearDown(s)
  {
    hide Wasted, CanTearDown;
    if s.service.Ended? { EndedJoined(s); } else { FailedJoined(s); }
  }

  lemma WastedSubmitted(s: Core)
    requires Wasted(s) && s.owner.Submitted? && !s.owner.start && (s.service.Ended? || s.service.Broken?)
    ensures CanTearDown(s)
  {
    hide Inv, ValidPool, CanTearDown, Faults;
    ValidOfInv(s);
    var e := OfSubmit(DeinitStart(true));
    StepInv(s, e);
    WastedJoined(Next(s, e));
    Onward(s, e);
  }

  lemma WastedQueued(s: Core)
    requires Inv(s) && s.has.lock && s.ctx.pending && s.ctx.state.Deinit? && !JobSucceeded(s) && s.ctx.phase.PhaseJob?
    requires s.owner.Claimed? && !s.owner.start && s.posting.Posting? && (s.service.Ended? || s.service.Broken?)
    requires s.pool.free != [] && QueueTakes(s) && |s.queue| + 2 <= s.depth
    ensures CanTearDown(s)
  {
    hide Inv, ValidPool, CanTearDown, Faults;
    ValidOfInv(s);
    var e := OfSubmit(DeinitEnqueue(true));
    StepInv(s, e);
    WastedSubmitted(Next(s, e));
    Onward(s, e);
  }

  lemma WastedTaken(s: Core)
    requires Wasted(s) && s.owner.Claimed? && s.owner.submit && !s.owner.start && (s.service.Ended? || s.service.Broken?)
    requires |s.pool.free| >= 2 && |s.queue| + 2 <= s.depth
    ensures CanTearDown(s)
  {
    hide Inv, ValidPool, CanTearDown, Faults, Allocated;
    ValidOfInv(s);
    var e := OfSubmit(DeinitAlloc);
    StepInv(s, e);
    TopLeaves(s);
    WastedQueued(Next(s, e));
    Onward(s, e);
  }

  lemma TopLeaves(s: Core)
    requires ValidPool(s.pool) && s.pool.free != []
    ensures |Allocated(s.pool).free| == |s.pool.free| - 1
  {
  }

  /** Before an attempt or between two, with a service that has ended or failed and is not joined. */
  predicate Unjoined(s: Core) {
    Idle(s) && (s.service.Ended? || s.service.Broken?) && s.posting.NotPosting? && s.ctx.phase.PhaseJob?
  }

  predicate Idle(s: Core) {
    Inv(s) && s.has.lock && s.owner.NoOwner? && Gone(s.service)
  }

  lemma IdleFacts(s: Core)
    requires Idle(s)
    ensures !s.ctx.callbackActive && !s.ctx.finalizing && (s.ctx.phase.PhaseJob? ==> !s.has.queueClosed) && s.depth > 0
    ensures s.posting.Posting? ==> !s.ctx.pending && s.ctx.phase.PhaseJob?
    ensures !s.ctx.phase.PhaseJob? ==> s.ctx.pending && s.ctx.state.Deinit? && s.service.NoTask?
  {
    hide PoolMatches, Order, InSequence;
  }

  lemma UnjoinedClaims(s: Core)
    requires Unjoined(s) && Restorable(s.ctx.state)
    ensures var t := AfterClaim(s);
            && t.owner.Claimed? && t.owner.submit && !t.owner.start && t.posting.NotPosting? && t.ctx.pending && t.ctx.state.Deinit?
            && !JobSucceeded(t) && t.ctx.phase.PhaseJob? && t.has == s.has && t.service == s.service
            && t.pool == s.pool && t.queue == s.queue && t.depth == s.depth
  {
    IdleFacts(s);
    hide Inv;
  }

  lemma TwoAttempts(s: Core)
    requires Unjoined(s) && Restorable(s.ctx.state) && |s.pool.free| >= 2 && |s.queue| + 2 <= s.depth
    ensures CanTearDown(s)
  {
    hide Inv, ValidPool, CanTearDown, Faults, AfterClaim;
    ValidOfInv(s);
    IdleFacts(s);
    UnjoinedClaims(s);
    var e := OfSubmit(Claim);
    StepInv(s, e);
    WastedTaken(Next(s, e));
    Onward(s, e);
  }

  // ---------------------------------------------------------------- a retry without a job

  /** A claimed retry that has no job to queue. */
  predicate Resumed(s: Core) {
    Inv(s) && s.has.lock && s.ctx.pending && s.owner.Claimed? && !s.owner.submit && s.posting.NotPosting? && s.ctx.state.Deinit?
  }

  lemma RetryClaims(s: Core)
    requires Idle(s) && s.posting.NotPosting? && s.ctx.pending && s.ctx.state.Deinit?
    requires !s.ctx.phase.PhaseJob? || JobSucceeded(s) || !s.service.NoTask?
    ensures AfterClaim(s) == s.(ctx := s.ctx.(finalizing := true), owner := Claimed(false, false, Ready))
  {
    IdleFacts(s);
    hide Inv;
  }

  lemma LaterPhase(s: Core)
    requires Resumed(s) && !s.ctx.phase.PhaseJob?
    ensures CanTearDown(s)
  {
    hide Inv, ValidPool, CanTearDown, Faults;
    ValidOfInv(s);
    var e := OfSubmit(SkipSubmit);
    StepInv(s, e);
    var t := Next(s, e);
    if t.ctx.phase.PhaseQueue? { QueueReleased(t); }
    else if t.ctx.phase.PhasePool? { PoolReleased(t); }
    else { LockReleased(t); }
    Onward(s, e);
  }

  lemma DoneJoined(s: Core)
    requires Inv(s) && s.owner.Joining? && s.posting.NotPosting? && JobSucceeded(s) && (s.service.Ended? || s.service.NoTask?)
    ensures CanTearDown(s)
  {
    hide Inv, ValidPool, CanTearDown, Faults;
    ValidOfInv(s);
    var e := OfFinish(Join);
    StepInv(s, e);
    ResultAccepted(Next(s, e));
    Onward(s, e);
  }

  /** A retry whose job has succeeded, or whose service is still to be joined. */
  lemma {:induction false} Waits(s: Core)
    requires Resumed(s) && s.ctx.phase.PhaseJob? && Gone(s.service)
    requires JobSucceeded(s) || (!s.service.NoTask? && s.pool.free != [] && QueueTakes(s))
    ensures CanTearDown(s)
    decreases s.service.Broken?, 1
  {
    hide Inv, ValidPool, CanTearDown, Faults;
    ValidOfInv(s);
    var e := OfSubmit(SkipSubmit);
    StepInv(s, e);
    var t := Next(s, e);
    if !JobSucceeded(s) { WastedJoined(t); }
    else if s.service.Broken? { BrokenJoined(t); }
    else { DoneJoined(t); }
    Onward(s, e);
  }

  lemma {:induction false} BrokenJoined(s: Core)
    requires Inv(s) && s.has.lock && s.ctx.pending && s.owner.Joining? && s.posting.NotPosting? && JobSucceeded(s) && s.service.Broken?
    requires s.ctx.state.Deinit? && s.ctx.phase.PhaseJob?
    ensures CanTearDown(s)
    decreases true, 0
  {
    hide Inv, ValidPool, CanTearDown, Faults;
    ValidOfInv(s);
    var e := OfFinish(Join);
    StepInv(s, e);
    Retried(Next(s, e));
    Onward(s, e);
  }

  lemma {:induction false} Retried(s: Core)
    requires Idle(s) && s.posting.NotPosting? && s.ctx.pending && s.ctx.state.Deinit?
    requires !s.ctx.phase.PhaseJob? || JobSucceeded(s) || (!s.service.NoTask? && s.pool.free != [] && QueueTakes(s))
    ensures CanTearDown(s)
    decreases s.service.Broken?, 2
  {
    hide Inv, ValidPool, CanTearDown, Faults, AfterClaim;
    ValidOfInv(s);
    RetryClaims(s);
    var e := OfSubmit(Claim);
    StepInv(s, e);
    if s.ctx.phase.PhaseJob? { Waits(Next(s, e)); } else { LaterPhase(Next(s, e)); }
    Onward(s, e);
  }

  // ---------------------------------------------------------------- exactly when

  predicate Room(s: Core, jobs: nat) {
    Entries(s) >= jobs && Places(s) >= jobs
  }

  /** A READY or INIT_FAILED core needs a pool entry and a place in the queue for every job; a pending
      teardown none once its job has succeeded, and one before. */
  predicate Resumable(s: Core) {
    if !s.ctx.phase.PhaseJob? then true
    else if Restorable(s.ctx.state) then Room(s, Needed(s.service))
    else s.ctx.pending && s.ctx.state.Deinit? && (JobSucceeded(s) || Room(s, 1))
  }

  lemma Quiet(s: Core)
    requires Idle(s) && Resumable(s) && s.posting.NotPosting?
    ensures CanTearDown(s)
  {
    IdleFacts(s);
    hide Inv, CanTearDown;
    if !s.ctx.phase.PhaseJob? { Retried(s); }
    else if Restorable(s.ctx.state) {
      if s.service.NoTask? { OneAttempt(s); } else { TwoAttempts(s); }
    }
    else if JobSucceeded(s) || !s.service.NoTask? { Retried(s); }
    else { OneAttempt(s); }
  }

  lemma EntryBack(s: Core)
    requires Inv(s) && s.posting.Posting?
    ensures |GivenBack(s.pool, s.posting.index).free| == |s.pool.free| + 1
  {
    hide Shape, Order, InSequence, ValidPool;
    assert s.posting.index in Live(s);
  }

  lemma Interrupted(s: Core)
    requires Idle(s) && Resumable(s) && s.posting.Posting?
    ensures CanTearDown(s)
  {
    hide Inv, ValidPool, CanTearDown, Faults, GivenBack;
    ValidOfInv(s);
    IdleFacts(s);
    EntryBack(s);
    PosterHasNoJob(s);
    var e := OfPoster(EndPost(false));
    StepInv(s, e);
    Quiet(Next(s, e));
    Onward(s, e);
  }

  lemma PosterHasNoJob(s: Core)
    requires Idle(s) && s.posting.Posting?
    ensures !s.posting.kind.DeinitJob?
  {
    hide PoolMatches, Order, InSequence;
  }

  lemma UnresumableIsDoomed(s: Core)
    requires Idle(s) && !Resumable(s)
    ensures Doomed(s)
  {
    IdleFacts(s);
    hide Inv;
  }

  /** Whatever has happened before: with the service gone, before an attempt or between two, some run ends
      a teardown if and only if the core is resumable in this sense. */
  lemma TearDownIff(s: Core)
    requires Inv(s) && s.has.lock && s.owner.NoOwner? && Gone(s.service)
    ensures CanTearDown(s) <==> Resumable(s)
  {
    hide Inv, CanTearDown, Resumable, Gone;
    if Resumable(s) {
      if s.posting.Posting? { Interrupted(s); } else { Quiet(s); }
    } else {
      UnresumableIsDoomed(s);
      NeverTornDown(s);
    }
  }

  /** A core that has lost its service can be torn down if and only if it is READY or INIT_FAILED and has
      an entry and a place for one job, or for two if the service is still to be joined. */
  lemma LostTearDownIff(s: Core)
    requires Inv(s) && ServiceLost(s)
    ensures CanTearDown(s) <==> Restorable(s.ctx.state) && Entries(s) >= Needed(s.service) && Places(s) >= Needed(s.service)
  {
    LostIsUnowned(s);
    hide Inv, CanTearDown;
    TearDownIff(s);
  }
}
