/** The life of the core: API threads that post jobs, the single service task that executes them,
    and the resumable teardown, as atomic steps under the locks of the source. */
module CoreLifecycle {
  import opened JobPool

  datatype State = Uninit | Initing | InitFailed | Ready | Unregistered | Registered | Deinit

  datatype Kind = InitJob | ConnectJob | DisconnectJob | RegisterJob | SendJob | DeinitJob

  /** A job in flight: a name of its own, its place in the pool, and what it asks for. */
  datatype Job = Job(id: nat, index: nat, kind: Kind)

  datatype TeardownPhase = PhaseJob | PhaseQueue | PhasePool | PhaseLock

  /** The service task: not created or already joined; waiting for a job; executing one; having
      executed it; inside the completion section; job released; in the user callback; returned after
      its teardown job; returned because waiting for a job failed. */
  datatype Service =
    | NoTask
    | Looping
    | Running(job: Job)
    | Executed(job: Job, ok: bool)
    | Completing(job: Job)
    | Releasing(job: Job)
    | Calling(job: Job)
    | Ended
    | Broken

  /** A call that has taken a pool entry and not yet queued it. */
  datatype Posting = NotPosting | Posting(index: nat, kind: Kind)

  /** The thread that owns the teardown attempt, between its locked sections. */
  datatype Owner =
    | NoOwner
    | Claimed(submit: bool, start: bool, previous: State)
    | Submitted(start: bool, previous: State)
    | Joining
    | Checking
    | Finalizing

  /** The flags of the global context. */
  datatype Context = Context(
    state: State,
    pending: bool,
    callbackActive: bool,
    finalizing: bool,
    jobDone: bool,
    jobOk: bool,
    phase: TeardownPhase)

  datatype Resources = Resources(lock: bool, queue: bool, queueClosed: bool, pool: bool)

  /** Beside the program state: the names of the accepted jobs in the order of their acceptance,
      the names of the jobs whose callback was made, and whether one of the failures that void the
      guarantees ever happened (`Faults`). */
  datatype Core = Core(
    ctx: Context,
    has: Resources,
    pool: Pool,
    depth: nat,
    queue: seq<Job>,
    service: Service,
    posting: Posting,
    owner: Owner,
    accepted: seq<nat>,
    called: seq<nat>,
    faulted: bool)

  // ---------------------------------------------------------------- pool bookkeeping

  /** The pool entries the queued jobs occupy. */
  function QueueLive(queue: seq<Job>): multiset<nat> {
    if queue == [] then multiset{} else multiset{queue[0].index} + QueueLive(queue[1..])
  }

  function ServiceLive(service: Service): multiset<nat> {
    if service.Running? || service.Executed? || service.Completing? then multiset{service.job.index} else multiset{}
  }

  function PostingLive(posting: Posting): multiset<nat> {
    if posting.Posting? then multiset{posting.index} else multiset{}
  }

  function Live(s: Core): multiset<nat> {
    QueueLive(s.queue) + ServiceLive(s.service) + PostingLive(s.posting)
  }

  /** Every pool entry has exactly as many references as there are live jobs in it, one at most. */
  predicate PoolMatches(pool: Pool, live: multiset<nat>) {
    && ValidPool(pool)
    && (forall k | k in live :: k < |pool.references|)
    && (forall k | 0 <= k < |pool.references| :: pool.references[k] == live[k] <= 1)
  }

  lemma {:induction false} QueueLiveAppend(queue: seq<Job>, job: Job)
    ensures QueueLive(queue + [job]) == QueueLive(queue) + multiset{job.index}
  {
    if queue == [] {
      assert queue + [job] == [job];
      assert [job][1..] == [];
    } else {
      assert (queue + [job])[1..] == queue[1..] + [job];
      QueueLiveAppend(queue[1..], job);
    }
  }

  lemma AllocMatches(pool: Pool, live: multiset<nat>)
    requires PoolMatches(pool, live) && pool.free != []
    ensures PoolMatches(Allocated(pool), live + multiset{pool.free[|pool.free| - 1]})
  {
    AllocatedValid(pool);
    var top := pool.free[|pool.free| - 1];
    assert pool.references[top] == 0;
  }

  lemma NothingLive(pool: Pool)
    requires PoolMatches(pool, multiset{})
    ensures |pool.free| == |pool.references|
  {
    AllFree(pool);
  }

  /** `actrust_job_release`: a job without references is refused and nothing changes. */
  function GivenBack(pool: Pool, index: nat): Pool {
    if index < |pool.references| && pool.references[index] > 0 then Released(pool, index) else pool
  }

  lemma GivenBackMatches(pool: Pool, live: multiset<nat>, index: nat)
    requires PoolMatches(pool, live) && index in live
    ensures PoolMatches(GivenBack(pool, index), live - multiset{index})
  {
    ReleasedValid(pool, index);
  }

  /** `core_drain_pending_jobs`: give every queued job back to the pool. */
  function Drained(pool: Pool, queue: seq<Job>): Pool
    decreases |queue|
  {
    if queue == [] then pool else Drained(GivenBack(pool, queue[0].index), queue[1..])
  }

  lemma {:induction false} DrainMatches(pool: Pool, queue: seq<Job>, rest: multiset<nat>)
    requires PoolMatches(pool, QueueLive(queue) + rest)
    ensures PoolMatches(Drained(pool, queue), rest)
    decreases |queue|
  {
    hide PoolMatches;
    if queue == [] {
      assert QueueLive(queue) + rest == rest;
    } else {
      var index := queue[0].index;
      GivenBackMatches(pool, QueueLive(queue) + rest, index);
      assert QueueLive(queue) + rest - multiset{index} == QueueLive(queue[1..]) + rest;
      DrainMatches(GivenBack(pool, index), queue[1..], rest);
    }
  }

  // ---------------------------------------------------------------- steps

  /** Steps of API threads: start-up and posting. */
  datatype PosterEvent =
    | Initialise(size: nat, depth: nat)
    | BeginPost(kind: Kind)
    | EndPost(copied: bool)

  /** Steps of the service task. */
  datatype ServiceEvent =
    | Dequeue
    | Execute(ok: bool, registered: bool)
    | Complete
    | Release
    | CallBack
    | Return
    | DequeueFails

  /** Steps of a teardown attempt up to its job being queued and the service running. */
  datatype SubmitEvent =
    | Claim
    | DeinitAlloc
    | DeinitEnqueue(posted: bool)
    | DeinitStart(started: bool)
    | SkipSubmit

  /** The rest of the attempt: wait for the service, then release one resource after the other. */
  datatype FinishEvent =
    | Join
    | JoinFail
    | CheckResult
    | CloseQueue(destroyed: bool)
    | DestroyPool(gone: bool)
    | DestroyLock(freed: bool)

  datatype Event =
    | OfPoster(poster: PosterEvent)
    | OfService(service: ServiceEvent)
    | OfSubmit(submit: SubmitEvent)
    | OfFinish(finish: FinishEvent)

  /** `core_submit_job`: the states in which each verb is accepted. */
  predicate AcceptsIn(kind: Kind, state: State) {
    match kind
    case ConnectJob => state.Ready?
    case DisconnectJob => state.Unregistered? || state.Registered?
    case RegisterJob => state.Unregistered?
    case SendJob => state.Registered?
    case InitJob => false
    case DeinitJob => false
  }

  /** The state a job leaves behind. */
  function Effect(kind: Kind, ok: bool, registered: bool, state: State): State {
    match kind
    case InitJob => if ok then Ready else InitFailed
    case ConnectJob => if !ok then state else if registered then Registered else Unregistered
    case DisconnectJob => if ok then Ready else state
    case RegisterJob => if ok then Registered else state
    case SendJob => state
    case DeinitJob => Deinit
  }

  /** Nobody holds the lifecycle lock across the locked sections modelled as several steps. */
  predicate LifecycleFree(s: Core) {
    s.posting.NotPosting? && !s.owner.Finalizing?
  }

  predicate PosterEnabled(s: Core, e: PosterEvent) {
    match e
    case Initialise(size, depth) => !s.has.lock && s.ctx.state.Uninit? && size > 0 && depth > 0
    case BeginPost(kind) => s.has.lock && LifecycleFree(s) && !kind.InitJob? && !kind.DeinitJob?
    case EndPost(_) => s.posting.Posting? && !s.posting.kind.DeinitJob?
  }

  predicate ServiceEnabled(s: Core, e: ServiceEvent) {
    match e
    case Dequeue => s.service.Looping? && s.queue != []
    case Execute(_, _) => s.service.Running?
    case Complete => s.service.Executed?
    case Release => s.service.Completing?
    case CallBack => s.service.Releasing?
    case Return => s.service.Calling?
    case DequeueFails => s.service.Looping?
  }

  predicate SubmitEnabled(s: Core, e: SubmitEvent) {
    match e
    case Claim => s.has.lock && LifecycleFree(s)
    case DeinitAlloc => s.owner.Claimed? && s.owner.submit && s.posting.NotPosting?
    case DeinitEnqueue(_) => s.owner.Claimed? && s.posting.Posting?
    case DeinitStart(_) => s.owner.Submitted?
    case SkipSubmit => s.owner.Claimed? && !s.owner.submit
  }

  predicate FinishEnabled(s: Core, e: FinishEvent) {
    match e
    case Join => s.owner.Joining? && (s.service.Ended? || s.service.Broken? || s.service.NoTask?)
    case JoinFail => s.owner.Joining? && !s.service.NoTask?
    case CheckResult => s.owner.Checking? && LifecycleFree(s)
    case CloseQueue(_) => s.owner.Finalizing? && s.ctx.phase.PhaseQueue?
    case DestroyPool(_) => s.owner.Finalizing? && s.ctx.phase.PhasePool?
    case DestroyLock(_) => s.owner.Finalizing? && s.ctx.phase.PhaseLock?
  }

  predicate Enabled(s: Core, e: Event) {
    match e
    case OfPoster(p) => PosterEnabled(s, p)
    case OfService(v) => ServiceEnabled(s, v)
    case OfSubmit(m) => SubmitEnabled(s, m)
    case OfFinish(f) => FinishEnabled(s, f)
  }

  /** `core_deinit_restore_state`. */
  function Restored(s: Core, previous: State): Core {
    s.(ctx := s.ctx.(state := previous, pending := false, finalizing := false, jobDone := false, jobOk := true, phase := PhaseJob),
       owner := NoOwner)
  }

  function GiveUp(s: Core): Core {
    s.(ctx := s.ctx.(finalizing := false), owner := NoOwner)
  }

  function Take(s: Core, kind: Kind): Core
    requires ValidPool(s.pool) && s.pool.free != []
  {
    s.(pool := Allocated(s.pool), posting := Posting(s.pool.free[|s.pool.free| - 1], kind))
  }

  predicate QueueTakes(s: Core) {
    !s.has.queueClosed && |s.queue| < s.depth
  }

  function Enqueued(s: Core): Core
    requires s.posting.Posting?
  {
    s.(queue := s.queue + [Job(|s.accepted|, s.posting.index, s.posting.kind)],
       accepted := s.accepted + [|s.accepted|],
       posting := NotPosting)
  }

  function Untaken(s: Core): Core
    requires s.posting.Posting?
  {
    s.(pool := GivenBack(s.pool, s.posting.index), posting := NotPosting)
  }

  function DrainAll(s: Core): Core {
    s.(pool := Drained(s.pool, s.queue), queue := [])
  }

  function InitialisedCore(s: Core, size: nat, depth: nat): Core
    requires size > 0
  {
    NewPoolValid(size);
    var pool := NewPool(size);
    s.(ctx := s.ctx.(state := Initing),
       has := Resources(true, true, false, true),
       pool := Allocated(pool),
       depth := depth,
       queue := [Job(|s.accepted|, size - 1, InitJob)],
       accepted := s.accepted + [|s.accepted|],
       service := Looping)
  }

  /** The claim section of `actrust_deinit`. */
  function AfterClaim(s: Core): Core {
    if s.ctx.callbackActive || s.ctx.finalizing then s
    else if s.ctx.state.Ready? || s.ctx.state.InitFailed? then
      s.(ctx := s.ctx.(pending := true, jobDone := false, jobOk := true, phase := PhaseJob, state := Deinit,
                       finalizing := true),
         owner := Claimed(true, s.service.NoTask?, s.ctx.state))
    else if !s.ctx.state.Deinit? || !s.ctx.pending then s
    else
      var submit := s.ctx.phase.PhaseJob? && s.service.NoTask? && (!s.ctx.jobDone || !s.ctx.jobOk);
      s.(ctx := s.ctx.(finalizing := true), owner := Claimed(submit, submit, Ready))
  }

  function PosterNext(s: Core, e: PosterEvent): Core
    requires PosterEnabled(s, e) && ValidPool(s.pool)
  {
    match e
    case Initialise(size, depth) => InitialisedCore(s, size, depth)
    case BeginPost(kind) =>
      if s.ctx.pending || !AcceptsIn(kind, s.ctx.state) || s.pool.free == [] then s else Take(s, kind)
    case EndPost(copied) =>
      if copied && QueueTakes(s) then Enqueued(s) else Untaken(s)
  }

  function ServiceNext(s: Core, e: ServiceEvent): Core
    requires ServiceEnabled(s, e)
  {
    match e
    case Dequeue => s.(service := Running(s.queue[0]), queue := s.queue[1..])
    case Execute(ok, registered) =>
      var job := s.service.job;
      s.(ctx := s.ctx.(state := Effect(job.kind, ok, registered, s.ctx.state)), service := Executed(job, ok))
    case Complete =>
      var job, ok := s.service.job, s.service.ok;
      var s1 := s.(ctx := s.ctx.(callbackActive := true), service := Completing(job));
      if job.kind.DeinitJob? then s1.(ctx := s1.ctx.(jobDone := true, jobOk := ok)) else s1
    case Release =>
      s.(service := Releasing(s.service.job), pool := GivenBack(s.pool, s.service.job.index))
    case CallBack => s.(service := Calling(s.service.job), called := s.called + [s.service.job.id])
    case Return =>
      s.(ctx := s.ctx.(callbackActive := false), service := if s.service.job.kind.DeinitJob? then Ended else Looping)
    case DequeueFails => s.(service := Broken)
  }

  function SubmitNext(s: Core, e: SubmitEvent): Core
    requires SubmitEnabled(s, e) && ValidPool(s.pool)
  {
    match e
    case Claim => AfterClaim(s)
    case DeinitAlloc => if s.pool.free == [] then Restored(s, s.owner.previous) else Take(s, DeinitJob)
    case DeinitEnqueue(posted) =>
      if posted && QueueTakes(s) then Enqueued(s).(owner := Submitted(s.owner.start, s.owner.previous))
      else Restored(Untaken(s), s.owner.previous)
    case DeinitStart(ok) =>
      if !s.owner.start then s.(owner := Joining)
      else if ok then s.(service := Looping, owner := Joining)
      else Restored(DrainAll(s), s.owner.previous)
    case SkipSubmit => s.(owner := if s.ctx.phase.PhaseJob? then Joining else Finalizing)
  }

  function FinishNext(s: Core, e: FinishEvent): Core
    requires FinishEnabled(s, e)
  {
    match e
    case Join => if s.service.Broken? then GiveUp(s).(service := NoTask) else s.(service := NoTask, owner := Checking)
    case JoinFail => GiveUp(s)
    case CheckResult =>
      if !s.ctx.jobDone || !s.ctx.jobOk then GiveUp(s) else s.(ctx := s.ctx.(phase := PhaseQueue), owner := Finalizing)
    case CloseQueue(destroyed) =>
      var s1 := DrainAll(s).(has := s.has.(queueClosed := true));
      if destroyed then s1.(ctx := s1.ctx.(phase := PhasePool), has := s1.has.(queue := false)) else GiveUp(s1)
    case DestroyPool(ok) =>
      if ok then s.(ctx := s.ctx.(phase := PhaseLock), has := s.has.(pool := false)) else GiveUp(s)
    case DestroyLock(ok) =>
      if ok then
        s.(ctx := s.ctx.(state := Uninit, pending := false, finalizing := false, jobDone := false, jobOk := true,
                         phase := PhaseJob),
           has := s.has.(lock := false),
           owner := NoOwner)
      else GiveUp(s)
  }

  function StepOf(s: Core, e: Event): Core
    requires Enabled(s, e) && ValidPool(s.pool)
  {
    match e
    case OfPoster(p) => PosterNext(s, p)
    case OfService(v) => ServiceNext(s, v)
    case OfSubmit(m) => SubmitNext(s, m)
    case OfFinish(f) => FinishNext(s, f)
  }

  /** A teardown claimed as a new one over one that is still pending. That takes a failed join, and a
      job left in the queue that has made the core READY since. */
  predicate Reclaims(s: Core) {
    s.ctx.pending && !s.ctx.callbackActive && !s.ctx.finalizing && (s.ctx.state.Ready? || s.ctx.state.InitFailed?)
  }

  /** The failures that void the guarantees: the service's wait for a job fails; a retried teardown
      cannot queue its job or start the service; a pending teardown is claimed over. A failed join is
      not among them. */
  predicate Faults(s: Core, e: Event)
    requires Enabled(s, e)
  {
    match e
    case OfService(v) => v.DequeueFails?
    case OfSubmit(m) =>
      || (m.Claim? && Reclaims(s))
      || (m.DeinitEnqueue? && s.owner.start && !(m.posted && QueueTakes(s)))
      || (m == DeinitStart(false) && s.owner.start)
    case _ => false
  }

  function Next(s: Core, e: Event): Core
    requires Enabled(s, e) && ValidPool(s.pool)
  {
    StepOf(s, e).(faulted := s.faulted || Faults(s, e))
  }

  // ---------------------------------------------------------------- invariants

  predicate Restorable(state: State) {
    state.Ready? || state.InitFailed?
  }

  predicate OwnerShape(s: Core) {
    match s.owner
    case NoOwner => true
    case Claimed(submit, start, previous) =>
      Restorable(previous) && (submit ==> s.ctx.phase.PhaseJob?) && (start ==> submit && s.service.NoTask?)
    case Submitted(start, previous) => Restorable(previous) && s.ctx.phase.PhaseJob? && (start ==> s.service.NoTask?)
    case Joining => s.ctx.phase.PhaseJob?
    case Checking => s.ctx.phase.PhaseJob? && s.service.NoTask?
    case Finalizing => !s.ctx.phase.PhaseJob?
  }

  predicate Busy(service: Service) {
    !service.NoTask? && !service.Looping? && !service.Ended? && !service.Broken?
  }

  predicate DoingDeinit(service: Service) {
    service.Ended? || (Busy(service) && service.job.kind.DeinitJob?)
  }

  predicate DoneDeinit(service: Service) {
    DoingDeinit(service) && !service.Running?
  }

  /** Flags, phases and resources: reaching a teardown phase implies that everything before it is
      gone, and a core without its lock is exactly an uninitialised one. */
  predicate Shape(s: Core) {
    && (s.ctx.state.Uninit? <==> !s.has.lock)
    && (!s.has.lock ==> !s.ctx.pending && !s.ctx.jobDone && s.ctx.jobOk && !s.has.queue && !s.has.pool)
    && (!s.has.lock ==> s.service.NoTask? && s.queue == [] && s.posting.NotPosting?)
    && (s.ctx.finalizing <==> !s.owner.NoOwner?)
    && (s.ctx.finalizing ==> s.ctx.pending)
    && (!s.ctx.pending ==> s.ctx.phase.PhaseJob?)
    && (s.has.lock ==> (s.has.queue <==> s.ctx.phase.PhaseJob? || s.ctx.phase.PhaseQueue?))
    && (s.has.lock ==> (s.has.pool <==> !s.ctx.phase.PhaseLock?))
    && (s.has.lock && s.has.queueClosed ==> !s.ctx.phase.PhaseJob?)
    && (!s.ctx.phase.PhaseJob? ==> s.service.NoTask? && s.ctx.state.Deinit?)
    && (s.ctx.phase.PhasePool? || s.ctx.phase.PhaseLock? ==> s.queue == [])
    && (s.ctx.finalizing && s.service.NoTask? ==> s.ctx.state.Deinit?)
    && (s.ctx.finalizing && DoneDeinit(s.service) ==> s.ctx.state.Deinit?)
    && (s.posting.Posting? ==>
          if s.posting.kind.DeinitJob? then s.owner.Claimed? && s.owner.submit else !s.ctx.pending)
    && (s.ctx.callbackActive <==> s.service.Completing? || s.service.Releasing? || s.service.Calling?)
    && (s.has.lock ==> |s.pool.references| > 0 && s.depth > 0)
    && OwnerShape(s)
  }

  predicate NoDeinitQueued(queue: seq<Job>) {
    forall i | 0 <= i < |queue| :: !queue[i].kind.DeinitJob?
  }

  predicate DeinitLast(queue: seq<Job>) {
    queue == [] || NoDeinitQueued(queue[..|queue| - 1])
  }

  function Uncalled(service: Service): seq<nat> {
    if Busy(service) && !service.Calling? then [service.job.id] else []
  }

  function Ids(queue: seq<Job>): seq<nat> {
    seq(|queue|, i requires 0 <= i < |queue| => queue[i].id)
  }

  /** Callbacks happen once each, in acceptance order; the names are all different. */
  predicate InSequence(s: Core) {
    && s.accepted == s.called + Uncalled(s.service) + Ids(s.queue)
    && (forall i | 0 <= i < |s.accepted| :: s.accepted[i] == i)
  }

  /** While nothing voids the guarantees, a teardown job is the last job there is, the service lives
      until it has executed it, and a pending teardown with a living service has its job on the way. */
  predicate Order(s: Core) {
    && DeinitLast(s.queue)
    && (DoingDeinit(s.service) ==> s.queue == [])
    && (!s.ctx.pending ==> NoDeinitQueued(s.queue) && !DoingDeinit(s.service))
    && (s.owner.Claimed? && s.owner.submit ==> NoDeinitQueued(s.queue) && !DoingDeinit(s.service))
    && (s.has.lock && !s.ctx.pending ==> !s.service.NoTask?)
    && !s.service.Broken?
    && (s.ctx.pending && s.service.NoTask? ==> s.ctx.state.Deinit?)
    && (s.ctx.pending && (!s.service.NoTask? || s.owner.Submitted?) && !(s.owner.Claimed? && s.owner.submit) ==>
          !NoDeinitQueued(s.queue) || DoingDeinit(s.service))
    && (s.owner.Claimed? && s.owner.submit && s.service.NoTask? ==> s.owner.start)
    && (s.service.NoTask? ==> s.queue == [] || (s.owner.Submitted? && s.owner.start && |s.queue| == 1))
    && (s.owner.Submitted? && s.owner.start ==> s.service.NoTask? && s.owner.previous.Ready?)
    && (s.owner.Claimed? && s.owner.start ==> s.owner.previous.Ready?)
  }

  predicate Inv(s: Core) {
    && Shape(s)
    && PoolMatches(s.pool, Live(s))
    && (!s.faulted ==> Order(s) && InSequence(s))
  }

  function Start(): Core {
    Core(Context(Uninit, false, false, false, false, true, PhaseJob), Resources(false, false, false, false), Pool([], []), 0,
         [], NoTask, NotPosting, NoOwner, [], [], false)
  }

  lemma StartInv()
    ensures Inv(Start())
  {
  }

  // ---------------------------------------------------------------- every step keeps them

  lemma NewPoolMatches(size: nat)
    requires size > 0
    ensures ValidPool(NewPool(size)) && PoolMatches(Allocated(NewPool(size)), multiset{size - 1})
  {
    NewPoolValid(size);
    AllocMatches(NewPool(size), multiset{});
    hide ValidPool, PoolMatches;
    assert NewPool(size).free[size - 1] == size - 1;
  }

  lemma InitialPool(s: Core, size: nat, depth: nat)
    requires Shape(s) && PosterEnabled(s, Initialise(size, depth))
    ensures PoolMatches(InitialisedCore(s, size, depth).pool, Live(InitialisedCore(s, size, depth)))
  {
    hide ValidPool, PoolMatches;
    NewPoolMatches(size);
    var job := Job(|s.accepted|, size - 1, InitJob);
    assert [job][1..] == [];
    assert QueueLive([job]) == multiset{size - 1};
  }

  lemma TakeMatches(s: Core, kind: Kind)
    requires PoolMatches(s.pool, Live(s)) && s.pool.free != [] && s.posting.NotPosting?
    ensures PoolMatches(Take(s, kind).pool, Live(Take(s, kind)))
  {
    AllocMatches(s.pool, Live(s));
    assert Live(Take(s, kind)) == Live(s) + multiset{s.pool.free[|s.pool.free| - 1]};
  }

  lemma EnqueuedMatches(s: Core)
    requires PoolMatches(s.pool, Live(s)) && s.posting.Posting?
    ensures PoolMatches(Enqueued(s).pool, Live(Enqueued(s)))
  {
    hide PoolMatches, QueueLive;
    var t := Enqueued(s);
    QueueLiveAppend(s.queue, t.queue[|s.queue|]);
    assert Live(t) == Live(s);
  }

  lemma UntakenMatches(s: Core)
    requires PoolMatches(s.pool, Live(s)) && s.posting.Posting?
    ensures PoolMatches(Untaken(s).pool, Live(Untaken(s)))
  {
    hide PoolMatches, QueueLive;
    GivenBackMatches(s.pool, Live(s), s.posting.index);
    assert Live(Untaken(s)) == Live(s) - multiset{s.posting.index};
  }

  lemma DrainAllMatches(s: Core)
    requires PoolMatches(s.pool, Live(s))
    ensures PoolMatches(DrainAll(s).pool, Live(DrainAll(s)))
  {
    hide PoolMatches;
    var rest := ServiceLive(s.service) + PostingLive(s.posting);
    assert Live(s) == QueueLive(s.queue) + rest;
    DrainMatches(s.pool, s.queue, rest);
    assert Live(DrainAll(s)) == rest;
  }

  lemma PosterPool(s: Core, e: PosterEvent)
    requires Shape(s) && PoolMatches(s.pool, Live(s)) && PosterEnabled(s, e) && ValidPool(s.pool)
    ensures PoolMatches(PosterNext(s, e).pool, Live(PosterNext(s, e)))
  {
    hide PoolMatches, Live, Shape, ValidPool, Take, Enqueued, Untaken, InitialisedCore;
    match e
    case Initialise(size, depth) =>
      InitialPool(s, size, depth);
    case BeginPost(kind) =>
      if s.pool.free != [] { TakeMatches(s, kind); }
    case EndPost(copied) =>
      if copied && QueueTakes(s) { EnqueuedMatches(s); } else { UntakenMatches(s); }
  }

  lemma ReleasingPool(s: Core)
    requires PoolMatches(s.pool, Live(s)) && ServiceEnabled(s, Release)
    ensures PoolMatches(ServiceNext(s, Release).pool, Live(ServiceNext(s, Release)))
  {
    hide PoolMatches, Live, GivenBack;
    ReleaseLive(s, ServiceNext(s, Release));
    GivenBackMatches(s.pool, Live(s), s.service.job.index);
  }

  lemma PlainPool(s: Core, e: ServiceEvent)
    requires ServiceEnabled(s, e) && (e.Execute? || e.CallBack? || e.Return? || e.DequeueFails?)
    ensures ServiceNext(s, e).pool == s.pool && Live(ServiceNext(s, e)) == Live(s)
  {
    hide Live, Effect;
    SameLive(s, ServiceNext(s, e));
  }

  lemma CompletingPool(s: Core)
    requires ServiceEnabled(s, Complete)
    ensures ServiceNext(s, Complete).pool == s.pool && Live(ServiceNext(s, Complete)) == Live(s)
  {
    hide Live;
    SameLive(s, ServiceNext(s, Complete));
  }

  lemma DequeuingPool(s: Core)
    requires ServiceEnabled(s, Dequeue)
    ensures ServiceNext(s, Dequeue).pool == s.pool && Live(ServiceNext(s, Dequeue)) == Live(s)
  {
  }

  lemma ServicePool(s: Core, e: ServiceEvent)
    requires PoolMatches(s.pool, Live(s)) && ServiceEnabled(s, e)
    ensures PoolMatches(ServiceNext(s, e).pool, Live(ServiceNext(s, e)))
  {
    hide PoolMatches, Live, ServiceNext, ServiceEnabled;
    match e
    case Dequeue => DequeuingPool(s);
    case Release => ReleasingPool(s);
    case Complete => CompletingPool(s);
    case _ => PlainPool(s, e);
  }

  lemma ReleaseLive(s: Core, t: Core)
    requires s.service.Completing? && t.service.Releasing? && t.queue == s.queue && t.posting == s.posting
    ensures s.service.job.index in Live(s) && Live(t) == Live(s) - multiset{s.service.job.index}
  {
  }

  lemma SameLive(s: Core, t: Core)
    requires t.queue == s.queue && t.posting == s.posting && ServiceLive(t.service) == ServiceLive(s.service)
    ensures Live(t) == Live(s)
  {
  }

  lemma QueueingPool(s: Core, posted: bool)
    requires PoolMatches(s.pool, Live(s)) && SubmitEnabled(s, DeinitEnqueue(posted))
    ensures ValidPool(s.pool)
    ensures PoolMatches(SubmitNext(s, DeinitEnqueue(posted)).pool, Live(SubmitNext(s, DeinitEnqueue(posted))))
  {
    assert ValidPool(s.pool);
    hide PoolMatches, Live, ValidPool, GivenBack;
    var t := SubmitNext(s, DeinitEnqueue(posted));
    if posted && QueueTakes(s) {
      EnqueuedMatches(s);
      SameLive(Enqueued(s), t);
    } else {
      UntakenMatches(s);
      SameLive(Untaken(s), t);
    }
  }

  lemma StartingPool(s: Core, ok: bool)
    requires Shape(s) && PoolMatches(s.pool, Live(s)) && SubmitEnabled(s, DeinitStart(ok))
    ensures ValidPool(s.pool)
    ensures PoolMatches(SubmitNext(s, DeinitStart(ok)).pool, Live(SubmitNext(s, DeinitStart(ok))))
  {
    assert ValidPool(s.pool);
    if s.owner.start { OwnerStarts(s); }
    hide PoolMatches, Live, ValidPool, Drained, Shape;
    var t := SubmitNext(s, DeinitStart(ok));
    if s.owner.start && !ok {
      DrainAllMatches(s);
      SameLive(DrainAll(s), t);
    } else {
      SameLive(s, t);
    }
  }

  lemma SubmissionPool(s: Core, e: SubmitEvent)
    requires Shape(s) && PoolMatches(s.pool, Live(s)) && SubmitEnabled(s, e) && ValidPool(s.pool)
    ensures PoolMatches(SubmitNext(s, e).pool, Live(SubmitNext(s, e)))
  {
    hide PoolMatches, Live, Shape, ValidPool, GivenBack, Drained;
    match e
    case DeinitEnqueue(posted) =>
      QueueingPool(s, posted);
    case DeinitStart(ok) =>
      StartingPool(s, ok);
    case DeinitAlloc =>
      if s.pool.free == [] { SameLive(s, SubmitNext(s, e)); } else { TakeMatches(s, DeinitJob); }
    case _ =>
      SameLive(s, SubmitNext(s, e));
  }

  lemma OwnerStarts(s: Core)
    requires Shape(s) && s.owner.Submitted? && s.owner.start
    ensures s.service.NoTask?
  {
  }

  lemma ClosingPool(s: Core, destroyed: bool)
    requires PoolMatches(s.pool, Live(s)) && FinishEnabled(s, CloseQueue(destroyed))
    ensures PoolMatches(FinishNext(s, CloseQueue(destroyed)).pool, Live(FinishNext(s, CloseQueue(destroyed))))
  {
    hide PoolMatches, Live, Drained;
    DrainAllMatches(s);
    SameLive(DrainAll(s), FinishNext(s, CloseQueue(destroyed)));
  }

  lemma DestroyingPool(s: Core, e: FinishEvent)
    requires FinishEnabled(s, e) && (e.DestroyPool? || e.DestroyLock?)
    ensures FinishNext(s, e).pool == s.pool && Live(FinishNext(s, e)) == Live(s)
  {
    hide Live;
    SameLive(s, FinishNext(s, e));
  }

  lemma JoiningPool(s: Core, e: FinishEvent)
    requires FinishEnabled(s, e) && (e.Join? || e.JoinFail? || e.CheckResult?)
    ensures FinishNext(s, e).pool == s.pool && Live(FinishNext(s, e)) == Live(s)
  {
    hide Live;
    SameLive(s, FinishNext(s, e));
  }

  lemma FinishPool(s: Core, e: FinishEvent)
    requires PoolMatches(s.pool, Live(s)) && FinishEnabled(s, e)
    ensures PoolMatches(FinishNext(s, e).pool, Live(FinishNext(s, e)))
  {
    hide PoolMatches, Live, FinishNext;
    match e
    case CloseQueue(destroyed) => ClosingPool(s, destroyed);
    case DestroyPool(_) | DestroyLock(_) => DestroyingPool(s, e);
    case Join | JoinFail | CheckResult => JoiningPool(s, e);
  }

  lemma PoolKept(s: Core, e: Event)
    requires Shape(s) && PoolMatches(s.pool, Live(s)) && Enabled(s, e)
    ensures PoolMatches(StepOf(s, e).pool, Live(StepOf(s, e)))
  {
    assert ValidPool(s.pool);
    hide Shape, PoolMatches, Live, ValidPool, PosterNext, ServiceNext, SubmitNext, FinishNext;
    hide PosterEnabled, ServiceEnabled, SubmitEnabled, FinishEnabled;
    match e
    case OfPoster(p) => PosterPool(s, p);
    case OfService(v) => ServicePool(s, v);
    case OfSubmit(m) => SubmissionPool(s, m);
    case OfFinish(f) => FinishPool(s, f);
  }

  lemma AllocatedSize(pool: Pool)
    requires ValidPool(pool) && pool.free != []
    ensures |Allocated(pool).references| == |pool.references|
  {
  }

  lemma GivenBackSize(pool: Pool, index: nat)
    ensures |GivenBack(pool, index).references| == |pool.references|
  {
  }

  lemma {:induction false} DrainedSize(pool: Pool, queue: seq<Job>)
    ensures |Drained(pool, queue).references| == |pool.references|
    decreases |queue|
  {
    if queue != [] { DrainedSize(GivenBack(pool, queue[0].index), queue[1..]); }
  }

  lemma PosterShape(s: Core, e: PosterEvent)
    requires Shape(s) && ValidPool(s.pool) && (e.Initialise? || e.BeginPost? || e.EndPost?) && PosterEnabled(s, e)
    ensures Shape(PosterNext(s, e))
  {
    hide ValidPool, Drained, GivenBack, Allocated;
    if e.BeginPost? && s.pool.free != [] { AllocatedSize(s.pool); }
    if e.EndPost? { GivenBackSize(s.pool, s.posting.index); }
    if e.Initialise? {
      NewPoolValid(e.size);
      AllocatedSize(NewPool(e.size));
    }
  }

  lemma RunningShape(s: Core, e: ServiceEvent)
    requires Shape(s) && ValidPool(s.pool) && (e.Dequeue? || e.Execute? || e.DequeueFails?) && ServiceEnabled(s, e)
    ensures Shape(ServiceNext(s, e))
  {
    hide ValidPool, Drained, GivenBack, Allocated;
  }

  lemma CompleteShape(s: Core, e: ServiceEvent)
    requires Shape(s) && ValidPool(s.pool) && e.Complete? && ServiceEnabled(s, e)
    ensures Shape(ServiceNext(s, e))
  {
    hide ValidPool, Drained, GivenBack, Allocated;
  }

  lemma CallingShape(s: Core, e: ServiceEvent)
    requires Shape(s) && ValidPool(s.pool) && (e.Release? || e.CallBack? || e.Return?) && ServiceEnabled(s, e)
    ensures Shape(ServiceNext(s, e))
  {
    hide ValidPool, Drained, GivenBack, Allocated;
    if e.Release? { GivenBackSize(s.pool, s.service.job.index); }
  }

  lemma SubmitShape(s: Core, e: SubmitEvent)
    requires Shape(s) && ValidPool(s.pool) && (e.Claim? || e.DeinitAlloc? || e.SkipSubmit?) && SubmitEnabled(s, e)
    ensures Shape(SubmitNext(s, e))
  {
    hide ValidPool, Drained, GivenBack, Allocated;
    if s.pool.free != [] { AllocatedSize(s.pool); }
  }

  lemma QueueingShape(s: Core, e: SubmitEvent)
    requires Shape(s) && ValidPool(s.pool) && e.DeinitEnqueue? && SubmitEnabled(s, e)
    ensures Shape(SubmitNext(s, e))
  {
    hide ValidPool, Drained, GivenBack, Allocated;
    GivenBackSize(s.pool, s.posting.index);
  }

  lemma StartingShape(s: Core, e: SubmitEvent)
    requires Shape(s) && ValidPool(s.pool) && e.DeinitStart? && SubmitEnabled(s, e)
    ensures Shape(SubmitNext(s, e))
  {
    hide ValidPool, Drained, GivenBack, Allocated;
    DrainedSize(s.pool, s.queue);
  }

  lemma JoiningShape(s: Core, e: FinishEvent)
    requires Shape(s) && ValidPool(s.pool) && (e.Join? || e.JoinFail? || e.CheckResult?) && FinishEnabled(s, e)
    ensures Shape(FinishNext(s, e))
  {
    hide ValidPool, Drained, GivenBack, Allocated;
  }

  lemma DestroyingShape(s: Core, e: FinishEvent)
    requires Shape(s) && ValidPool(s.pool) && (e.CloseQueue? || e.DestroyPool?) && FinishEnabled(s, e)
    ensures Shape(FinishNext(s, e))
  {
    hide ValidPool, Drained;
    DrainedSize(s.pool, s.queue);
  }

  lemma UnlockedShape(s: Core, e: FinishEvent)
    requires Shape(s) && e.DestroyLock? && FinishEnabled(s, e)
    ensures Shape(FinishNext(s, e))
  {
  }

  lemma ShapeKept(s: Core, e: Event)
    requires Shape(s) && ValidPool(s.pool) && Enabled(s, e)
    ensures Shape(StepOf(s, e))
  {
    hide Shape, ValidPool, PosterNext, ServiceNext, SubmitNext, FinishNext;
    hide PosterEnabled, ServiceEnabled, SubmitEnabled, FinishEnabled;
    match e
    case OfPoster(p) => PosterShape(s, p);
    case OfService(v) =>
      if v.Dequeue? || v.Execute? || v.DequeueFails? { RunningShape(s, v); }
      else if v.Complete? { CompleteShape(s, v); }
      else { CallingShape(s, v); }
    case OfSubmit(m) =>
      if m.DeinitEnqueue? { QueueingShape(s, m); }
      else if m.DeinitStart? { StartingShape(s, m); }
      else { SubmitShape(s, m); }
    case OfFinish(f) =>
      if f.CloseQueue? || f.DestroyPool? { DestroyingShape(s, f); }
      else if f.DestroyLock? { UnlockedShape(s, f); }
      else { JoiningShape(s, f); }
  }

  /** A teardown that has to start the service again always finds a pool entry. */
  lemma IdlePoolHasRoom(s: Core)
    requires Shape(s) && PoolMatches(s.pool, Live(s)) && s.has.lock
    requires s.service.NoTask? && s.queue == [] && s.posting.NotPosting?
    ensures s.pool.free != []
  {
    assert Live(s) == multiset{};
    NothingLive(s.pool);
  }

  lemma EntryOrder(s: Core, e: PosterEvent)
    requires Shape(s) && ValidPool(s.pool) && Order(s) && (e.Initialise? || e.BeginPost?) && PosterEnabled(s, e)
    ensures Order(PosterNext(s, e))
  {
    hide ValidPool, Drained, GivenBack, Allocated;
  }

  lemma EndPostOrder(s: Core, e: PosterEvent)
    requires Shape(s) && ValidPool(s.pool) && Order(s) && e.EndPost? && PosterEnabled(s, e)
    ensures Order(PosterNext(s, e))
  {
    hide ValidPool, GivenBack, DeinitLast, NoDeinitQueued;
    DeinitAppended(s.queue, Job(|s.accepted|, s.posting.index, s.posting.kind));
  }

  lemma ServiceOrder(s: Core, e: ServiceEvent)
    requires Shape(s) && ValidPool(s.pool) && Order(s) && (e.Dequeue? || e.Execute? || e.Complete?) && ServiceEnabled(s, e)
    ensures Order(ServiceNext(s, e))
  {
    hide ValidPool, Drained, GivenBack, Allocated;
    if e.Dequeue? && |s.queue| > 1 {
      assert s.queue[1..][..|s.queue| - 2] == s.queue[..|s.queue| - 1][1..];
    }
  }

  lemma CallingOrder(s: Core, e: ServiceEvent)
    requires Shape(s) && ValidPool(s.pool) && Order(s) && (e.Release? || e.CallBack? || e.Return?) && ServiceEnabled(s, e)
    ensures Order(ServiceNext(s, e))
  {
    hide ValidPool, Drained, GivenBack, Allocated;
  }

  lemma SubmitOrder(s: Core, e: SubmitEvent)
    requires Shape(s) && ValidPool(s.pool) && Order(s) && (e.Claim? || e.DeinitAlloc? || e.SkipSubmit?) && SubmitEnabled(s, e)
    requires !Faults(s, OfSubmit(e))
    requires e.DeinitAlloc? && s.service.NoTask? ==> s.pool.free != []
    ensures Order(SubmitNext(s, e))
  {
    hide ValidPool, Drained, GivenBack, Allocated;
  }

  lemma DeinitAppended(queue: seq<Job>, job: Job)
    ensures NoDeinitQueued(queue) ==> DeinitLast(queue + [job])
    ensures NoDeinitQueued(queue) ==> (NoDeinitQueued(queue + [job]) <==> !job.kind.DeinitJob?)
  {
    assert (queue + [job])[|queue|] == job;
    assert (queue + [job])[..|queue|] == queue;
  }

  lemma EnqueuedOrder(s: Core)
    requires Shape(s) && Order(s) && s.owner.Claimed? && s.posting.Posting?
    ensures Order(Enqueued(s).(owner := Submitted(s.owner.start, s.owner.previous)))
  {
    hide DeinitLast, NoDeinitQueued, Restorable;
    DeinitAppended(s.queue, Job(|s.accepted|, s.posting.index, s.posting.kind));
  }

  lemma UnqueuedOrder(s: Core)
    requires Shape(s) && Order(s) && s.owner.Claimed? && s.posting.Posting? && !s.owner.start
    ensures Order(Restored(Untaken(s), s.owner.previous))
  {
    hide GivenBack, DeinitLast, NoDeinitQueued, Restorable;
  }

  lemma QueueingOrder(s: Core, e: SubmitEvent)
    requires Shape(s) && ValidPool(s.pool) && Order(s) && e.DeinitEnqueue? && SubmitEnabled(s, e)
    requires !Faults(s, OfSubmit(e))
    ensures Order(SubmitNext(s, e))
  {
    hide ValidPool, Shape, Order, GivenBack;
    if e.posted && QueueTakes(s) { EnqueuedOrder(s); } else { UnqueuedOrder(s); }
  }

  lemma StartingOrder(s: Core, e: SubmitEvent)
    requires Shape(s) && ValidPool(s.pool) && Order(s) && e.DeinitStart? && SubmitEnabled(s, e)
    requires !Faults(s, OfSubmit(e))
    ensures Order(SubmitNext(s, e))
  {
    hide ValidPool, Drained, GivenBack, Allocated;
  }

  lemma JoiningOrder(s: Core, e: FinishEvent)
    requires Shape(s) && ValidPool(s.pool) && Order(s) && (e.Join? || e.JoinFail? || e.CheckResult?) && FinishEnabled(s, e)
    ensures Order(FinishNext(s, e))
  {
    hide ValidPool, Drained, GivenBack, Allocated;
  }

  lemma DestroyingOrder(s: Core, e: FinishEvent)
    requires Shape(s) && ValidPool(s.pool) && Order(s) && (e.CloseQueue? || e.DestroyPool? || e.DestroyLock?) && FinishEnabled(s, e)
    ensures Order(FinishNext(s, e))
  {
    hide ValidPool, Drained, GivenBack, Allocated;
  }

  lemma OrderKept(s: Core, e: Event)
    requires Shape(s) && PoolMatches(s.pool, Live(s)) && Order(s) && Enabled(s, e) && !Faults(s, e)
    ensures Order(StepOf(s, e))
  {
    assert ValidPool(s.pool);
    if e == OfSubmit(DeinitAlloc) && s.service.NoTask? { IdlePoolHasRoom(s); }
    hide Shape, Order, ValidPool, PoolMatches, PosterNext, ServiceNext, SubmitNext, FinishNext;
    hide PosterEnabled, ServiceEnabled, SubmitEnabled, FinishEnabled;
    match e
    case OfPoster(p) =>
      if p.EndPost? { EndPostOrder(s, p); } else { EntryOrder(s, p); }
    case OfService(v) =>
      if v.Dequeue? || v.Execute? || v.Complete? { ServiceOrder(s, v); } else { CallingOrder(s, v); }
    case OfSubmit(m) =>
      if m.DeinitEnqueue? { QueueingOrder(s, m); }
      else if m.DeinitStart? { StartingOrder(s, m); }
      else { SubmitOrder(s, m); }
    case OfFinish(f) =>
      if f.Join? || f.JoinFail? || f.CheckResult? { JoiningOrder(s, f); } else { DestroyingOrder(s, f); }
  }

  lemma IdsSnoc(queue: seq<Job>, job: Job)
    ensures Ids(queue + [job]) == Ids(queue) + [job.id]
  {
  }

  lemma PosterSequence(s: Core, e: PosterEvent)
    requires Shape(s) && ValidPool(s.pool) && Order(s) && InSequence(s) && PosterEnabled(s, e)
    ensures InSequence(PosterNext(s, e))
  {
    hide ValidPool, GivenBack, Allocated, Ids;
    if e.EndPost? { IdsSnoc(s.queue, Job(|s.accepted|, s.posting.index, s.posting.kind)); }
    assert s.queue == [] ==> forall job :: s.queue + [job] == [job];
    if e.Initialise? { IdsSnoc(s.queue, Job(|s.accepted|, e.size - 1, InitJob)); }
  }

  lemma ServiceSequence(s: Core, e: ServiceEvent)
    requires InSequence(s) && ServiceEnabled(s, e)
    ensures InSequence(ServiceNext(s, e))
  {
    hide GivenBack, Effect;
    assert e.Dequeue? ==> Ids(s.queue) == [s.queue[0].id] + Ids(s.queue[1..]);
  }

  lemma SubmissionSequence(s: Core, e: SubmitEvent)
    requires Shape(s) && ValidPool(s.pool) && InSequence(s) && SubmitEnabled(s, e)
    requires !Faults(s, OfSubmit(e))
    ensures InSequence(SubmitNext(s, e))
  {
    hide ValidPool, GivenBack, Allocated, Drained, Ids;
    if e.DeinitEnqueue? { IdsSnoc(s.queue, Job(|s.accepted|, s.posting.index, s.posting.kind)); }
  }

  lemma FinishSequence(s: Core, e: FinishEvent)
    requires Shape(s) && Order(s) && InSequence(s) && FinishEnabled(s, e)
    ensures InSequence(FinishNext(s, e))
  {
    hide Drained, Ids;
  }

  lemma SequenceKept(s: Core, e: Event)
    requires Shape(s) && ValidPool(s.pool) && Order(s) && InSequence(s) && Enabled(s, e) && !Faults(s, e)
    ensures InSequence(StepOf(s, e))
  {
    hide Shape, ValidPool, Order, InSequence, PosterNext, ServiceNext, SubmitNext, FinishNext;
    hide PosterEnabled, ServiceEnabled, SubmitEnabled, FinishEnabled;
    match e
    case OfPoster(p) => PosterSequence(s, p);
    case OfService(v) => ServiceSequence(s, v);
    case OfSubmit(m) => SubmissionSequence(s, m);
    case OfFinish(f) => FinishSequence(s, f);
  }

  /** The mark of a fault is beside everything else. */
  lemma FaultIsAside(t: Core, b: bool)
    ensures Shape(t.(faulted := b)) == Shape(t) && Order(t.(faulted := b)) == Order(t)
    ensures InSequence(t.(faulted := b)) == InSequence(t) && Live(t.(faulted := b)) == Live(t)
  {
    hide DeinitLast, NoDeinitQueued, Ids;
  }

  lemma StepInv(s: Core, e: Event)
    requires Inv(s) && Enabled(s, e)
    ensures Inv(Next(s, e))
  {
    assert ValidPool(s.pool);
    hide Shape, PoolMatches, Order, InSequence, StepOf, Enabled, ValidPool, Live, Faults;
    PoolKept(s, e);
    ShapeKept(s, e);
    if !s.faulted && !Faults(s, e) {
      OrderKept(s, e);
      SequenceKept(s, e);
    }
    FaultIsAside(StepOf(s, e), s.faulted || Faults(s, e));
  }

  // ---------------------------------------------------------------- whole runs

  /** Steps from any state. */
  predicate Path(states: seq<Core>, events: seq<Event>) {
    |states| == |events| + 1 && forall i | 0 <= i < |events| :: Moves(states[i], events[i], states[i + 1])
  }

  predicate Run(states: seq<Core>, events: seq<Event>) {
    Path(states, events) && states[0] == Start()
  }

  predicate Moves(s: Core, e: Event, t: Core) {
    ValidPool(s.pool) && Enabled(s, e) && t == Next(s, e)
  }

  lemma {:induction false} RunInv(states: seq<Core>, events: seq<Event>, n: nat)
    requires Run(states, events) && n < |states|
    ensures Inv(states[n])
  {
    hide Inv, Next, Enabled, ValidPool;
    if n == 0 {
      StartInv();
    } else {
      RunInv(states, events, n - 1);
      assert Moves(states[n - 1], events[n - 1], states[n]);
      StepInv(states[n - 1], events[n - 1]);
    }
  }

  /** In every reachable state in which no task operation has failed, the callbacks made so far are
      the first of the accepted jobs, each once and in order; only the job in the service's hands
      and the queued ones are still owed one. When the core is uninitialised, none is. */
  lemma CallbacksExactlyOnce(states: seq<Core>, events: seq<Event>, n: nat)
    requires Run(states, events) && n < |states| && !states[n].faulted
    ensures states[n].called <= states[n].accepted
    ensures forall i, j | 0 <= i < j < |states[n].called| :: states[n].called[i] != states[n].called[j]
    ensures |states[n].accepted| - |states[n].called| == |Uncalled(states[n].service)| + |states[n].queue|
    ensures !states[n].has.lock ==> states[n].called == states[n].accepted
  {
    RunInv(states, events, n);
    var s := states[n];
    assert |Ids(s.queue)| == |s.queue|;
    assert forall i | 0 <= i < |s.called| :: s.called[i] == s.accepted[i];
  }

  /** The pool has exactly one reference per job that is being posted, queued or executed. With the
      core uninitialised, or between jobs with nothing queued, every entry is free. */
  lemma PoolIsAccounted(states: seq<Core>, events: seq<Event>, n: nat)
    requires Run(states, events) && n < |states|
    ensures forall k | 0 <= k < |states[n].pool.references| :: states[n].pool.references[k] == Live(states[n])[k] <= 1
    ensures Live(states[n]) == multiset{} ==> |states[n].pool.free| == |states[n].pool.references|
    ensures !states[n].has.lock ==> |states[n].pool.free| == |states[n].pool.references|
  {
    RunInv(states, events, n);
    var s := states[n];
    if Live(s) == multiset{} { NothingLive(s.pool); }
  }

  /** A post that is turned away leaves no trace: the pool is as it was before the call, nothing is
      accepted and nothing is queued. */
  lemma RejectedPostLeavesNoTrace(s: Core, kind: Kind, copied: bool)
    requires Inv(s) && PosterEnabled(s, BeginPost(kind)) && PosterNext(s, BeginPost(kind)) != s
    requires !(copied && QueueTakes(s))
    ensures PosterEnabled(PosterNext(s, BeginPost(kind)), EndPost(copied))
    ensures ValidPool(PosterNext(s, BeginPost(kind)).pool)
    ensures PosterNext(PosterNext(s, BeginPost(kind)), EndPost(copied)) == s
  {
    AllocateThenRelease(s.pool);
    AllocatedValid(s.pool);
  }

  lemma {:induction false} PostingSince(states: seq<Core>, events: seq<Event>, n: nat) returns (m: nat)
    requires Run(states, events) && n < |states| && states[n].posting.Posting? && !states[n].posting.kind.DeinitJob?
    ensures m < n && events[m] == OfPoster(BeginPost(states[n].posting.kind)) && LifecycleFree(states[m])
    ensures var kind, s := states[n].posting.kind, states[m];
            && !s.ctx.pending && s.pool.free != []
            && (|| (kind == ConnectJob && s.ctx.state == Ready)
                || (kind == DisconnectJob && (s.ctx.state == Unregistered || s.ctx.state == Registered))
                || (kind == RegisterJob && s.ctx.state == Unregistered)
                || (kind == SendJob && s.ctx.state == Registered))
  {
    hide Enabled, Next, Start, LifecycleFree;
    StartPostsNothing();
    assert Moves(states[n - 1], events[n - 1], states[n]);
    PostingComesFrom(states[n - 1], events[n - 1]);
    if states[n - 1].posting == states[n].posting {
      m := PostingSince(states, events, n - 1);
    } else {
      m := n - 1;
    }
  }

  lemma StartPostsNothing()
    ensures Start().posting.NotPosting?
  {
  }

  lemma PostingComesFrom(s: Core, e: Event)
    requires ValidPool(s.pool) && Enabled(s, e)
    ensures var t := Next(s, e);
            t.posting.Posting? && !t.posting.kind.DeinitJob? && t.posting != s.posting ==>
              && e == OfPoster(BeginPost(t.posting.kind)) && LifecycleFree(s) && !s.ctx.pending && s.pool.free != []
              && (|| (t.posting.kind == ConnectJob && s.ctx.state == Ready)
                  || (t.posting.kind == DisconnectJob && (s.ctx.state == Unregistered || s.ctx.state == Registered))
                  || (t.posting.kind == RegisterJob && s.ctx.state == Unregistered)
                  || (t.posting.kind == SendJob && s.ctx.state == Registered))
  {
    hide ValidPool, Drained, GivenBack, Allocated, Effect, Reclaims;
  }

  /** In every run the queue grows only by a teardown's job, by the first job of all, or by a job for which an
      earlier post found the core in the state for its kind: connect in READY, disconnect in UNREGISTERED or
      REGISTERED, register in UNREGISTERED, send in REGISTERED, and no teardown pending. */
  lemma QueuedOnlyInItsState(states: seq<Core>, events: seq<Event>, n: nat) returns (m: nat)
    requires Run(states, events) && n < |events| && |states[n + 1].queue| > |states[n].queue|
    requires !(events[n].OfPoster? && events[n].poster.Initialise?) && !events[n].OfSubmit?
    ensures m < n && states[n].posting.Posting? && states[n + 1].queue == states[n].queue + [states[n + 1].queue[|states[n].queue|]]
    ensures var kind, s := states[n + 1].queue[|states[n].queue|].kind, states[m];
            && events[m] == OfPoster(BeginPost(kind)) && !s.ctx.pending && s.pool.free != []
            && (|| (kind == ConnectJob && s.ctx.state == Ready)
                || (kind == DisconnectJob && (s.ctx.state == Unregistered || s.ctx.state == Registered))
                || (kind == RegisterJob && s.ctx.state == Unregistered)
                || (kind == SendJob && s.ctx.state == Registered))
  {
    assert Moves(states[n], events[n], states[n + 1]);
    QueueGrows(states[n], events[n]);
    hide Enabled, Next, Start, ValidPool;
    m := PostingSince(states, events, n);
  }

  lemma QueueGrows(s: Core, e: Event)
    requires ValidPool(s.pool) && Enabled(s, e) && |Next(s, e).queue| > |s.queue|
    requires !(e.OfPoster? && e.poster.Initialise?) && !e.OfSubmit?
    ensures e == OfPoster(EndPost(true)) && s.posting.Posting? && !s.posting.kind.DeinitJob?
    ensures Next(s, e).queue == s.queue + [Job(|s.accepted|, s.posting.index, s.posting.kind)]
  {
    hide ValidPool, Drained, GivenBack, Allocated, Effect, Reclaims;
  }

  /** ... and in that state, with an entry and a place, it does get in. */
  lemma QueuedInItsState(states: seq<Core>, events: seq<Event>, n: nat, kind: Kind)
    requires Run(states, events) && n < |states| && states[n].has.lock && LifecycleFree(states[n]) && !states[n].ctx.pending
    requires || (kind == ConnectJob && states[n].ctx.state == Ready)
             || (kind == DisconnectJob && (states[n].ctx.state == Unregistered || states[n].ctx.state == Registered))
             || (kind == RegisterJob && states[n].ctx.state == Unregistered)
             || (kind == SendJob && states[n].ctx.state == Registered)
    requires states[n].pool.free != [] && |states[n].queue| < states[n].depth
    ensures Enabled(states[n], OfPoster(BeginPost(kind))) && ValidPool(states[n].pool)
    ensures var s := states[n];
            var taken := Next(s, OfPoster(BeginPost(kind)));
            && Enabled(taken, OfPoster(EndPost(true))) && ValidPool(taken.pool)
            && Next(taken, OfPoster(EndPost(true))).queue == s.queue + [Job(|s.accepted|, s.pool.free[|s.pool.free| - 1], kind)]
  {
    RunInv(states, events, n);
    GetsIn(states[n], kind);
  }

  lemma GetsIn(s: Core, kind: Kind)
    requires Inv(s) && s.has.lock && LifecycleFree(s) && !s.ctx.pending && AcceptsIn(kind, s.ctx.state)
    requires s.pool.free != [] && |s.queue| < s.depth
    ensures PosterEnabled(s, BeginPost(kind)) && ValidPool(s.pool)
    ensures var taken := Next(s, OfPoster(BeginPost(kind)));
            && PosterEnabled(taken, EndPost(true)) && ValidPool(taken.pool)
            && Next(taken, OfPoster(EndPost(true))).queue == s.queue + [Job(|s.accepted|, s.pool.free[|s.pool.free| - 1], kind)]
  {
    assert ValidPool(s.pool);
    AllocatedValid(s.pool);
    hide ValidPool, PoolMatches, Order, InSequence, Allocated;
  }

  /** How a core begins, in every run: INITIALISING, with its lock, queue, pool and service, a pool and a queue of
      the sizes asked for, and the initialisation queued in the only entry taken. */
  lemma BeginsInitialising(states: seq<Core>, events: seq<Event>, n: nat, size: nat, depth: nat)
    requires Run(states, events) && n < |events| && events[n] == OfPoster(Initialise(size, depth))
    ensures var t := states[n + 1];
            && t.ctx == Context(Initing, false, false, false, false, true, PhaseJob) && t.has == Resources(true, true, false, true)
            && t.service == Looping && t.depth == depth && t.queue == [Job(|states[n].accepted|, size - 1, InitJob)]
            && |t.pool.references| == size && |t.pool.free| == size - 1
  {
    RunInv(states, events, n);
    assert Moves(states[n], events[n], states[n + 1]);
    NewPoolValid(size);
    hide ValidPool, PoolMatches, Order, InSequence;
  }

  /** The state an executed job leaves, in every run: a successful initialisation READY and a failed one
      INIT_FAILED; a successful connect REGISTERED if the marker was there and UNREGISTERED if not; a successful
      disconnect READY; a successful registration REGISTERED; a teardown's job DEINIT. Sends, and everything else
      that fails, leave the state. Nothing else the service does changes it. */
  lemma JobsMoveTheState(states: seq<Core>, events: seq<Event>, n: nat)
    requires Run(states, events) && n < |events| && events[n].OfService?
    ensures var s, t, v := states[n], states[n + 1], events[n].service;
            if v.Execute? then
              && s.service.Running? && t.service == Executed(s.service.job, v.ok)
              && t.ctx.state == match s.service.job.kind {
                   case InitJob => (if v.ok then Ready else InitFailed)
                   case ConnectJob => (if v.ok && v.registered then Registered else if v.ok then Unregistered else s.ctx.state)
                   case DisconnectJob => (if v.ok then Ready else s.ctx.state)
                   case RegisterJob => (if v.ok then Registered else s.ctx.state)
                   case SendJob => s.ctx.state
                   case DeinitJob => Deinit
                 }
            else t.ctx.state == s.ctx.state
  {
    assert Moves(states[n], events[n], states[n + 1]);
    hide ValidPool, GivenBack;
  }

  function Rank(phase: TeardownPhase): nat {
    match phase case PhaseJob => 0 case PhaseQueue => 1 case PhasePool => 2 case PhaseLock => 3
  }

  lemma PhaseStays(s: Core, e: Event)
    requires Shape(s) && ValidPool(s.pool) && Enabled(s, e) && s.ctx.pending && (e.OfPoster? || e.OfService?)
    ensures Next(s, e).ctx.phase == s.ctx.phase
  {
    hide ValidPool, GivenBack, Allocated, Effect, OwnerShape;
    if e.OfService? {
      match e.service case Dequeue => case Execute(_, _) => case Complete => case Release => case CallBack => case Return =>
      case DequeueFails =>
    }
  }

  lemma SubmitKeepsPhase(s: Core, e: SubmitEvent)
    requires Shape(s) && ValidPool(s.pool) && SubmitEnabled(s, e) && s.ctx.pending
    ensures SubmitNext(s, e).ctx.phase == s.ctx.phase
  {
    hide ValidPool, GivenBack, Allocated, Drained;
  }

  lemma FinishAdvances(s: Core, e: FinishEvent)
    requires Shape(s) && FinishEnabled(s, e) && s.ctx.pending && FinishNext(s, e).ctx.pending
    ensures Rank(s.ctx.phase) <= Rank(FinishNext(s, e).ctx.phase) <= Rank(s.ctx.phase) + 1
  {
    hide Drained;
  }

  lemma PhaseAdvances(s: Core, e: Event)
    requires Inv(s) && Enabled(s, e) && s.ctx.pending && Next(s, e).ctx.pending
    ensures Rank(s.ctx.phase) <= Rank(Next(s, e).ctx.phase) <= Rank(s.ctx.phase) + 1
  {
    assert ValidPool(s.pool);
    hide Shape, PoolMatches, ValidPool, Order, InSequence, PosterNext, ServiceNext, SubmitNext, FinishNext;
    hide PosterEnabled, ServiceEnabled, SubmitEnabled, FinishEnabled;
    match e
    case OfSubmit(m) => SubmitKeepsPhase(s, m);
    case OfFinish(f) => FinishAdvances(s, f);
    case _ => PhaseStays(s, e);
  }

  /** While a teardown stays pending its phase never goes back, whatever fails and however often
      it is retried. */
  lemma {:induction false} PhaseNeverGoesBack(states: seq<Core>, events: seq<Event>, m: nat, n: nat)
    requires Run(states, events) && m <= n < |states|
    requires forall i | m <= i <= n :: states[i].ctx.pending
    ensures Rank(states[m].ctx.phase) <= Rank(states[n].ctx.phase)
  {
    hide Inv, Next, Enabled, ValidPool;
    if m < n {
      PhaseNeverGoesBack(states, events, m, n - 1);
      RunInv(states, events, n - 1);
      assert Moves(states[n - 1], events[n - 1], states[n]);
      PhaseAdvances(states[n - 1], events[n - 1]);
    }
  }

  /** Reaching a phase means that everything released before it is gone: the service and its
      teardown job, then the queue with all its jobs, then the pool. */
  lemma PhaseMeansReleased(states: seq<Core>, events: seq<Event>, n: nat)
    requires Run(states, events) && n < |states| && states[n].ctx.pending
    ensures Rank(states[n].ctx.phase) >= 1 ==> states[n].service.NoTask? && states[n].ctx.state == Deinit
    ensures Rank(states[n].ctx.phase) >= 2 ==> !states[n].has.queue && states[n].queue == []
    ensures Rank(states[n].ctx.phase) >= 2 ==> |states[n].pool.free| == |states[n].pool.references|
    ensures Rank(states[n].ctx.phase) >= 3 <==> !states[n].has.pool
    ensures states[n].has.lock
  {
    RunInv(states, events, n);
    var s := states[n];
    if Rank(s.ctx.phase) >= 2 {
      assert Live(s) == multiset{};
      NothingLive(s.pool);
    }
  }

  /** Between the attempts of a teardown the next claim resumes it, whatever has happened before: the phase
      stays, and the job is submitted again, with the service started again, exactly when the service is
      gone without having completed it successfully; with a service left, it only waits for it again. Without
      a fault the core is indeed left for a retry, and such a service has the job on its way. */
  lemma RetryResumes(states: seq<Core>, events: seq<Event>, n: nat)
    requires Run(states, events) && n < |states|
    requires states[n].ctx.pending && states[n].owner.NoOwner?
    ensures SubmitEnabled(states[n], Claim)
    ensures var s := states[n];
            var again := s.service.NoTask? && s.ctx.phase.PhaseJob? && !(s.ctx.jobDone && s.ctx.jobOk);
            && (s.ctx.state.Deinit? && !s.ctx.callbackActive ==>
                  AfterClaim(s) == s.(ctx := s.ctx.(finalizing := true), owner := Claimed(again, again, Ready)))
            && (!s.faulted && s.service.NoTask? ==> s.ctx.state.Deinit? && !s.ctx.callbackActive)
            && (!s.faulted && !s.service.NoTask? ==> !NoDeinitQueued(s.queue) || DoingDeinit(s.service))
  {
    RunInv(states, events, n);
  }

  /** A failed join gives the attempt up, and only that: the next claim is let in again. */
  lemma FailedJoinGivesUp(states: seq<Core>, events: seq<Event>, n: nat)
    requires Run(states, events) && n < |events| && events[n] == OfFinish(JoinFail)
    ensures states[n + 1] == states[n].(ctx := states[n].ctx.(finalizing := false), owner := NoOwner)
    ensures states[n + 1].ctx.pending && states[n + 1].posting.NotPosting? ==> Enabled(states[n + 1], OfSubmit(Claim))
  {
    RunInv(states, events, n);
    assert Moves(states[n], events[n], states[n + 1]);
    hide PoolMatches, Order, InSequence;
  }

  /** A teardown ends in one way only: uninitialised, no lock, every flag cleared, every accepted
      job called back, every pool entry free. */
  lemma SuccessIsClean(states: seq<Core>, events: seq<Event>, n: nat)
    requires Run(states, events) && n < |events| && events[n] == OfFinish(DestroyLock(true))
    ensures states[n + 1].ctx == Start().ctx
    ensures !states[n + 1].has.lock && !states[n + 1].has.queue && !states[n + 1].has.pool
    ensures |states[n + 1].pool.free| == |states[n + 1].pool.references|
    ensures !states[n + 1].faulted ==> states[n + 1].called == states[n + 1].accepted
  {
    RunInv(states, events, n + 1);
    assert Moves(states[n], events[n], states[n + 1]);
    PoolIsAccounted(states, events, n + 1);
    if !states[n + 1].faulted { CallbacksExactlyOnce(states, events, n + 1); }
  }
}
