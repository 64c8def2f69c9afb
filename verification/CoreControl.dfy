/** The global context as the source keeps it: fields updated in place by the API calls and the
    service task. Every method is proved to be the steps of `CoreLifecycle` that model it. */
module CoreControl {
  import opened JobPool
  import opened CoreLifecycle

  /** What only the model tracks: the other threads and the history. */
  datatype Around = Around(
    service: Service,
    posting: Posting,
    owner: Owner,
    accepted: seq<nat>,
    called: seq<nat>,
    faulted: bool)

  predicate Turned(s: Core, kind: Kind) {
    s.ctx.pending || !AcceptsIn(kind, s.ctx.state) || s.pool.free == []
  }

  /** A post, from taking the pool entry to queueing it or giving it back. */
  function PostedWhole(s: Core, kind: Kind, copied: bool): Core
    requires PosterEnabled(s, BeginPost(kind)) && ValidPool(s.pool)
  {
    if Turned(s, kind) then s
    else
      AllocatedValid(s.pool);
      PosterNext(PosterNext(s, BeginPost(kind)), EndPost(copied))
  }

  /** A post queues a job in a fresh pool entry if no teardown is pending, the core is in a state for this
      kind of job, there is an entry and a place in the queue, and the parameters can be copied; otherwise it
      leaves everything as it was. */
  lemma PostOutcome(s: Core, kind: Kind, copied: bool)
    requires PosterEnabled(s, BeginPost(kind)) && ValidPool(s.pool)
    ensures PostedWhole(s, kind, copied) ==
              if && !s.ctx.pending
                 && (|| (kind == ConnectJob && s.ctx.state == Ready)
                     || (kind == DisconnectJob && (s.ctx.state == Unregistered || s.ctx.state == Registered))
                     || (kind == RegisterJob && s.ctx.state == Unregistered)
                     || (kind == SendJob && s.ctx.state == Registered))
                 && s.pool.free != [] && copied && !s.has.queueClosed && |s.queue| < s.depth
              then s.(pool := Allocated(s.pool),
                      queue := s.queue + [Job(|s.accepted|, s.pool.free[|s.pool.free| - 1], kind)],
                      accepted := s.accepted + [|s.accepted|])
              else s
  {
    AcceptedStates(kind, s.ctx.state);
    PostedExactly(s, kind, copied);
    hide AcceptsIn, PostedWhole, ValidPool;
  }

  lemma AcceptedStates(kind: Kind, state: State)
    ensures AcceptsIn(kind, state) <==>
              || (kind == ConnectJob && state == Ready)
              || (kind == DisconnectJob && (state == Unregistered || state == Registered))
              || (kind == RegisterJob && state == Unregistered)
              || (kind == SendJob && state == Registered)
  {
  }

  lemma PostedExactly(s: Core, kind: Kind, copied: bool)
    requires PosterEnabled(s, BeginPost(kind)) && ValidPool(s.pool)
    ensures PostedWhole(s, kind, copied) ==
              if Turned(s, kind) || !copied || !QueueTakes(s) then s
              else s.(pool := Allocated(s.pool),
                      queue := s.queue + [Job(|s.accepted|, s.pool.free[|s.pool.free| - 1], kind)],
                      accepted := s.accepted + [|s.accepted|])
  {
    hide AcceptsIn;
    if s.pool.free != [] {
      AllocateThenRelease(s.pool);
      AllocatedValid(s.pool);
    }
    hide ValidPool, Allocated;
  }

  /** The tail of a teardown attempt, one resource at a time. */
  function QueuePhase(s: Core, gone: bool): Core {
    if s.owner.Finalizing? && s.ctx.phase.PhaseQueue? then FinishNext(s, CloseQueue(gone)) else s
  }

  function PoolPhase(s: Core, gone: bool): Core {
    if s.owner.Finalizing? && s.ctx.phase.PhasePool? then FinishNext(s, DestroyPool(gone)) else s
  }

  function LockPhase(s: Core, gone: bool): Core {
    if s.owner.Finalizing? && s.ctx.phase.PhaseLock? then FinishNext(s, DestroyLock(gone)) else s
  }

  /** Phase after phase until one fails. */
  function FinishedWhole(s: Core, queue: bool, pool: bool, lock: bool): Core {
    LockPhase(PoolPhase(QueuePhase(s, queue), pool), lock)
  }

  /** A teardown that gave up at this phase and can be retried there. */
  predicate StoppedAt(t: Core, phase: TeardownPhase) {
    t.ctx.pending && !t.ctx.finalizing && t.owner.NoOwner? && t.ctx.phase == phase && t.ctx.state.Deinit?
  }

  lemma QueuePhaseOutcome(s: Core, gone: bool)
    requires Shape(s) && s.owner.Finalizing? && s.ctx.phase.PhaseQueue?
    ensures Shape(QueuePhase(s, gone))
    ensures !gone ==> StoppedAt(QueuePhase(s, gone), PhaseQueue)
    ensures gone ==> QueuePhase(s, gone).owner.Finalizing? && QueuePhase(s, gone).ctx.phase.PhasePool?
  {
    DrainedSize(s.pool, s.queue);
    hide Drained;
  }

  lemma PoolPhaseOutcome(s: Core, gone: bool)
    requires Shape(s) && s.owner.Finalizing? && s.ctx.phase.PhasePool?
    ensures Shape(PoolPhase(s, gone))
    ensures !gone ==> StoppedAt(PoolPhase(s, gone), PhasePool)
    ensures gone ==> PoolPhase(s, gone).owner.Finalizing? && PoolPhase(s, gone).ctx.phase.PhaseLock?
  {
  }

  lemma LockPhaseOutcome(s: Core, gone: bool)
    requires Shape(s) && s.owner.Finalizing? && s.ctx.phase.PhaseLock?
    ensures Shape(LockPhase(s, gone))
    ensures !gone ==> StoppedAt(LockPhase(s, gone), PhaseLock)
    ensures gone ==> LockPhase(s, gone).ctx == Start().ctx && !LockPhase(s, gone).has.lock
  {
  }

  /** An attempt resumed at any phase either stops at the first step that fails, with that phase kept
      for the next retry, or ends uninitialised with every flag cleared. */
  lemma FinishStopsWhereItFails(s: Core, queue: bool, pool: bool, lock: bool)
    requires Shape(s) && s.owner.Finalizing?
    ensures Shape(FinishedWhole(s, queue, pool, lock))
    ensures var t := FinishedWhole(s, queue, pool, lock);
            if s.ctx.phase.PhaseQueue? && !queue then StoppedAt(t, PhaseQueue)
            else if Rank(s.ctx.phase) <= 2 && !pool then StoppedAt(t, PhasePool)
            else if !lock then StoppedAt(t, PhaseLock)
            else t.ctx == Start().ctx && !t.has.lock
  {
    if s.ctx.phase.PhaseQueue? { QueuePhaseOutcome(s, queue); }
    var s1 := QueuePhase(s, queue);
    if s1.owner.Finalizing? && s1.ctx.phase.PhasePool? { PoolPhaseOutcome(s1, pool); }
    var s2 := PoolPhase(s1, pool);
    if s2.owner.Finalizing? && s2.ctx.phase.PhaseLock? { LockPhaseOutcome(s2, lock); }
    hide Shape, FinishNext, Start;
  }

  // ---------------------------------------------------------------- any number of attempts

  /** Which resources an attempt would be able to release. */
  datatype Outcome = Outcome(queue: bool, pool: bool, lock: bool)

  const DONE: nat := 4

  /** How far one attempt gets from a phase. */
  function Advance(rank: nat, o: Outcome): nat {
    var afterQueue := if rank == 1 && o.queue then 2 else rank;
    var afterPool := if afterQueue == 2 && o.pool then 3 else afterQueue;
    if afterPool == 3 && o.lock then DONE else afterPool
  }

  function Progress(rank: nat, outcomes: seq<Outcome>): nat {
    if outcomes == [] then rank else Advance(Progress(rank, outcomes[..|outcomes| - 1]), outcomes[|outcomes| - 1])
  }

  predicate QueueGoes(outcomes: seq<Outcome>, j: int) {
    exists i | 0 <= i <= j && i < |outcomes| :: outcomes[i].queue
  }

  predicate PoolGoes(outcomes: seq<Outcome>, k: int) {
    exists j | 0 <= j <= k && j < |outcomes| :: outcomes[j].pool && QueueGoes(outcomes, j)
  }

  predicate LockGoes(outcomes: seq<Outcome>) {
    exists k | 0 <= k < |outcomes| :: outcomes[k].lock && PoolGoes(outcomes, k)
  }

  /** A teardown retried any number of times ends if and only if some attempt can release the queue,
      the same or a later one the pool, and the same or a later one still the lock. None of them is
      needed twice. */
  lemma {:induction false} RetriesEndIff(outcomes: seq<Outcome>)
    ensures Progress(1, outcomes) >= 2 <==> QueueGoes(outcomes, |outcomes| - 1)
    ensures Progress(1, outcomes) >= 3 <==> PoolGoes(outcomes, |outcomes| - 1)
    ensures Progress(1, outcomes) == DONE <==> LockGoes(outcomes)
    ensures 1 <= Progress(1, outcomes) <= DONE
  {
    if outcomes != [] {
      var n := |outcomes| - 1;
      var before := outcomes[..n];
      RetriesEndIff(before);
      PrefixGoes(outcomes, n);
    }
  }

  lemma PrefixGoes(outcomes: seq<Outcome>, n: nat)
    requires |outcomes| == n + 1
    ensures QueueGoes(outcomes, n) <==> QueueGoes(outcomes[..n], n - 1) || outcomes[n].queue
    ensures PoolGoes(outcomes, n) <==> PoolGoes(outcomes[..n], n - 1) || (outcomes[n].pool && QueueGoes(outcomes, n))
    ensures LockGoes(outcomes) <==> LockGoes(outcomes[..n]) || (outcomes[n].lock && PoolGoes(outcomes, n))
  {
    var before := outcomes[..n];
    assert forall i | 0 <= i < n :: before[i] == outcomes[i];
    forall j | 0 <= j < n
      ensures QueueGoes(before, j) <==> QueueGoes(outcomes, j)
    {
      QueuePrefix(outcomes, n, j);
    }
    forall k | 0 <= k < n
      ensures PoolGoes(before, k) <==> PoolGoes(outcomes, k)
    {
      PoolPrefix(outcomes, n, k);
    }
    QueuePrefix(outcomes, n, n - 1);
    PoolPrefix(outcomes, n, n - 1);
  }

  lemma QueuePrefix(outcomes: seq<Outcome>, n: nat, j: int)
    requires n <= |outcomes| && j < n
    ensures QueueGoes(outcomes[..n], j) <==> QueueGoes(outcomes, j)
  {
    if QueueGoes(outcomes, j) {
      var i :| 0 <= i <= j && i < |outcomes| && outcomes[i].queue;
      assert outcomes[..n][i].queue;
    }
  }

  lemma PoolPrefix(outcomes: seq<Outcome>, n: nat, k: int)
    requires n <= |outcomes| && k < n
    ensures PoolGoes(outcomes[..n], k) <==> PoolGoes(outcomes, k)
  {
    if PoolGoes(outcomes, k) {
      var j :| 0 <= j <= k && j < |outcomes| && outcomes[j].pool && QueueGoes(outcomes, j);
      QueuePrefix(outcomes, n, j);
      assert outcomes[..n][j].pool;
    }
    if PoolGoes(outcomes[..n], k) {
      var j :| 0 <= j <= k && j < n && outcomes[..n][j].pool && QueueGoes(outcomes[..n], j);
      QueuePrefix(outcomes, n, j);
      assert outcomes[j].pool;
    }
  }

  /** A teardown waiting to be tried again beyond its job phase, or finished. */
  predicate Waiting(s: Core) {
    Shape(s) && s.owner.NoOwner? && s.ctx.pending && !s.ctx.phase.PhaseJob?
  }

  function RankOf(s: Core): nat {
    if s.ctx.state.Uninit? then DONE else Rank(s.ctx.phase)
  }

  /** One more attempt of a waiting teardown, claim and finish. */
  function Attempted(s: Core, o: Outcome): Core {
    var claimed := AfterClaim(s);
    if claimed.owner.Claimed? && !claimed.owner.submit
    then FinishedWhole(claimed.(owner := Finalizing), o.queue, o.pool, o.lock)
    else s
  }

  lemma AttemptAdvances(s: Core, o: Outcome)
    requires Waiting(s)
    ensures AfterClaim(s) == s.(ctx := s.ctx.(finalizing := true), owner := Claimed(false, false, Ready))
    ensures var t := Attempted(s, o);
            RankOf(t) == Advance(RankOf(s), o) && (RankOf(t) == DONE <==> t.ctx.state.Uninit?) && (!t.ctx.state.Uninit? ==> Waiting(t))
  {
    var claimed := AfterClaim(s);
    var f := claimed.(owner := Finalizing);
    assert Shape(f);
    FinishStopsWhereItFails(f, o.queue, o.pool, o.lock);
    hide FinishedWhole;
  }

  class Context {
    var state: State
    var pending: bool
    var callbackActive: bool
    var finalizing: bool
    var jobDone: bool
    var jobOk: bool
    var phase: TeardownPhase
    var has: Resources
    var pool: Pool
    var depth: nat
    var queue: seq<Job>

    constructor ()
      ensures View(Around(NoTask, NotPosting, NoOwner, [], [], false)) == CoreLifecycle.Start()
    {
      state, pending, callbackActive, finalizing, jobDone, jobOk, phase := Uninit, false, false, false, false, true, PhaseJob;
      has, pool, depth, queue := Resources(false, false, false, false), Pool([], []), 0, [];
    }

    ghost function View(a: Around): Core
      reads this
    {
      Core(CoreLifecycle.Context(state, pending, callbackActive, finalizing, jobDone, jobOk, phase), has, pool, depth, queue,
           a.service, a.posting, a.owner, a.accepted, a.called, a.faulted)
    }

    /** `core_submit_job` with `core_post_job`; `id` names the job, `copied` is whether its parameters
        could be copied. */
    method SubmitJob(kind: Kind, copied: bool, id: nat, ghost a: Around) returns (ok: bool)
      requires PosterEnabled(View(a), BeginPost(kind)) && ValidPool(pool) && id == |a.accepted|
      modifies this`pool, this`queue
      ensures ok <==>
                && !pending
                && (|| (kind == ConnectJob && state == Ready)
                    || (kind == DisconnectJob && (state == Unregistered || state == Registered))
                    || (kind == RegisterJob && state == Unregistered)
                    || (kind == SendJob && state == Registered))
                && old(pool).free != [] && copied && !has.queueClosed && |old(queue)| < depth
      ensures ok ==> queue == old(queue) + [Job(id, old(pool).free[|old(pool).free| - 1], kind)]
      ensures View(a.(accepted := if ok then a.accepted + [id] else a.accepted)) == PostedWhole(old(View(a)), kind, copied)
      ensures !ok ==> View(a) == old(View(a))
    {
      PostOutcome(View(a), kind, copied);
      AcceptedStates(kind, state);
      if pending || !AcceptsIn(kind, state) || pool.free == [] {
        return false;
      }
      AllocateThenRelease(pool);
      AllocatedValid(pool);
      hide PostedWhole, ValidPool, AcceptsIn, Allocated, Released, PosterEnabled;
      var index := pool.free[|pool.free| - 1];
      pool := Allocated(pool);
      if !copied || has.queueClosed || |queue| >= depth {
        pool := Released(pool, index);
        return false;
      }
      queue := queue + [Job(id, index, kind)];
      ok := true;
    }

    /** `core_drain_pending_jobs`. */
    method DrainPendingJobs(ghost a: Around)
      modifies this`pool, this`queue
      ensures View(a) == DrainAll(old(View(a)))
    {
      while queue != []
        invariant Drained(pool, queue) == Drained(old(pool), old(queue))
        decreases |queue|
      {
        pool, queue := GivenBack(pool, queue[0].index), queue[1..];
      }
    }

    /** The claim section of `actrust_deinit`. */
    method ClaimTeardown(hasService: bool, ghost a: Around) returns (claimed: bool, submit: bool, start: bool, previous: State)
      requires hasService == !a.service.NoTask?
      modifies this`state, this`pending, this`finalizing, this`jobDone, this`jobOk, this`phase
      ensures View(if claimed then a.(owner := Claimed(submit, start, previous)) else a) == AfterClaim(old(View(a)))
    {
      submit, start, previous := false, false, Ready;
      if callbackActive || finalizing {
        return false, submit, start, previous;
      }
      var anew := state.Ready? || state.InitFailed?;
      if anew {
        previous, state := state, Deinit;
        pending, jobDone, jobOk, phase := true, false, true, PhaseJob;
      } else if !state.Deinit? || !pending {
        return false, submit, start, previous;
      }
      finalizing := true;
      submit := phase.PhaseJob? && (anew || (!hasService && (!jobDone || !jobOk)));
      start := submit && !hasService;
      claimed := true;
    }

    method ReleaseQueue(gone: bool, ghost a: Around)
      requires a.owner.Finalizing? && phase.PhaseQueue?
      modifies this`has, this`pool, this`queue, this`finalizing, this`phase
      ensures View(a.(owner := if gone then Finalizing else NoOwner)) == QueuePhase(old(View(a)), gone)
      ensures phase == if gone then PhasePool else PhaseQueue
    {
      has := has.(queueClosed := true);
      DrainPendingJobs(a);
      if gone {
        has, phase := has.(queue := false), PhasePool;
      } else {
        finalizing := false;
      }
    }

    method ReleasePool(gone: bool, ghost a: Around)
      requires a.owner.Finalizing? && phase.PhasePool?
      modifies this`has, this`finalizing, this`phase
      ensures View(a.(owner := if gone then Finalizing else NoOwner)) == PoolPhase(old(View(a)), gone)
      ensures phase == if gone then PhaseLock else PhasePool
    {
      if gone {
        has, phase := has.(pool := false), PhaseLock;
      } else {
        finalizing := false;
      }
    }

    method ReleaseLock(gone: bool, ghost a: Around)
      requires a.owner.Finalizing? && phase.PhaseLock?
      modifies this`has, this`state, this`pending, this`finalizing, this`jobDone, this`jobOk, this`phase
      ensures View(a.(owner := NoOwner)) == LockPhase(old(View(a)), gone)
    {
      finalizing := false;
      if gone {
        has := has.(lock := false);
        state, pending, jobDone, jobOk, phase := Uninit, false, false, true, PhaseJob;
      }
    }

    /** The final section of `actrust_deinit`; the arguments say which resources can be released. */
    method FinishTeardown(queueGone: bool, poolGone: bool, lockGone: bool, ghost a: Around) returns (ok: bool)
      requires a.owner == Finalizing && !phase.PhaseJob?
      modifies this
      ensures View(a.(owner := NoOwner)) == FinishedWhole(old(View(a)), queueGone, poolGone, lockGone)
      ensures ok <==> (old(phase).PhaseQueue? ==> queueGone) && (!old(phase).PhaseLock? ==> poolGone) && lockGone
    {
      hide QueuePhase, PoolPhase, LockPhase;
      Skips(View(a), queueGone, poolGone, lockGone);
      if phase.PhaseQueue? {
        ReleaseQueue(queueGone, a);
        ghost var s := View(a.(owner := if queueGone then Finalizing else NoOwner));
        Skips(s, queueGone, poolGone, lockGone);
        if !queueGone {
          return false;
        }
        assert a.(owner := Finalizing) == a;
      }
      if phase.PhasePool? {
        ReleasePool(poolGone, a);
        ghost var s := View(a.(owner := if poolGone then Finalizing else NoOwner));
        Skips(s, queueGone, poolGone, lockGone);
        if !poolGone {
          return false;
        }
        assert a.(owner := Finalizing) == a;
      }
      ReleaseLock(lockGone, a);
      ok := lockGone;
    }

    /** One more call of `actrust_deinit` once its job is through. */
    method Retry(o: Outcome, ghost a: Around) returns (ok: bool)
      requires Waiting(View(a)) && a.owner.NoOwner?
      modifies this
      ensures View(a) == Attempted(old(View(a)), o) && ok == state.Uninit?
    {
      AttemptAdvances(View(a), o);
      ghost var s := View(a);
      hide AfterClaim, Shape;
      var claimed, submit, start, previous := ClaimTeardown(false, a);
      assert a.(owner := NoOwner) == a;
      ok := FinishTeardown(o.queue, o.pool, o.lock, a.(owner := Finalizing));
      ok := state.Uninit?;
    }

    /** A caller that retries until the teardown succeeds or it has tried often enough. */
    method RetryAll(outcomes: seq<Outcome>, ghost a: Around) returns (ok: bool)
      requires Waiting(View(a)) && a.owner.NoOwner?
      modifies this
      ensures ok == state.Uninit? && RankOf(View(a)) == Progress(old(RankOf(View(a))), outcomes)
      ensures old(phase).PhaseQueue? ==> (ok <==> LockGoes(outcomes))
      ensures !ok ==> Waiting(View(a))
    {
      ok := false;
      var i := 0;
      ghost var rank := RankOf(View(a));
      while i < |outcomes| && !ok
        invariant 0 <= i <= |outcomes| && ok == state.Uninit?
        invariant RankOf(View(a)) == Progress(rank, outcomes[..i])
        invariant !ok ==> Waiting(View(a))
      {
        AttemptAdvances(View(a), outcomes[i]);
        assert outcomes[..i + 1][..i] == outcomes[..i];
        ok := Retry(outcomes[i], a);
        i := i + 1;
      }
      if ok { ProgressSplits(rank, outcomes, i); }
      assert outcomes[..|outcomes|] == outcomes;
      if rank == 1 { RetriesEndIff(outcomes); }
    }
  }

  lemma {:induction false} ProgressSplits(rank: nat, outcomes: seq<Outcome>, i: nat)
    requires i <= |outcomes| && Progress(rank, outcomes[..i]) == DONE
    ensures Progress(rank, outcomes) == DONE
    decreases |outcomes|
  {
    if i == |outcomes| {
      assert outcomes[..i] == outcomes;
    } else {
      var n := |outcomes| - 1;
      assert outcomes[..n][..i] == outcomes[..i];
      ProgressSplits(rank, outcomes[..n], i);
    }
  }

  /** A phase that is not the current one, or not owned, does nothing. */
  lemma Skips(s: Core, queue: bool, pool: bool, lock: bool)
    ensures !s.owner.Finalizing? || !s.ctx.phase.PhaseQueue? ==> QueuePhase(s, queue) == s
    ensures !s.owner.Finalizing? || !s.ctx.phase.PhasePool? ==> PoolPhase(s, pool) == s
    ensures !s.owner.Finalizing? || !s.ctx.phase.PhaseLock? ==> LockPhase(s, lock) == s
  {
  }
}
