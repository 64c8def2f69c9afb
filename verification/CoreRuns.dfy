/** Two whole runs of a core with a pool of one entry and a queue of one place, each from the start to a
    core that is READY and has lost its service; in the second nothing can end it any more. */
module CoreRuns {
  import opened JobPool
  import opened CoreLifecycle
  import opened CoreRetry
  import opened CoreTeardown

  lemma PathNothing(s: Core)
    ensures Path([s], [])
  {
  }

  lemma Extend(states: seq<Core>, events: seq<Event>, e: Event, t: Core) returns (longer: seq<Core>, more: seq<Event>)
    requires |states| == |events| + 1 && Path(states, events) && Moves(states[|events|], e, t)
    ensures |longer| == |more| + 1 == |states| + 1 && Path(longer, more) && states <= longer && longer[|more|] == t
  {
    hide Moves;
    longer, more := states + [t], events + [e];
    forall i | 0 <= i < |more|
      ensures Moves(longer[i], more[i], longer[i + 1])
    {
      if i < |events| { assert Moves(states[i], events[i], states[i + 1]); }
    }
  }

  /** A pool of one entry, free and taken. */
  const FREE := Pool([0], [0])
  const TAKEN := Pool([], [1])

  lemma OneEntry()
    ensures ValidPool(FREE) && ValidPool(TAKEN) && Allocated(FREE) == TAKEN && GivenBack(TAKEN, 0) == FREE && NewPool(1) == FREE
  {
    assert NewPool(1).free == [0] && NewPool(1).references == [0];
    NewPoolValid(1);
    assert [0][..0] == [] && [0][0 := 1] == [1];
    AllocatedValid(FREE);
    AllocateThenRelease(FREE);
  }

  /** The core of the run below between its steps; the pool has one entry, the queue one place. */
  function Snap(ctx: CoreLifecycle.Context, pool: Pool, queue: seq<Job>, service: Service, posting: Posting, owner: Owner,
                accepted: seq<nat>, called: seq<nat>): Core {
    Core(ctx, Resources(true, true, false, true), pool, 1, queue, service, posting, owner, accepted, called, false)
  }

  function WhileExecuting(ctx: CoreLifecycle.Context, kind: Kind, ok: bool): CoreLifecycle.Context {
    var during := ctx.(state := Effect(kind, ok, false, ctx.state), callbackActive := true);
    if kind.DeinitJob? then during.(jobDone := true, jobOk := ok) else during
  }

  lemma JobExecutes(ctx: CoreLifecycle.Context, job: Job, ok: bool, owner: Owner, accepted: seq<nat>, called: seq<nat>)
    ensures var s0 := Snap(ctx, TAKEN, [job], Looping, NotPosting, owner, accepted, called);
            var s1 := Snap(ctx, TAKEN, [], Running(job), NotPosting, owner, accepted, called);
            var s2 := Snap(ctx.(state := Effect(job.kind, ok, false, ctx.state)), TAKEN, [], Executed(job, ok), NotPosting, owner,
                           accepted, called);
            Moves(s0, OfService(Dequeue), s1) && Moves(s1, OfService(Execute(ok, false)), s2)
  {
    OneEntry();
    assert [job][1..] == [];
    hide ValidPool, Effect;
  }

  lemma JobCompletes(ctx: CoreLifecycle.Context, job: Job, ok: bool, owner: Owner, accepted: seq<nat>, called: seq<nat>)
    ensures var s2 := Snap(ctx.(state := Effect(job.kind, ok, false, ctx.state)), TAKEN, [], Executed(job, ok), NotPosting, owner,
                           accepted, called);
            var s3 := Snap(WhileExecuting(ctx, job.kind, ok), TAKEN, [], Completing(job), NotPosting, owner, accepted, called);
            Moves(s2, OfService(Complete), s3)
  {
    OneEntry();
    hide ValidPool, Effect;
  }

  lemma JobCallsBack(ctx: CoreLifecycle.Context, job: Job, ok: bool, owner: Owner, accepted: seq<nat>, called: seq<nat>)
    requires job.index == 0
    ensures var during := WhileExecuting(ctx, job.kind, ok);
            var s3 := Snap(during, TAKEN, [], Completing(job), NotPosting, owner, accepted, called);
            var s4 := Snap(during, FREE, [], Releasing(job), NotPosting, owner, accepted, called);
            var s5 := Snap(during, FREE, [], Calling(job), NotPosting, owner, accepted, called + [job.id]);
            var s6 := Snap(AfterExecuting(ctx, job.kind, ok), FREE, [], if job.kind.DeinitJob? then Ended else Looping, NotPosting, owner,
                           accepted, called + [job.id]);
            && Moves(s3, OfService(Release), s4)
            && Moves(s4, OfService(CallBack), s5)
            && Moves(s5, OfService(Return), s6)
  {
    OneEntry();
    hide ValidPool, GivenBack, Effect;
  }

  /** The service executes a job, from taking it to the end of its callback. */
  lemma OneJob(states: seq<Core>, events: seq<Event>, ctx: CoreLifecycle.Context, job: Job, ok: bool, owner: Owner,
                   accepted: seq<nat>, called: seq<nat>)
    returns (longer: seq<Core>, more: seq<Event>)
    requires |states| == |events| + 1 && Path(states, events) && job.index == 0
    requires states[|events|] == Snap(ctx, TAKEN, [job], Looping, NotPosting, owner, accepted, called)
    ensures |longer| == |more| + 1 && Path(longer, more) && states <= longer
    ensures longer[|more|] == Snap(AfterExecuting(ctx, job.kind, ok), FREE, [], if job.kind.DeinitJob? then Ended else Looping, NotPosting,
                                   owner, accepted, called + [job.id])
  {
    hide Moves, Path, Snap, WhileExecuting, AfterExecuting;
    var between, some := OneJobExecuted(states, events, ctx, job, ok, owner, accepted, called);
    longer, more := OneJobCalledBack(between, some, ctx, job, ok, owner, accepted, called);
  }

  lemma OneJobExecuted(states: seq<Core>, events: seq<Event>, ctx: CoreLifecycle.Context, job: Job, ok: bool, owner: Owner,
                        accepted: seq<nat>, called: seq<nat>)
    returns (longer: seq<Core>, more: seq<Event>)
    requires |states| == |events| + 1 && Path(states, events)
    requires states[|events|] == Snap(ctx, TAKEN, [job], Looping, NotPosting, owner, accepted, called)
    ensures |longer| == |more| + 1 && Path(longer, more) && states <= longer
    ensures longer[|more|] == Snap(WhileExecuting(ctx, job.kind, ok), TAKEN, [], Completing(job), NotPosting, owner, accepted, called)
  {
    JobExecutes(ctx, job, ok, owner, accepted, called);
    JobCompletes(ctx, job, ok, owner, accepted, called);
    hide Moves, Path, Snap, WhileExecuting, Effect;
    var s1 := Snap(ctx, TAKEN, [], Running(job), NotPosting, owner, accepted, called);
    var s2 := Snap(ctx.(state := Effect(job.kind, ok, false, ctx.state)), TAKEN, [], Executed(job, ok), NotPosting, owner,
                   accepted, called);
    var s3 := Snap(WhileExecuting(ctx, job.kind, ok), TAKEN, [], Completing(job), NotPosting, owner, accepted, called);
    longer, more := Extend3(states, events, OfService(Dequeue), s1, OfService(Execute(ok, false)), s2, OfService(Complete), s3);
  }

  lemma OneJobCalledBack(states: seq<Core>, events: seq<Event>, ctx: CoreLifecycle.Context, job: Job, ok: bool, owner: Owner,
                          accepted: seq<nat>, called: seq<nat>)
    returns (longer: seq<Core>, more: seq<Event>)
    requires |states| == |events| + 1 && Path(states, events) && job.index == 0
    requires states[|events|] == Snap(WhileExecuting(ctx, job.kind, ok), TAKEN, [], Completing(job), NotPosting, owner, accepted, called)
    ensures |longer| == |more| + 1 && Path(longer, more) && states <= longer
    ensures longer[|more|] == Snap(AfterExecuting(ctx, job.kind, ok), FREE, [], if job.kind.DeinitJob? then Ended else Looping, NotPosting,
                                   owner, accepted, called + [job.id])
  {
    JobCallsBack(ctx, job, ok, owner, accepted, called);
    hide Moves, Path, Snap, WhileExecuting, AfterExecuting;
    var during := WhileExecuting(ctx, job.kind, ok);
    var s4 := Snap(during, FREE, [], Releasing(job), NotPosting, owner, accepted, called);
    var s5 := Snap(during, FREE, [], Calling(job), NotPosting, owner, accepted, called + [job.id]);
    var s6 := Snap(AfterExecuting(ctx, job.kind, ok), FREE, [], if job.kind.DeinitJob? then Ended else Looping, NotPosting, owner,
                   accepted, called + [job.id]);
    longer, more := Extend3(states, events, OfService(Release), s4, OfService(CallBack), s5, OfService(Return), s6);
  }

  lemma Extend3(states: seq<Core>, events: seq<Event>, e1: Event, s1: Core, e2: Event, s2: Core, e3: Event, s3: Core)
    returns (longer: seq<Core>, more: seq<Event>)
    requires |states| == |events| + 1 && Path(states, events) && Moves(states[|events|], e1, s1) && Moves(s1, e2, s2) && Moves(s2, e3, s3)
    ensures |longer| == |more| + 1 == |states| + 3 && Path(longer, more) && states <= longer && longer[|more|] == s3
  {
    hide Path, Moves;
    longer, more := Extend(states, events, e1, s1);
    longer, more := Extend(longer, more, e2, s2);
    longer, more := Extend(longer, more, e3, s3);
  }

  function AfterExecuting(ctx: CoreLifecycle.Context, kind: Kind, ok: bool): CoreLifecycle.Context {
    var after := ctx.(state := Effect(kind, ok, false, ctx.state), callbackActive := false);
    if kind.DeinitJob? then after.(jobDone := true, jobOk := ok) else after
  }

  /** The claim of a teardown, and its job queued. */
  lemma TeardownQueued(states: seq<Core>, events: seq<Event>, ctx: CoreLifecycle.Context, after: CoreLifecycle.Context, service: Service,
                       previous: State, accepted: seq<nat>, called: seq<nat>)
    returns (longer: seq<Core>, more: seq<Event>)
    requires |states| == |events| + 1 && Path(states, events)
    requires var s := Snap(ctx, FREE, [], service, NotPosting, NoOwner, accepted, called);
             states[|events|] == s && !Reclaims(s) &&
             AfterClaim(s) == Snap(after, FREE, [], service, NotPosting, Claimed(true, service.NoTask?, previous), accepted, called)
    ensures |longer| == |more| + 1 && Path(longer, more) && states <= longer
    ensures longer[|more|] == Snap(after, TAKEN, [Job(|accepted|, 0, DeinitJob)], service, NotPosting, Submitted(service.NoTask?, previous),
                                   accepted + [|accepted|], called)
  {
    OneEntry();
    var owner, job := Claimed(true, service.NoTask?, previous), Job(|accepted|, 0, DeinitJob);
    var s1 := Snap(after, FREE, [], service, NotPosting, owner, accepted, called);
    var s2 := Snap(after, TAKEN, [], service, Posting(0, DeinitJob), owner, accepted, called);
    var s3 := Snap(after, TAKEN, [job], service, NotPosting, Submitted(service.NoTask?, previous), accepted + [|accepted|], called);
    hide ValidPool, AfterClaim, Allocated;
    longer, more := Extend3(states, events, OfSubmit(Claim), s1, OfSubmit(DeinitAlloc), s2, OfSubmit(DeinitEnqueue(true)), s3);
  }

  lemma ExampleStarts(ctx: CoreLifecycle.Context)
    requires ctx == Start().ctx.(state := Initing)
    ensures Moves(Start(), OfPoster(Initialise(1, 1)), Snap(ctx, TAKEN, [Job(0, 0, InitJob)], Looping, NotPosting, NoOwner, [0], []))
  {
    OneEntry();
    StartInv();
    ValidOfInv(Start());
    hide ValidPool;
  }

  lemma ExampleWaits(accepted: seq<nat>, called: seq<nat>)
    ensures Moves(Snap(CLOSING, TAKEN, [Job(1, 0, DeinitJob)], Looping, NotPosting, Submitted(false, InitFailed), accepted, called),
                  OfSubmit(DeinitStart(true)),
                  Snap(CLOSING, TAKEN, [Job(1, 0, DeinitJob)], Looping, NotPosting, Joining, accepted, called))
  {
    OneEntry();
    hide ValidPool;
  }

  /** The first attempt finds that its job failed, and gives up. */
  lemma ExampleGivesUp(ctx: CoreLifecycle.Context, accepted: seq<nat>, called: seq<nat>)
    requires ctx == REFUSED
    ensures var s3 := Snap(ctx, FREE, [], Ended, NotPosting, Joining, accepted, called);
            var s4 := Snap(ctx, FREE, [], NoTask, NotPosting, Checking, accepted, called);
            var s5 := Snap(GIVEN_UP, FREE, [], NoTask, NotPosting, NoOwner, accepted, called);
            Moves(s3, OfFinish(Join), s4) && Moves(s4, OfFinish(CheckResult), s5)
  {
    OneEntry();
    hide ValidPool;
  }

  lemma ExampleFailsToStart(ctx: CoreLifecycle.Context, accepted: seq<nat>, called: seq<nat>)
    requires ctx == CoreLifecycle.Context(Deinit, true, false, true, true, false, PhaseJob)
    ensures var s := Snap(ctx, TAKEN, [Job(2, 0, DeinitJob)], NoTask, NotPosting, Submitted(true, Ready), accepted, called);
            && ValidPool(s.pool) && Enabled(s, OfSubmit(DeinitStart(false)))
            && ServiceLost(Next(s, OfSubmit(DeinitStart(false)))) && Next(s, OfSubmit(DeinitStart(false))).ctx.state.Ready?
  {
    OneEntry();
    hide ValidPool, Drained;
  }

  const INITING := CoreLifecycle.Context(Initing, false, false, false, false, true, PhaseJob)
  const FAILED := CoreLifecycle.Context(InitFailed, false, false, false, false, true, PhaseJob)
  const CLOSING := CoreLifecycle.Context(Deinit, true, false, true, false, true, PhaseJob)
  const REFUSED := CoreLifecycle.Context(Deinit, true, false, true, true, false, PhaseJob)
  const GIVEN_UP := CoreLifecycle.Context(Deinit, true, false, false, true, false, PhaseJob)

  lemma ExampleContexts()
    ensures INITING == Start().ctx.(state := Initing)
    ensures AfterExecuting(INITING, InitJob, false) == FAILED && AfterExecuting(CLOSING, DeinitJob, false) == REFUSED
    ensures CLOSING == REFUSED.(jobDone := false, jobOk := true) && GIVEN_UP == REFUSED.(finalizing := false)
  {
  }

  lemma ExampleClaims(accepted: seq<nat>, called: seq<nat>)
    ensures AfterClaim(Snap(FAILED, FREE, [], Looping, NotPosting, NoOwner, accepted, called))
         == Snap(CLOSING, FREE, [], Looping, NotPosting, Claimed(true, false, InitFailed), accepted, called)
    ensures AfterClaim(Snap(GIVEN_UP, FREE, [], NoTask, NotPosting, NoOwner, accepted, called))
         == Snap(REFUSED, FREE, [], NoTask, NotPosting, Claimed(true, true, Ready), accepted, called)
  {
  }

  lemma InitialisationFails() returns (states: seq<Core>, events: seq<Event>)
    ensures |states| == |events| + 1 && Path(states, events) && states[0] == Start()
    ensures states[|events|] == Snap(FAILED, FREE, [], Looping, NotPosting, NoOwner, [0], [0])
  {
    ExampleContexts();
    ExampleStarts(INITING);
    PathNothing(Start());
    hide Path, Moves, Snap, Start, AfterExecuting;
    states, events := Extend([Start()], [], OfPoster(Initialise(1, 1)),
                             Snap(INITING, TAKEN, [Job(0, 0, InitJob)], Looping, NotPosting, NoOwner, [0], []));
    states, events := OneJob(states, events, INITING, Job(0, 0, InitJob), false, NoOwner, [0], []);
    assert [] + [0] == [0];
  }

  lemma TeardownFails(states: seq<Core>, events: seq<Event>) returns (longer: seq<Core>, more: seq<Event>)
    requires |states| == |events| + 1 && Path(states, events)
    requires states[|events|] == Snap(FAILED, FREE, [], Looping, NotPosting, NoOwner, [0], [0])
    ensures |longer| == |more| + 1 && Path(longer, more) && states <= longer && |events| < |more|
    ensures longer[|more|] == Snap(GIVEN_UP, FREE, [], NoTask, NotPosting, NoOwner, [0, 1], [0, 1])
  {
    ExampleContexts();
    ExampleClaims([0], [0]);
    ExampleWaits([0, 1], [0]);
    ExampleGivesUp(REFUSED, [0, 1], [0, 1]);
    hide Path, Moves, Snap, AfterExecuting, AfterClaim;
    longer, more := TeardownQueued(states, events, FAILED, CLOSING, Looping, InitFailed, [0], [0]);
    assert [0] + [1] == [0, 1];
    longer, more := Extend(longer, more, OfSubmit(DeinitStart(true)),
                           Snap(CLOSING, TAKEN, [Job(1, 0, DeinitJob)], Looping, NotPosting, Joining, [0, 1], [0]));
    longer, more := OneJob(longer, more, CLOSING, Job(1, 0, DeinitJob), false, Joining, [0, 1], [0]);
    longer, more := Extend(longer, more, OfFinish(Join), Snap(REFUSED, FREE, [], NoTask, NotPosting, Checking, [0, 1], [0, 1]));
    longer, more := Extend(longer, more, OfFinish(CheckResult), Snap(GIVEN_UP, FREE, [], NoTask, NotPosting, NoOwner, [0, 1], [0, 1]));
  }

  /** A core whose initialisation failed is torn down, the teardown's job fails, and the retry cannot
      start the service: it comes back READY, without a service. */
  lemma ServiceLostIsReachable() returns (states: seq<Core>, events: seq<Event>, k: nat)
    ensures Run(states, events) && k < |events| && states[k].ctx.state.InitFailed?
    ensures ServiceLost(states[|events|]) && states[|events|].ctx.state.Ready?
  {
    states, events := InitialisationFails();
    k := |events|;
    ghost var early := states;
    assert early[k].ctx.state.InitFailed?;
    states, events := TeardownFails(states, events);
    ExampleClaims([0, 1], [0, 1]);
    ExampleFailsToStart(REFUSED, [0, 1, 2], [0, 1]);
    var s := Snap(REFUSED, TAKEN, [Job(2, 0, DeinitJob)], NoTask, NotPosting, Submitted(true, Ready), [0, 1, 2], [0, 1]);
    var t := Next(s, OfSubmit(DeinitStart(false)));
    assert Moves(s, OfSubmit(DeinitStart(false)), t);
    hide Path, Moves, Snap, Next, ServiceLost, AfterClaim;
    states, events := TeardownQueued(states, events, GIVEN_UP, REFUSED, NoTask, Ready, [0, 1], [0, 1]);
    assert [0, 1] + [2] == [0, 1, 2];
    states, events := Extend(states, events, OfSubmit(DeinitStart(false)), t);
    assert states[0] == early[0] && states[k] == early[k];
  }

  // ---------------------------------------------------------------- no teardown ever again

  const READY := CoreLifecycle.Context(Ready, false, false, false, false, true, PhaseJob)

  lemma SecondContexts()
    ensures AfterExecuting(INITING, InitJob, true) == READY && INITING == Start().ctx.(state := Initing)
    ensures AfterClaim(Snap(READY, TAKEN, [Job(1, 0, ConnectJob)], Looping, NotPosting, NoOwner, [0, 1], [0]))
         == Snap(CLOSING, TAKEN, [Job(1, 0, ConnectJob)], Looping, NotPosting, Claimed(true, false, Ready), [0, 1], [0])
  {
  }

  lemma SecondPosts()
    ensures var s := Snap(READY, FREE, [], Looping, NotPosting, NoOwner, [0], [0]);
            var s' := Snap(READY, TAKEN, [], Looping, Posting(0, ConnectJob), NoOwner, [0], [0]);
            var t := Snap(READY, TAKEN, [Job(1, 0, ConnectJob)], Looping, NotPosting, NoOwner, [0, 1], [0]);
            Moves(s, OfPoster(BeginPost(ConnectJob)), s') && Moves(s', OfPoster(EndPost(true)), t)
  {
    OneEntry();
    hide ValidPool;
  }

  lemma SecondFails()
    ensures var s := Snap(CLOSING, TAKEN, [Job(1, 0, ConnectJob)], Looping, NotPosting, Claimed(true, false, Ready), [0, 1], [0]);
            var s' := s.(service := Broken, faulted := true);
            var t := Snap(READY, TAKEN, [Job(1, 0, ConnectJob)], Broken, NotPosting, NoOwner, [0, 1], [0]).(faulted := true);
            && Moves(s, OfService(DequeueFails), s') && Moves(s', OfSubmit(DeinitAlloc), t)
            && Loses(s', OfSubmit(DeinitAlloc)) && ServiceLost(t) && !ServiceLost(s')
  {
    OneEntry();
    hide ValidPool;
  }

  lemma InitialisationSucceeds() returns (states: seq<Core>, events: seq<Event>)
    ensures |states| == |events| + 1 && Path(states, events) && states[0] == Start()
    ensures states[|events|] == Snap(READY, FREE, [], Looping, NotPosting, NoOwner, [0], [0])
  {
    SecondContexts();
    ExampleStarts(INITING);
    PathNothing(Start());
    hide Path, Moves, Snap, Start, AfterExecuting, AfterClaim;
    states, events := Extend([Start()], [], OfPoster(Initialise(1, 1)),
                             Snap(INITING, TAKEN, [Job(0, 0, InitJob)], Looping, NotPosting, NoOwner, [0], []));
    states, events := OneJob(states, events, INITING, Job(0, 0, InitJob), true, NoOwner, [0], []);
    assert [] + [0] == [0];
  }

  /** A connect takes the only entry, a teardown is claimed, the service's wait fails, and the teardown finds
      no entry for its job: the core is READY without a service, and nothing ever ends it. */
  lemma NeverTornDownIsReachable() returns (states: seq<Core>, events: seq<Event>)
    ensures Run(states, events) && ServiceLost(states[|events|]) && states[|events|].ctx.state.Ready?
    ensures !CanTearDown(states[|events|])
  {
    states, events := InitialisationSucceeds();
    SecondPosts();
    SecondContexts();
    SecondFails();
    ghost var early := states;
    var job := Job(1, 0, ConnectJob);
    var s := Snap(CLOSING, TAKEN, [job], Looping, NotPosting, Claimed(true, false, Ready), [0, 1], [0]);
    var t := Snap(READY, TAKEN, [job], Broken, NotPosting, NoOwner, [0, 1], [0]).(faulted := true);
    var before := Snap(READY, TAKEN, [job], Looping, NotPosting, NoOwner, [0, 1], [0]);
    SecondClaims(before, s);
    assert !Resumable(t);
    hide Path, Moves, Snap, ServiceLost, AfterClaim, Loses, CanTearDown, Resumable;
    states, events := Extend(states, events, OfPoster(BeginPost(ConnectJob)),
                             Snap(READY, TAKEN, [], Looping, Posting(0, ConnectJob), NoOwner, [0], [0]));
    states, events := Extend(states, events, OfPoster(EndPost(true)), before);
    states, events := Extend(states, events, OfSubmit(Claim), s);
    states, events := Extend(states, events, OfService(DequeueFails), s.(service := Broken, faulted := true));
    states, events := Extend(states, events, OfSubmit(DeinitAlloc), t);
    assert states[0] == early[0];
    LostInRun(states, events);
  }

  lemma SecondClaims(s: Core, t: Core)
    requires s == Snap(READY, TAKEN, [Job(1, 0, ConnectJob)], Looping, NotPosting, NoOwner, [0, 1], [0])
    requires t == Snap(CLOSING, TAKEN, [Job(1, 0, ConnectJob)], Looping, NotPosting, Claimed(true, false, Ready), [0, 1], [0])
    ensures Moves(s, OfSubmit(Claim), t)
  {
    OneEntry();
    SecondContexts();
    hide ValidPool, AfterClaim;
  }

  lemma LostInRun(states: seq<Core>, events: seq<Event>)
    requires |states| == |events| + 1 && Path(states, events) && states[0] == Start() && ServiceLost(states[|events|])
    requires !Resumable(states[|events|])
    ensures Run(states, events) && !CanTearDown(states[|events|])
  {
    hide Path, Resumable, CanTearDown, Inv;
    RunInv(states, events, |events|);
    LostIsUnowned(states[|events|]);
    TearDownIff(states[|events|]);
  }
}
