/** The bounded message queue: two counting semaphores, a content lock and a state lock, under
    every interleaving of any number of pushing and popping threads, timeouts, failing posts and
    a close. */
module BoundedQueue {
  import opened Counting

  type Item = seq<bv8>

  datatype Lifecycle = Open | Closing | Closed

  /** The fields of the queue; `items` is the content of the ring, oldest first. */
  datatype Shared = Shared(
    capacity: nat,
    items: seq<Item>,
    state: Lifecycle,
    emptySlots: nat,
    filledSlots: nat,
    inFlight: nat,
    waitingPush: nat,
    waitingPop: nat)

  datatype Task = Pushing(item: Item) | Popping

  /** Where a thread is inside `actrust_queue_push` or `actrust_queue_pop`:
      - `Waiting`: admitted, in the wait loop without a token;
      - `Got`: its semaphore wait has succeeded and the state has not been looked at since;
      - `Holding`: past the wait with a token, on its way to the locks;
      - `Posted`: inside both locks, the opposite semaphore posted, the ring not yet changed;
      - `Leaving`: the wait failed and the operation still has to sign out. */
  datatype Phase = Idle | Waiting(task: Task) | Got(task: Task) | Holding(task: Task) | Posted(task: Task) | Leaving(task: Task)

  // ---------------------------------------------------------------- locked sections

  function Leave(q: Shared): Shared {
    q.(inFlight := Dec(q.inFlight))
  }

  function StopWaiting(q: Shared, task: Task): Shared {
    if task.Pushing? then q.(waitingPush := Dec(q.waitingPush)) else q.(waitingPop := Dec(q.waitingPop))
  }

  /** The semaphore a task waits on. */
  function Tokens(q: Shared, task: Task): nat {
    if task.Pushing? then q.emptySlots else q.filledSlots
  }

  function PostOwn(q: Shared, task: Task): Shared {
    if task.Pushing? then q.(emptySlots := q.emptySlots + 1) else q.(filledSlots := q.filledSlots + 1)
  }

  function PostOther(q: Shared, task: Task): Shared {
    if task.Pushing? then q.(filledSlots := q.filledSlots + 1) else q.(emptySlots := q.emptySlots + 1)
  }

  function Admit(q: Shared, task: Task): Shared {
    var q1 := q.(inFlight := q.inFlight + 1);
    if task.Pushing? then q1.(waitingPush := q.waitingPush + 1) else q1.(waitingPop := q.waitingPop + 1)
  }

  function TakeToken(q: Shared, task: Task): Shared
    requires Tokens(q, task) > 0
  {
    if task.Pushing? then q.(emptySlots := q.emptySlots - 1) else q.(filledSlots := q.filledSlots - 1)
  }

  // ---------------------------------------------------------------- the system

  /** The queue, its threads, and the items committed in and out so far. `lostEmpty` and
      `lostFilled` count tokens that were taken and never given back; `broken` records that a
      compensating post failed while the queue was open. */
  datatype System = System(
    q: Shared,
    threads: seq<Phase>,
    pushed: seq<Item>,
    popped: seq<Item>,
    lostEmpty: nat,
    lostFilled: nat,
    broken: bool)

  datatype Event =
    | Enter(t: nat, task: Task)
    | Take(t: nat)
    | Check(t: nat, zeroWait: bool, repost: bool)
    | GiveUp(t: nat, checked: bool)
    | SignOut(t: nat)
    | Post(t: nat, posted: bool, repost: bool)
    | Commit(t: nat)
    | Close
    | Finish

  predicate IsWaiting(p: Phase, push: bool) {
    (p.Waiting? || p.Got?) && p.task.Pushing? == push
  }

  predicate HoldsToken(p: Phase, push: bool) {
    (p.Got? || p.Holding? || p.Posted?) && p.task.Pushing? == push
  }

  predicate HasPosted(p: Phase, push: bool) {
    p.Posted? && p.task.Pushing? == push
  }

  const BUSY: Phase -> bool := (p: Phase) => !p.Idle?
  const WAITING_PUSH: Phase -> bool := (p: Phase) => IsWaiting(p, true)
  const WAITING_POP: Phase -> bool := (p: Phase) => IsWaiting(p, false)
  const EMPTY_HELD: Phase -> bool := (p: Phase) => HoldsToken(p, true)
  const FILLED_HELD: Phase -> bool := (p: Phase) => HoldsToken(p, false)
  const PUSH_POSTED: Phase -> bool := (p: Phase) => HasPosted(p, true)
  const POP_POSTED: Phase -> bool := (p: Phase) => HasPosted(p, false)

  /** No thread is inside the section that holds both locks. */
  predicate Unlocked(s: System) {
    forall i | 0 <= i < |s.threads| :: !s.threads[i].Posted?
  }

  predicate Enabled(s: System, e: Event) {
    match e
    case Enter(t, _) => t < |s.threads| && s.threads[t].Idle? && Unlocked(s)
    case Take(t) => t < |s.threads| && s.threads[t].Waiting? && Tokens(s.q, s.threads[t].task) > 0
    case Check(t, _, _) => t < |s.threads| && s.threads[t].Got? && Unlocked(s)
    case GiveUp(t, _) => t < |s.threads| && s.threads[t].Waiting? && Unlocked(s)
    case SignOut(t) => t < |s.threads| && s.threads[t].Leaving? && Unlocked(s)
    case Post(t, _, _) => t < |s.threads| && s.threads[t].Holding? && Unlocked(s)
    case Commit(t) => t < |s.threads| && s.threads[t].Posted? && (s.threads[t].task.Popping? ==> s.q.items != [])
    case Close => Unlocked(s)
    case Finish => Unlocked(s) && !s.q.state.Open? && s.q.inFlight == 0 && s.q.waitingPush == 0 && s.q.waitingPop == 0
  }

  function Move(s: System, t: nat, q: Shared, p: Phase): System
    requires t < |s.threads|
  {
    s.(q := q, threads := s.threads[t := p])
  }

  /** Giving a token back: it returns to its semaphore, or is lost if that post fails. */
  function GiveBack(s: System, task: Task, repost: bool): System {
    if repost then s.(q := PostOwn(s.q, task))
    else if task.Pushing? then s.(lostEmpty := s.lostEmpty + 1, broken := s.broken || s.q.state.Open?)
    else s.(lostFilled := s.lostFilled + 1, broken := s.broken || s.q.state.Open?)
  }

  function Next(s: System, e: Event): System
    requires Enabled(s, e)
  {
    match e
    case Enter(t, task) =>
      if s.q.state.Open? then Move(s, t, Admit(s.q, task), Waiting(task)) else s
    case Take(t) =>
      Move(s, t, TakeToken(s.q, s.threads[t].task), Got(s.threads[t].task))
    case Check(t, zeroWait, repost) =>
      var task := s.threads[t].task;
      if s.q.state.Open? then Move(s, t, StopWaiting(s.q, task), Holding(task))
      else
        // A non-blocking call reposts its token; the sliced wait drops it.
        var s1 := GiveBack(s, task, zeroWait && repost);
        Move(s1, t, Leave(StopWaiting(s1.q, task)), Idle)
    case GiveUp(t, checked) =>
      var task := s.threads[t].task;
      if checked && !s.q.state.Open? then Move(s, t, Leave(StopWaiting(s.q, task)), Idle)
      else Move(s, t, StopWaiting(s.q, task), Leaving(task))
    case SignOut(t) => Move(s, t, Leave(s.q), Idle)
    case Post(t, posted, repost) =>
      var task := s.threads[t].task;
      if !s.q.state.Open? || !posted then
        var s1 := GiveBack(s, task, repost);
        Move(s1, t, Leave(s1.q), Idle)
      else Move(s, t, PostOther(s.q, task), Posted(task))
    case Commit(t) =>
      var q := Leave(s.q);
      match s.threads[t].task {
        case Pushing(x) =>
          Move(s, t, q.(items := q.items + [x]), Idle).(pushed := s.pushed + [x])
        case Popping =>
          Move(s, t, q.(items := q.items[1..]), Idle).(popped := s.popped + [q.items[0]])
      }
    case Close => if s.q.state.Open? then s.(q := s.q.(state := Closing)) else s
    case Finish => s.(q := s.q.(state := Closed))
  }

  // ---------------------------------------------------------------- the invariant

  predicate Counters(s: System) {
    && s.q.inFlight == Count(s.threads, BUSY)
    && s.q.waitingPush == Count(s.threads, WAITING_PUSH)
    && s.q.waitingPop == Count(s.threads, WAITING_POP)
  }

  /** Token conservation: every slot of the ring is an empty token, held by a pusher, filled, or
      lost, and every filled slot is a filled token, held by a popper, or lost. A popper between
      its post and its commit has already returned a slot it still occupies, a pusher has already
      announced an item it has not yet stored. */
  predicate Conserved(s: System) {
    && s.q.emptySlots + Count(s.threads, EMPTY_HELD) + |s.q.items| + s.lostEmpty
       == s.q.capacity + Count(s.threads, POP_POSTED)
    && s.q.filledSlots + Count(s.threads, FILLED_HELD) + s.lostFilled
       == |s.q.items| + Count(s.threads, PUSH_POSTED)
  }

  predicate Exclusive(s: System) {
    forall i, j | 0 <= i < j < |s.threads| :: !(s.threads[i].Posted? && s.threads[j].Posted?)
  }

  predicate Inv(s: System) {
    && Counters(s)
    && Conserved(s)
    && Exclusive(s)
    && (!s.q.state.Open? ==> Unlocked(s))
    && (s.q.state.Open? && !s.broken ==> s.lostEmpty == 0 && s.lostFilled == 0)
    && s.pushed == s.popped + s.q.items
    && |s.q.items| <= s.q.capacity
  }

  function Initial(capacity: nat, threads: nat): System {
    System(Shared(capacity, [], Open, capacity, 0, 0, 0, 0), seq(threads, _ => Idle), [], [], 0, 0, false)
  }

  lemma InitialInv(capacity: nat, threads: nat)
    ensures Inv(Initial(capacity, threads))
  {
    var s := Initial(capacity, threads);
    CountZero(s.threads, BUSY);
    CountZero(s.threads, WAITING_PUSH);
    CountZero(s.threads, WAITING_POP);
    CountZero(s.threads, EMPTY_HELD);
    CountZero(s.threads, FILLED_HELD);
    CountZero(s.threads, PUSH_POSTED);
    CountZero(s.threads, POP_POSTED);
  }

  /** How one thread's move shifts every count. */
  lemma CountsMove(threads: seq<Phase>, t: nat, p: Phase)
    requires t < |threads|
    ensures
      var threads' := threads[t := p];
      && Count(threads', BUSY) == Count(threads, BUSY) - One(BUSY(threads[t])) + One(BUSY(p))
      && Count(threads', WAITING_PUSH) == Count(threads, WAITING_PUSH) - One(IsWaiting(threads[t], true)) + One(IsWaiting(p, true))
      && Count(threads', WAITING_POP) == Count(threads, WAITING_POP) - One(IsWaiting(threads[t], false)) + One(IsWaiting(p, false))
      && Count(threads', EMPTY_HELD) == Count(threads, EMPTY_HELD) - One(HoldsToken(threads[t], true)) + One(HoldsToken(p, true))
      && Count(threads', FILLED_HELD) == Count(threads, FILLED_HELD) - One(HoldsToken(threads[t], false)) + One(HoldsToken(p, false))
      && Count(threads', PUSH_POSTED) == Count(threads, PUSH_POSTED) - One(HasPosted(threads[t], true)) + One(HasPosted(p, true))
      && Count(threads', POP_POSTED) == Count(threads, POP_POSTED) - One(HasPosted(threads[t], false)) + One(HasPosted(p, false))
  {
    CountUpdate(threads, t, p, BUSY);
    CountUpdate(threads, t, p, WAITING_PUSH);
    CountUpdate(threads, t, p, WAITING_POP);
    CountUpdate(threads, t, p, EMPTY_HELD);
    CountUpdate(threads, t, p, FILLED_HELD);
    CountUpdate(threads, t, p, PUSH_POSTED);
    CountUpdate(threads, t, p, POP_POSTED);
  }

  /** The thread at hand is itself among those counted. */
  lemma CountsInclude(threads: seq<Phase>, t: nat)
    requires t < |threads|
    ensures Count(threads, BUSY) >= One(BUSY(threads[t]))
    ensures Count(threads, WAITING_PUSH) >= One(IsWaiting(threads[t], true))
    ensures Count(threads, WAITING_POP) >= One(IsWaiting(threads[t], false))
    ensures Count(threads, EMPTY_HELD) >= One(HoldsToken(threads[t], true))
    ensures Count(threads, FILLED_HELD) >= One(HoldsToken(threads[t], false))
    ensures Count(threads, PUSH_POSTED) >= One(HasPosted(threads[t], true))
    ensures Count(threads, POP_POSTED) >= One(HasPosted(threads[t], false))
  {
    if BUSY(threads[t]) { CountOne(threads, t, BUSY); }
    if WAITING_PUSH(threads[t]) { CountOne(threads, t, WAITING_PUSH); }
    if WAITING_POP(threads[t]) { CountOne(threads, t, WAITING_POP); }
    if EMPTY_HELD(threads[t]) { CountOne(threads, t, EMPTY_HELD); }
    if FILLED_HELD(threads[t]) { CountOne(threads, t, FILLED_HELD); }
    if PUSH_POSTED(threads[t]) { CountOne(threads, t, PUSH_POSTED); }
    if POP_POSTED(threads[t]) { CountOne(threads, t, POP_POSTED); }
  }

  /** Inside the lock, nobody else has posted. */
  lemma PostedAlone(s: System, t: nat)
    requires Inv(s) && t < |s.threads| && s.threads[t].Posted?
    ensures Count(s.threads, PUSH_POSTED) == One(s.threads[t].task.Pushing?)
    ensures Count(s.threads, POP_POSTED) == One(s.threads[t].task.Popping?)
  {
    var rest := s.threads[t := Idle];
    CountsMove(s.threads, t, Idle);
    CountZero(rest, PUSH_POSTED);
    CountZero(rest, POP_POSTED);
  }

  lemma NonePosted(s: System)
    requires Unlocked(s)
    ensures Count(s.threads, PUSH_POSTED) == 0 && Count(s.threads, POP_POSTED) == 0
  {
    CountZero(s.threads, PUSH_POSTED);
    CountZero(s.threads, POP_POSTED);
  }

  /** A commit never overflows or underflows the ring. */
  lemma CommitFits(s: System, t: nat)
    requires Inv(s) && t < |s.threads| && s.threads[t].Posted?
    ensures s.threads[t].task.Pushing? ==> |s.q.items| < s.q.capacity
    ensures s.threads[t].task.Popping? ==> s.q.items != []
  {
    PostedAlone(s, t);
    CountsInclude(s.threads, t);
  }

  lemma EnterInv(s: System, e: Event)
    requires Inv(s) && e.Enter? && Enabled(s, e)
    ensures Inv(Next(s, e))
  {
    hide Count;
    CountsInclude(s.threads, e.t);
    CountsMove(s.threads, e.t, Next(s, e).threads[e.t]);
    assert Next(s, e).threads == s.threads[e.t := Next(s, e).threads[e.t]];
  }

  lemma TakeInv(s: System, e: Event)
    requires Inv(s) && e.Take? && Enabled(s, e)
    ensures Inv(Next(s, e))
  {
    hide Count;
    CountsInclude(s.threads, e.t);
    CountsMove(s.threads, e.t, Next(s, e).threads[e.t]);
    assert Next(s, e).threads == s.threads[e.t := Next(s, e).threads[e.t]];
  }

  lemma CheckInv(s: System, e: Event)
    requires Inv(s) && e.Check? && Enabled(s, e)
    ensures Inv(Next(s, e))
  {
    hide Count;
    CountsInclude(s.threads, e.t);
    CountsMove(s.threads, e.t, Next(s, e).threads[e.t]);
    assert Next(s, e).threads == s.threads[e.t := Next(s, e).threads[e.t]];
  }

  lemma GiveUpInv(s: System, e: Event)
    requires Inv(s) && e.GiveUp? && Enabled(s, e)
    ensures Inv(Next(s, e))
  {
    hide Count;
    CountsInclude(s.threads, e.t);
    CountsMove(s.threads, e.t, Next(s, e).threads[e.t]);
    assert Next(s, e).threads == s.threads[e.t := Next(s, e).threads[e.t]];
  }

  lemma SignOutInv(s: System, e: Event)
    requires Inv(s) && e.SignOut? && Enabled(s, e)
    ensures Inv(Next(s, e))
  {
    hide Count;
    CountsInclude(s.threads, e.t);
    CountsMove(s.threads, e.t, Next(s, e).threads[e.t]);
    assert Next(s, e).threads == s.threads[e.t := Next(s, e).threads[e.t]];
  }

  lemma PostInv(s: System, e: Event)
    requires Inv(s) && e.Post? && Enabled(s, e)
    ensures Inv(Next(s, e))
  {
    hide Count;
    CountsInclude(s.threads, e.t);
    CountsMove(s.threads, e.t, Next(s, e).threads[e.t]);
    assert Next(s, e).threads == s.threads[e.t := Next(s, e).threads[e.t]];
  }

  lemma CommitInv(s: System, e: Event)
    requires Inv(s) && e.Commit? && Enabled(s, e)
    ensures Inv(Next(s, e))
  {
    hide Count;
    CommitFits(s, e.t);
    CountsInclude(s.threads, e.t);
    CountsMove(s.threads, e.t, Next(s, e).threads[e.t]);
    assert Next(s, e).threads == s.threads[e.t := Next(s, e).threads[e.t]];
  }

  /** Every step of every thread keeps the invariant. */
  lemma StepInv(s: System, e: Event)
    requires Inv(s) && Enabled(s, e)
    ensures Inv(Next(s, e))
  {
    match e
    case Enter(_, _) => EnterInv(s, e);
    case Take(_) => TakeInv(s, e);
    case Check(_, _, _) => CheckInv(s, e);
    case GiveUp(_, _) => GiveUpInv(s, e);
    case SignOut(_) => SignOutInv(s, e);
    case Post(_, _, _) => PostInv(s, e);
    case Commit(_) => CommitInv(s, e);
    case Close =>
    case Finish =>
  }

  // ---------------------------------------------------------------- whole runs

  predicate Run(states: seq<System>, events: seq<Event>) {
    && |states| == |events| + 1
    && forall i | 0 <= i < |events| :: Enabled(states[i], events[i]) && states[i + 1] == Next(states[i], events[i])
  }

  lemma {:induction false} RunInv(states: seq<System>, events: seq<Event>)
    requires Run(states, events) && Inv(states[0])
    ensures Inv(states[|events|]) && states[|events|].q.capacity == states[0].q.capacity
  {
    hide Inv, Next, Enabled;
    var n := |events|;
    if n > 0 {
      assert Run(states[..n], events[..n - 1]);
      RunInv(states[..n], events[..n - 1]);
      StepInv(states[n - 1], events[n - 1]);
      CapacityKept(states[n - 1], events[n - 1]);
    }
  }

  lemma CapacityKept(s: System, e: Event)
    requires Enabled(s, e)
    ensures Next(s, e).q.capacity == s.q.capacity
  {
  }

  /** The queue is a bounded FIFO in every run: what has left is a prefix of what has been
      committed, in the same order, the rest is inside, and it never exceeds the capacity. While
      the queue is open, unless a compensating post has failed, no token is ever lost. */
  lemma QueueIsFifo(states: seq<System>, events: seq<Event>, capacity: nat, threads: nat)
    requires Run(states, events) && states[0] == Initial(capacity, threads)
    ensures
      var s := states[|events|];
      && s.pushed == s.popped + s.q.items
      && |s.q.items| <= capacity
      && (Unlocked(s) && s.q.state.Open? && !s.broken ==>
            && s.q.emptySlots + Count(s.threads, EMPTY_HELD) + |s.q.items| == capacity
            && s.q.filledSlots + Count(s.threads, FILLED_HELD) == |s.q.items|)
  {
    InitialInv(capacity, threads);
    RunInv(states, events);
    if Unlocked(states[|events|]) {
      NonePosted(states[|events|]);
    }
  }

  /** The only steps that change the contents are commits, each by its own thread between its
      admission and its return, and each is one operation of a bounded FIFO. */
  lemma CommitIsFifoStep(s: System, e: Event)
    requires Inv(s) && Enabled(s, e)
    ensures
      var s' := Next(s, e);
      if e.Commit? then
        && s.q.state.Open?
        && match s.threads[e.t].task {
             case Pushing(x) => |s.q.items| < s.q.capacity && s'.q.items == s.q.items + [x] && s'.popped == s.popped
             case Popping => s.q.items != [] && s.q.items == [s'.popped[|s.popped|]] + s'.q.items && s'.pushed == s.pushed
           }
      else s'.q.items == s.q.items && s'.pushed == s.pushed && s'.popped == s.popped
  {
    if e.Commit? {
      CommitFits(s, e.t);
    }
  }

  /** Once the queue has left OPEN its contents never change again. */
  lemma {:induction false} ClosedQueueIsFrozen(states: seq<System>, events: seq<Event>)
    requires Run(states, events) && Inv(states[0]) && !states[0].q.state.Open?
    ensures !states[|events|].q.state.Open? && states[|events|].q.items == states[0].q.items
  {
    var n := |events|;
    if n > 0 {
      assert Run(states[..n], events[..n - 1]);
      ClosedQueueIsFrozen(states[..n], events[..n - 1]);
      RunInv(states[..n], events[..n - 1]);
      CommitIsFifoStep(states[n - 1], events[n - 1]);
    }
  }

  /** Closing, in every run: a close leaves the queue not open, and CLOSED is reached only with every thread outside.
      From the close on every call turns back at its next look at the state, with the contents untouched: one
      that comes in does not get in; one that waits leaves; one that has its token leaves too, and the token is
      given back by a call that did not wait, or that was already past its wait, and dropped by one that waited. */
  lemma ClosingTurnsAway(states: seq<System>, events: seq<Event>, n: nat)
    requires Run(states, events) && Inv(states[0]) && n < |events|
    ensures events[n] == Close ==>
              states[n + 1] == states[n].(q := states[n].q.(state := if states[n].q.state == Open then Closing else states[n].q.state))
    ensures events[n] == Finish ==>
              states[n + 1] == states[n].(q := states[n].q.(state := Closed)) && forall i | 0 <= i < |states[n].threads| :: states[n].threads[i] == Idle
    ensures states[n].q.state != Open ==>
              var s, s' := states[n], states[n + 1];
              && s'.q.items == s.q.items && s'.q.state != Open
              && match events[n]
                 case Enter(_, _) => s' == s
                 case Check(t, zeroWait, repost) => Gone(s, s', t, zeroWait && repost)
                 case GiveUp(t, checked) => checked ==> Gone(s, s', t, false)
                 case SignOut(t) => Gone(s, s', t, false)
                 case Post(t, _, repost) => Gone(s, s', t, repost)
                 case _ => true
  {
    assert Run(states[..n + 1], events[..n]);
    RunInv(states[..n + 1], events[..n]);
    assert Enabled(states[n], events[n]) && states[n + 1] == Next(states[n], events[n]);
    hide Inv, Next, Enabled, Gone;
    if states[n].q.state != Open { TurnsAway(states[n], events[n]); }
    CloserSteps(states[n], events[n]);
  }

  /** Thread `t` has left, and its semaphore has the token back or not. */
  predicate Gone(s: System, s': System, t: nat, back: bool)
    requires t < |s.threads|
  {
    && s'.threads == s.threads[t := Idle] && s'.q.inFlight + 1 == s.q.inFlight
    && (!s.threads[t].Idle? ==>
          Tokens(s'.q, s.threads[t].task) == Tokens(s.q, s.threads[t].task) + if back then 1 else 0)
  }

  lemma CloserSteps(s: System, e: Event)
    requires Inv(s) && Enabled(s, e)
    ensures e == Close ==> Next(s, e) == s.(q := s.q.(state := if s.q.state == Open then Closing else s.q.state))
    ensures e == Finish ==> Next(s, e) == s.(q := s.q.(state := Closed)) && forall i | 0 <= i < |s.threads| :: s.threads[i] == Idle
  {
    if e == Finish { CountZero(s.threads, BUSY); }
    hide Count;
  }

  lemma TurnsAway(s: System, e: Event)
    requires Inv(s) && Enabled(s, e) && s.q.state != Open
    ensures Next(s, e).q.items == s.q.items && Next(s, e).q.state != Open
    ensures e.Enter? ==> Next(s, e) == s
    ensures e.Check? ==> Gone(s, Next(s, e), e.t, e.zeroWait && e.repost)
    ensures e.GiveUp? && e.checked ==> Gone(s, Next(s, e), e.t, false)
    ensures e.SignOut? ==> Gone(s, Next(s, e), e.t, false)
    ensures e.Post? ==> Gone(s, Next(s, e), e.t, e.repost)
  {
    if e.Check? || e.GiveUp? || e.SignOut? || e.Post? { CountsInclude(s.threads, e.t); }
    hide Count;
  }

  /** Once the closer has seen the queue quiescent, no thread is or will ever again be inside an
      operation, so what follows may be torn down. */
  lemma {:induction false} QuiescenceIsFinal(states: seq<System>, events: seq<Event>)
    requires Run(states, events) && Inv(states[0])
    requires !states[0].q.state.Open? && states[0].q.inFlight == 0
    ensures states[|events|].q == states[0].q.(state := states[|events|].q.state) && !states[|events|].q.state.Open?
    ensures forall i | 0 <= i < |states[|events|].threads| :: states[|events|].threads[i].Idle?
  {
    var n := |events|;
    if n == 0 {
      CountZero(states[0].threads, BUSY);
    } else {
      assert Run(states[..n], events[..n - 1]);
      QuiescenceIsFinal(states[..n], events[..n - 1]);
    }
  }

  // ---------------------------------------------------------------- calls that nobody interrupts

  /** These steps, one after the other. */
  predicate Leads(s: System, events: seq<Event>, s': System)
    decreases |events|
  {
    if events == [] then s' == s else Enabled(s, events[0]) && Leads(Next(s, events[0]), events[1..], s')
  }

  lemma LeadsOne(s: System, e: Event, events: seq<Event>, s': System)
    requires Enabled(s, e) && Leads(Next(s, e), events, s')
    ensures Leads(s, [e] + events, s')
  {
    hide Next, Enabled;
    assert ([e] + events)[1..] == events;
  }

  lemma {:induction false} LeadsInRun(states: seq<System>, events: seq<Event>, more: seq<Event>, s': System) returns (longer: seq<System>)
    requires Run(states, events) && |states| == |events| + 1 && Leads(states[|events|], more, s')
    ensures Run(longer, events + more) && |longer| == |states| + |more| && states <= longer && longer[|longer| - 1] == s'
    decreases |more|
  {
    hide Next, Enabled;
    if more == [] {
      assert events + more == events;
      longer := states;
    } else {
      var next := states + [Next(states[|events|], more[0])];
      assert Run(next, events + [more[0]]) by {
        forall i | 0 <= i < |events + [more[0]]|
          ensures Enabled(next[i], (events + [more[0]])[i]) && next[i + 1] == Next(next[i], (events + [more[0]])[i])
        {
          if i < |events| { assert Enabled(states[i], events[i]); }
        }
      }
      longer := LeadsInRun(next, events + [more[0]], more[1..], s');
      assert events + [more[0]] + more[1..] == events + more;
    }
  }

  lemma Overwritten(threads: seq<Phase>, t: nat, p: Phase, q: Phase)
    requires t < |threads|
    ensures threads[t := p][t := q] == threads[t := q]
    ensures threads[t] == q ==> threads[t := q] == threads
  {
  }

  /** A call is admitted, gets a token and finds the queue still open; ... */
  lemma Begins(s: System, t: nat, task: Task, zeroWait: bool, repost: bool, events: seq<Event>, s': System)
    requires s.q.state.Open? && Unlocked(s) && t < |s.threads| && s.threads[t].Idle? && Tokens(s.q, task) > 0
    requires Leads(s.(q := TakeToken(s.q, task).(inFlight := s.q.inFlight + 1), threads := s.threads[t := Holding(task)]), events, s')
    ensures Leads(s, [Enter(t, task)] + ([Take(t)] + ([Check(t, zeroWait, repost)] + events)), s')
  {
    hide Leads;
    Overwritten(s.threads, t, Waiting(task), Got(task));
    Overwritten(s.threads, t, Got(task), Holding(task));
    var s1 := Next(s, Enter(t, task));
    var s2 := Next(s1, Take(t));
    LeadsOne(s2, Check(t, zeroWait, repost), events, s');
    LeadsOne(s1, Take(t), [Check(t, zeroWait, repost)] + events, s');
    LeadsOne(s, Enter(t, task), [Take(t)] + ([Check(t, zeroWait, repost)] + events), s');
  }

  /** ... it posts and commits. */
  lemma Ends(s: System, t: nat, task: Task, repost: bool, s': System)
    requires s.q.state.Open? && Unlocked(s) && t < |s.threads| && s.threads[t].Idle? && Tokens(s.q, task) > 0
    requires task.Popping? ==> s.q.items != []
    requires s' == match task {
                     case Pushing(x) => s.(q := s.q.(items := s.q.items + [x], emptySlots := s.q.emptySlots - 1,
                                                     filledSlots := s.q.filledSlots + 1),
                                           pushed := s.pushed + [x])
                     case Popping => s.(q := s.q.(items := s.q.items[1..], filledSlots := s.q.filledSlots - 1,
                                                  emptySlots := s.q.emptySlots + 1),
                                        popped := s.popped + [s.q.items[0]])
                   }
    ensures Leads(s.(q := TakeToken(s.q, task).(inFlight := s.q.inFlight + 1), threads := s.threads[t := Holding(task)]),
                  [Post(t, true, repost)] + ([Commit(t)] + []), s')
  {
    hide Leads;
    Overwritten(s.threads, t, Holding(task), Posted(task));
    Overwritten(s.threads, t, Posted(task), Idle);
    var s3 := s.(q := TakeToken(s.q, task).(inFlight := s.q.inFlight + 1), threads := s.threads[t := Holding(task)]);
    var s4 := Next(s3, Post(t, true, repost));
    LeadsNothing(s');
    LeadsOne(s4, Commit(t), [], s');
    LeadsOne(s3, Post(t, true, repost), [Commit(t)] + [], s');
  }

  lemma LeadsNothing(s: System)
    ensures Leads(s, [], s)
  {
  }

  /** In every reachable state of an open queue with a token for it and the locks free, a push goes through: its
      steps are enabled one after the other, its item is the last in the queue, one token has changed sides, and
      everything else is as before. */
  lemma PushCommits(states: seq<System>, events: seq<Event>, t: nat, x: Item, zeroWait: bool, repost: bool) returns (longer: seq<System>)
    requires Run(states, events) && Inv(states[0])
    requires var s := states[|events|];
             s.q.state.Open? && Unlocked(s) && t < |s.threads| && s.threads[t].Idle? && s.q.emptySlots > 0
    ensures Run(longer, events + [Enter(t, Pushing(x)), Take(t), Check(t, zeroWait, repost), Post(t, true, repost), Commit(t)])
    ensures var s := states[|events|];
            longer[|events| + 5] == s.(q := s.q.(items := s.q.items + [x], emptySlots := s.q.emptySlots - 1,
                                                 filledSlots := s.q.filledSlots + 1),
                                       pushed := s.pushed + [x])
  {
    var s := states[|events|];
    var s' := s.(q := s.q.(items := s.q.items + [x], emptySlots := s.q.emptySlots - 1, filledSlots := s.q.filledSlots + 1),
                 pushed := s.pushed + [x]);
    hide Leads, Run, Inv;
    Ends(s, t, Pushing(x), repost, s');
    Begins(s, t, Pushing(x), zeroWait, repost, [Post(t, true, repost)] + ([Commit(t)] + []), s');
    assert [Enter(t, Pushing(x))] + ([Take(t)] + ([Check(t, zeroWait, repost)] + ([Post(t, true, repost)] + ([Commit(t)] + []))))
        == [Enter(t, Pushing(x)), Take(t), Check(t, zeroWait, repost), Post(t, true, repost), Commit(t)];
    longer := LeadsInRun(states, events, [Enter(t, Pushing(x)), Take(t), Check(t, zeroWait, repost), Post(t, true, repost), Commit(t)], s');
  }

  /** ... and so does a pop, which hands out the oldest item. */
  lemma PopCommits(states: seq<System>, events: seq<Event>, t: nat, zeroWait: bool, repost: bool) returns (longer: seq<System>)
    requires Run(states, events) && Inv(states[0])
    requires var s := states[|events|];
             s.q.state.Open? && Unlocked(s) && t < |s.threads| && s.threads[t].Idle? && s.q.filledSlots > 0
    ensures states[|events|].q.items != []
    ensures Run(longer, events + [Enter(t, Popping), Take(t), Check(t, zeroWait, repost), Post(t, true, repost), Commit(t)])
    ensures var s := states[|events|];
            longer[|events| + 5] == s.(q := s.q.(items := s.q.items[1..], filledSlots := s.q.filledSlots - 1,
                                                 emptySlots := s.q.emptySlots + 1),
                                       popped := s.popped + [s.q.items[0]])
  {
    var s := states[|events|];
    RunInv(states, events);
    FilledMeansItems(s);
    var s' := s.(q := s.q.(items := s.q.items[1..], filledSlots := s.q.filledSlots - 1, emptySlots := s.q.emptySlots + 1),
                 popped := s.popped + [s.q.items[0]]);
    hide Leads, Run, Inv;
    Ends(s, t, Popping, repost, s');
    Begins(s, t, Popping, zeroWait, repost, [Post(t, true, repost)] + ([Commit(t)] + []), s');
    assert [Enter(t, Popping)] + ([Take(t)] + ([Check(t, zeroWait, repost)] + ([Post(t, true, repost)] + ([Commit(t)] + []))))
        == [Enter(t, Popping), Take(t), Check(t, zeroWait, repost), Post(t, true, repost), Commit(t)];
    longer := LeadsInRun(states, events, [Enter(t, Popping), Take(t), Check(t, zeroWait, repost), Post(t, true, repost), Commit(t)], s');
  }

  lemma FilledMeansItems(s: System)
    requires Inv(s) && Unlocked(s) && s.q.filledSlots > 0
    ensures s.q.items != []
  {
    NonePosted(s);
  }

  /** A call whose post fails, and one whose wait fails, leave no trace when the token can be given back. */
  lemma FailureLeavesNoTrace(s: System, t: nat, task: Task, zeroWait: bool, checked: bool)
    requires s.q.state.Open? && Unlocked(s) && t < |s.threads| && s.threads[t].Idle?
    ensures Leads(s, [Enter(t, task)] + ([GiveUp(t, checked)] + ([SignOut(t)] + [])), s)
    ensures Tokens(s.q, task) > 0 ==>
              Leads(s, [Enter(t, task)] + ([Take(t)] + ([Check(t, zeroWait, true)] + ([Post(t, false, true)] + []))), s)
  {
    hide Leads;
    LeadsNothing(s);
    Overwritten(s.threads, t, Waiting(task), Leaving(task));
    Overwritten(s.threads, t, Leaving(task), Idle);
    Overwritten(s.threads, t, Waiting(task), Idle);
    Overwritten(s.threads, t, Holding(task), Idle);
    var s1 := Next(s, Enter(t, task));
    LeadsOne(Next(s1, GiveUp(t, checked)), SignOut(t), [], s);
    LeadsOne(s1, GiveUp(t, checked), [SignOut(t)] + [], s);
    LeadsOne(s, Enter(t, task), [GiveUp(t, checked)] + ([SignOut(t)] + []), s);
    if Tokens(s.q, task) > 0 {
      LeadsOne(s.(q := TakeToken(s.q, task).(inFlight := s.q.inFlight + 1), threads := s.threads[t := Holding(task)]),
               Post(t, false, true), [], s);
      Begins(s, t, task, zeroWait, true, [Post(t, false, true)] + [], s);
    }
  }
}
