/** The job queue between the API and the service task: a ring of jobs, one counting semaphore,
    and a close that wakes the consumers it finds waiting. */
module JobQueue {
  import opened Counting

  type Job = nat

  /** The fields of the queue; `jobs` is the content of the ring, oldest first. */
  datatype Shared = Shared(depth: nat, jobs: seq<Job>, tokens: nat, waiters: nat, wakePending: nat, closed: bool)

  /** Where a thread is:
      - `Announced`: an enqueue that has posted the semaphore and still has to store its job;
      - `Waking`: inside `actrust_job_queue_close`, posting wake-ups;
      - `Waiting`, `Got`: a dequeue before and after its semaphore wait succeeded.
      `Announced` and `Waking` hold the queue lock. */
  datatype Phase = Idle | Announced(job: Job) | Waking | Waiting | Got

  // ---------------------------------------------------------------- locked sections

  datatype Admission = Admitted | QueueClosed | QueueFull

  function EnqueueAdmission(q: Shared): Admission {
    if q.closed then QueueClosed else if |q.jobs| >= q.depth then QueueFull else Admitted
  }

  function Store(q: Shared, job: Job): Shared {
    q.(jobs := q.jobs + [job])
  }

  function StartClose(q: Shared): Shared {
    if q.closed then q else q.(closed := true, wakePending := q.waiters)
  }

  function PostWake(q: Shared): Shared {
    q.(tokens := q.tokens + 1, wakePending := Dec(q.wakePending))
  }

  predicate RefusesDequeue(q: Shared) {
    q.closed && q.jobs == []
  }

  function FinishDequeue(q: Shared): Shared {
    var q1 := q.(waiters := Dec(q.waiters));
    if q.jobs == [] then q1 else q1.(jobs := q.jobs[1..])
  }

  // ---------------------------------------------------------------- the system

  /** `wakes` counts close wake-ups posted and not yet consumed. */
  datatype System = System(q: Shared, threads: seq<Phase>, wakes: nat, enqueued: seq<Job>, dequeued: seq<Job>)

  datatype Event =
    | Announce(t: nat, job: Job, posted: bool)
    | Commit(t: nat)
    | Close(t: nat)
    | Wake(t: nat)
    | EndClose(t: nat)
    | Enter(t: nat)
    | Take(t: nat)
    | Finish(t: nat)
    | TimeOut(t: nat)

  predicate HasLock(p: Phase) {
    p.Announced? || p.Waking?
  }

  const GOT: Phase -> bool := (p: Phase) => p.Got?
  const CONSUMING: Phase -> bool := (p: Phase) => p.Waiting? || p.Got?
  const ANNOUNCED: Phase -> bool := (p: Phase) => p.Announced?

  predicate Unlocked(s: System) {
    forall i | 0 <= i < |s.threads| :: !HasLock(s.threads[i])
  }

  predicate Enabled(s: System, e: Event) {
    && e.t < |s.threads|
    && var p := s.threads[e.t];
       match e
       case Announce(_, _, _) => p.Idle? && Unlocked(s)
       case Commit(_) => p.Announced?
       case Close(_) => p.Idle? && Unlocked(s)
       case Wake(_) => p.Waking? && s.q.wakePending > 0
       case EndClose(_) => p.Waking?
       case Enter(_) => p.Idle? && Unlocked(s)
       case Take(_) => p.Waiting? && s.q.tokens > 0
       case Finish(_) => p.Got? && Unlocked(s)
       case TimeOut(_) => p.Waiting? && Unlocked(s)
  }

  function Move(s: System, t: nat, q: Shared, p: Phase): System
    requires t < |s.threads|
  {
    s.(q := q, threads := s.threads[t := p])
  }

  function Next(s: System, e: Event): System
    requires Enabled(s, e)
  {
    var q := s.q;
    match e
    case Announce(t, job, posted) =>
      if EnqueueAdmission(q).Admitted? && posted then Move(s, t, q.(tokens := q.tokens + 1), Announced(job)) else s
    case Commit(t) =>
      var job := s.threads[t].job;
      Move(s, t, Store(q, job), Idle).(enqueued := s.enqueued + [job])
    case Close(t) => Move(s, t, StartClose(q), Waking)
    case Wake(t) => s.(q := PostWake(q), wakes := s.wakes + 1)
    case EndClose(t) => Move(s, t, q, Idle)
    case Enter(t) =>
      if RefusesDequeue(q) then s else Move(s, t, q.(waiters := q.waiters + 1), Waiting)
    case Take(t) => Move(s, t, q.(tokens := q.tokens - 1), Got)
    case Finish(t) =>
      var s1 := Move(s, t, FinishDequeue(q), Idle);
      if q.jobs == [] then s1.(wakes := Dec(s.wakes)) else s1.(dequeued := s.dequeued + [q.jobs[0]])
    case TimeOut(t) => Move(s, t, q.(waiters := Dec(q.waiters)), Idle)
  }

  // ---------------------------------------------------------------- the invariant

  /** Semaphore tokens, counted or already taken, are exactly the queued jobs, the announced one
      and the unconsumed wake-ups. */
  predicate Inv(s: System) {
    && s.q.tokens + Count(s.threads, GOT) == |s.q.jobs| + Count(s.threads, ANNOUNCED) + s.wakes
    && s.q.waiters == Count(s.threads, CONSUMING)
    && (forall i, j | 0 <= i < j < |s.threads| :: !(HasLock(s.threads[i]) && HasLock(s.threads[j])))
    && (!s.q.closed ==> s.wakes == 0 && s.q.wakePending == 0)
    && (s.q.closed ==> forall i | 0 <= i < |s.threads| :: !s.threads[i].Announced?)
    && (forall i | 0 <= i < |s.threads| && s.threads[i].Announced? :: |s.q.jobs| < s.q.depth)
    && |s.q.jobs| <= s.q.depth
    && s.enqueued == s.dequeued + s.q.jobs
  }

  function Initial(depth: nat, threads: nat): System {
    System(Shared(depth, [], 0, 0, 0, false), seq(threads, _ => Idle), 0, [], [])
  }

  lemma InitialInv(depth: nat, threads: nat)
    ensures Inv(Initial(depth, threads))
  {
    var s := Initial(depth, threads);
    CountZero(s.threads, GOT);
    CountZero(s.threads, ANNOUNCED);
    CountZero(s.threads, CONSUMING);
  }

  lemma CountsMove(threads: seq<Phase>, t: nat, p: Phase)
    requires t < |threads|
    ensures Count(threads[t := p], GOT) == Count(threads, GOT) - One(threads[t].Got?) + One(p.Got?)
    ensures Count(threads[t := p], ANNOUNCED) == Count(threads, ANNOUNCED) - One(threads[t].Announced?) + One(p.Announced?)
    ensures Count(threads[t := p], CONSUMING)
         == Count(threads, CONSUMING) - One(CONSUMING(threads[t])) + One(CONSUMING(p))
    ensures Count(threads, GOT) >= One(threads[t].Got?)
    ensures Count(threads, ANNOUNCED) >= One(threads[t].Announced?)
    ensures Count(threads, CONSUMING) >= One(CONSUMING(threads[t]))
  {
    CountUpdate(threads, t, p, GOT);
    CountUpdate(threads, t, p, ANNOUNCED);
    CountUpdate(threads, t, p, CONSUMING);
    if threads[t].Got? { CountOne(threads, t, GOT); }
    if threads[t].Announced? { CountOne(threads, t, ANNOUNCED); }
    if CONSUMING(threads[t]) { CountOne(threads, t, CONSUMING); }
  }

  lemma NoneAnnounced(s: System)
    requires Unlocked(s)
    ensures Count(s.threads, ANNOUNCED) == 0
  {
    CountZero(s.threads, ANNOUNCED);
  }

  lemma StepInv(s: System, e: Event)
    requires Inv(s) && Enabled(s, e)
    ensures Inv(Next(s, e))
  {
    hide Count;
    CountsMove(s.threads, e.t, Next(s, e).threads[e.t]);
    assert Next(s, e).threads == s.threads[e.t := Next(s, e).threads[e.t]];
    if Unlocked(s) {
      NoneAnnounced(s);
    }
  }

  // ---------------------------------------------------------------- whole runs

  predicate Run(states: seq<System>, events: seq<Event>) {
    && |states| == |events| + 1
    && forall i | 0 <= i < |events| :: Enabled(states[i], events[i]) && states[i + 1] == Next(states[i], events[i])
  }

  lemma {:induction false} RunInv(states: seq<System>, events: seq<Event>)
    requires Run(states, events) && Inv(states[0])
    ensures Inv(states[|events|])
  {
    hide Inv, Next, Enabled;
    var n := |events|;
    if n > 0 {
      assert Run(states[..n], events[..n - 1]);
      RunInv(states[..n], events[..n - 1]);
      StepInv(states[n - 1], events[n - 1]);
    }
  }

  /** In every run the tokens balance, jobs leave in the order they entered, the ring never
      overflows, and a consumer that comes back empty-handed does so only after a close. */
  lemma TokensBalance(states: seq<System>, events: seq<Event>, depth: nat, threads: nat)
    requires Run(states, events) && states[0] == Initial(depth, threads)
    ensures
      var s := states[|events|];
      && s.q.tokens + Count(s.threads, GOT) == |s.q.jobs| + Count(s.threads, ANNOUNCED) + s.wakes
      && s.enqueued == s.dequeued + s.q.jobs
      && |s.q.jobs| <= s.q.depth
      && forall t | 0 <= t < |s.threads| :: EmptyHandedMeansClosed(s, t)
  {
    InitialInv(depth, threads);
    RunInv(states, events);
    forall t | 0 <= t < |states[|events|].threads|
      ensures EmptyHandedMeansClosed(states[|events|], t)
    {
      EmptyHanded(states[|events|], t);
    }
  }

  lemma EmptyHanded(s: System, t: nat)
    requires Inv(s) && t < |s.threads|
    ensures EmptyHandedMeansClosed(s, t)
  {
    hide Count;
    if s.threads[t].Got? && Unlocked(s) {
      CountOne(s.threads, t, GOT);
      NoneAnnounced(s);
    }
  }

  predicate EmptyHandedMeansClosed(s: System, t: nat)
    requires t < |s.threads|
  {
    s.threads[t].Got? && Unlocked(s) && s.q.jobs == [] ==> s.q.closed && s.wakes > 0
  }

  /** A wait that times out leaves the consumers, a wake-up is one token and one less to come, and a close that
      ends gives the lock back; nothing else changes. */
  lemma WaitsAndWakes(states: seq<System>, events: seq<Event>, n: nat)
    requires Run(states, events) && Inv(states[0]) && n < |events|
    ensures var s, s', t := states[n], states[n + 1], events[n].t;
            match events[n]
            case TimeOut(_) => s.q.waiters > 0 && s' == s.(q := s.q.(waiters := s.q.waiters - 1), threads := s.threads[t := Idle])
            case Wake(_) => s' == s.(q := s.q.(tokens := s.q.tokens + 1, wakePending := s.q.wakePending - 1), wakes := s.wakes + 1)
            case EndClose(_) => s' == s.(threads := s.threads[t := Idle])
            case _ => true
  {
    assert Run(states[..n + 1], events[..n]);
    RunInv(states[..n + 1], events[..n]);
    var s := states[n];
    assert Enabled(s, events[n]) && states[n + 1] == Next(s, events[n]);
    if events[n].TimeOut? { CountOne(s.threads, events[n].t, CONSUMING); }
    hide Count;
  }

  // ---------------------------------------------------------------- closing

  /** All dequeuing is done by thread `c`. */
  predicate OnlyConsumer(s: System, c: nat) {
    && c < |s.threads|
    && forall i | 0 <= i < |s.threads| && i != c :: !CONSUMING(s.threads[i])
  }

  predicate ConsumerStep(e: Event) {
    e.Enter? || e.Take? || e.Finish? || e.TimeOut?
  }

  /** A consumer that waits on a closed queue has something coming. */
  predicate WakeDue(s: System, c: nat) {
    && OnlyConsumer(s, c)
    && (s.q.closed && s.threads[c].Waiting? ==> |s.q.jobs| + s.wakes + s.q.wakePending >= 1)
  }

  lemma WakeDueStep(s: System, e: Event, c: nat)
    requires Inv(s) && WakeDue(s, c) && Enabled(s, e)
    requires ConsumerStep(e) ==> e.t == c
    ensures WakeDue(Next(s, e), c)
  {
    if e.Close? && s.threads[c].Waiting? {
      CountOne(s.threads, c, CONSUMING);
    }
  }

  lemma WaiterHasToken(s: System, c: nat)
    requires Inv(s) && WakeDue(s, c)
    ensures s.q.closed && s.q.wakePending == 0 && s.threads[c].Waiting? ==> s.q.tokens > 0
  {
    if s.q.closed && s.threads[c].Waiting? {
      CountZero(s.threads, GOT);
      CountZero(s.threads, ANNOUNCED);
    }
  }

  /** With one consumer, a close that has posted all its wake-ups never leaves it blocked: in every
      reachable state in which it waits on the closed queue, a token is there for it. */
  lemma {:induction false} CloseNeverStrands(states: seq<System>, events: seq<Event>, c: nat)
    requires Run(states, events) && Inv(states[0]) && WakeDue(states[0], c)
    requires forall i | 0 <= i < |events| :: ConsumerStep(events[i]) ==> events[i].t == c
    ensures
      var s := states[|events|];
      && Inv(s) && WakeDue(s, c)
      && (s.q.closed && s.q.wakePending == 0 && s.threads[c].Waiting? ==> s.q.tokens > 0)
  {
    var n := |events|;
    if n > 0 {
      assert Run(states[..n], events[..n - 1]);
      CloseNeverStrands(states[..n], events[..n - 1], c);
      StepInv(states[n - 1], events[n - 1]);
      WakeDueStep(states[n - 1], events[n - 1], c);
    }
    WaiterHasToken(states[n], c);
    hide Inv, Enabled, Next, ConsumerStep;
  }

  /** From here on nobody will ever post: the queue is closed, all wake-ups are out and no token
      is left. */
  predicate DeadEnd(s: System) {
    s.q.closed && s.q.wakePending == 0 && s.q.tokens == 0 && Inv(s)
  }

  lemma {:induction false} StrandedForever(states: seq<System>, events: seq<Event>, t: nat)
    requires Run(states, events) && DeadEnd(states[0])
    requires t < |states[0].threads| && states[0].threads[t].Waiting?
    requires forall i | 0 <= i < |events| :: events[i] != TimeOut(t)
    ensures DeadEnd(states[|events|]) && t < |states[|events|].threads| && states[|events|].threads[t].Waiting?
  {
    var n := |events|;
    if n > 0 {
      assert Run(states[..n], events[..n - 1]);
      StrandedForever(states[..n], events[..n - 1], t);
      StepInv(states[n - 1], events[n - 1]);
    }
  }

  predicate Steps(s: System, e: Event, s': System) {
    Enabled(s, e) && s' == Next(s, e)
  }

  /** All threads idle but two. */
  function Pair(threads: nat, a: nat, b: nat, p: Phase, q: Phase): seq<Phase>
    requires a < threads && b < threads
  {
    seq(threads, i => if i == a then p else if i == b then q else Idle)
  }

  lemma PairMoves(threads: nat, a: nat, b: nat, p: Phase, q: Phase, r: Phase)
    requires a < threads && b < threads && a != b
    ensures Pair(threads, a, b, p, q)[a := r] == Pair(threads, a, b, r, q)
    ensures Pair(threads, a, b, p, q)[b := r] == Pair(threads, a, b, p, r)
    ensures Pair(threads, a, b, Idle, Idle) == seq(threads, _ => Idle)
  {
  }

  lemma PairUnlocked(s: System, threads: nat, a: nat, b: nat, p: Phase, q: Phase)
    requires a < threads && b < threads && a != b && s.threads == Pair(threads, a, b, p, q) && !HasLock(p) && !HasLock(q)
    ensures Unlocked(s) && |s.threads| == threads && s.threads[a] == p && s.threads[b] == q
  {
  }

  /** One job is queued and the queue is closed with nobody waiting. */
  lemma OneJobThenClose(depth: nat, job: Job, threads: nat, a: nat, b: nat)
    requires depth > 0 && a < threads && b < threads && a != b
    ensures
      var start := Initial(depth, threads);
      var announced := System(Shared(depth, [], 1, 0, 0, false), Pair(threads, a, b, Announced(job), Idle), 0, [], []);
      var queued := System(Shared(depth, [job], 1, 0, 0, false), Pair(threads, a, b, Idle, Idle), 0, [job], []);
      var waking := System(Shared(depth, [job], 1, 0, 0, true), Pair(threads, a, b, Waking, Idle), 0, [job], []);
      && Steps(start, Announce(a, job, true), announced)
      && Steps(announced, Commit(a), queued)
      && Steps(queued, Close(a), waking)
      && Steps(waking, EndClose(a), waking.(threads := Pair(threads, a, b, Idle, Idle)))
  {
    var start := Initial(depth, threads);
    PairMoves(threads, a, b, Idle, Idle, Announced(job));
    PairMoves(threads, a, b, Announced(job), Idle, Idle);
    PairMoves(threads, a, b, Idle, Idle, Waking);
    PairMoves(threads, a, b, Waking, Idle, Idle);
    PairUnlocked(start, threads, a, b, Idle, Idle);
    PairUnlocked(System(Shared(depth, [job], 1, 0, 0, false), Pair(threads, a, b, Idle, Idle), 0, [job], []), threads, a, b, Idle, Idle);
    hide Unlocked;
  }

  /** Two consumers enter and one of them takes the job. */
  lemma BothEnter(closed: System, job: Job, threads: nat, a: nat, b: nat)
    requires a < threads && b < threads && a != b
    requires closed.q.closed && closed.q.jobs == [job] && closed.q.tokens == 1 && closed.q.waiters == 0
    requires closed.threads == Pair(threads, a, b, Idle, Idle)
    ensures
      var first := closed.(q := closed.q.(waiters := 1), threads := Pair(threads, a, b, Waiting, Idle));
      var both := closed.(q := closed.q.(waiters := 2), threads := Pair(threads, a, b, Waiting, Waiting));
      var took := both.(q := both.q.(tokens := 0), threads := Pair(threads, a, b, Got, Waiting));
      var done := took.(q := took.q.(jobs := [], waiters := 1), threads := Pair(threads, a, b, Idle, Waiting),
                        dequeued := closed.dequeued + [job]);
      && Steps(closed, Enter(a), first)
      && Steps(first, Enter(b), both)
      && Steps(both, Take(a), took)
      && Steps(took, Finish(a), done)
  {
    PairMoves(threads, a, b, Idle, Idle, Waiting);
    PairMoves(threads, a, b, Waiting, Idle, Waiting);
    PairMoves(threads, a, b, Waiting, Waiting, Got);
    PairMoves(threads, a, b, Got, Waiting, Idle);
    PairUnlocked(closed, threads, a, b, Idle, Idle);
    PairUnlocked(closed.(q := closed.q.(waiters := 1), threads := Pair(threads, a, b, Waiting, Idle)), threads, a, b, Waiting, Idle);
    PairUnlocked(closed.(q := closed.q.(waiters := 2, tokens := 0), threads := Pair(threads, a, b, Got, Waiting)), threads, a, b, Got, Waiting);
    hide Unlocked;
  }

  /** The restriction to one consumer is needed: any two may both pass the check while one job is left
      on the closed queue, and the one that does not get it waits for ever. */
  lemma TwoConsumersStrandOne(depth: nat, job: Job, threads: nat, a: nat, b: nat) returns (states: seq<System>, events: seq<Event>)
    requires depth > 0 && a < threads && b < threads && a != b
    ensures Run(states, events) && states[0] == Initial(depth, threads)
    ensures forall i | 0 <= i < |events| :: events[i].t == a || events[i].t == b
    ensures DeadEnd(states[|events|]) && |states[|events|].threads| == threads && states[|events|].threads[b] == Waiting
  {
    hide Enabled, Next, Pair;
    OneJobThenClose(depth, job, threads, a, b);
    var s1 := System(Shared(depth, [], 1, 0, 0, false), Pair(threads, a, b, Announced(job), Idle), 0, [], []);
    var s2 := System(Shared(depth, [job], 1, 0, 0, false), Pair(threads, a, b, Idle, Idle), 0, [job], []);
    var s3 := System(Shared(depth, [job], 1, 0, 0, true), Pair(threads, a, b, Waking, Idle), 0, [job], []);
    var s4 := s3.(threads := Pair(threads, a, b, Idle, Idle));
    BothEnter(s4, job, threads, a, b);
    var s5 := s4.(q := s4.q.(waiters := 1), threads := Pair(threads, a, b, Waiting, Idle));
    var s6 := s4.(q := s4.q.(waiters := 2), threads := Pair(threads, a, b, Waiting, Waiting));
    var s7 := s6.(q := s6.q.(tokens := 0), threads := Pair(threads, a, b, Got, Waiting));
    var s8 := s7.(q := s7.q.(jobs := [], waiters := 1), threads := Pair(threads, a, b, Idle, Waiting), dequeued := [job]);
    events := [Announce(a, job, true), Commit(a), Close(a), EndClose(a), Enter(a), Enter(b), Take(a), Finish(a)];
    states := [Initial(depth, threads), s1, s2, s3, s4, s5, s6, s7, s8];
    assert forall i | 0 <= i < |events| :: Steps(states[i], events[i], states[i + 1]);
    InitialInv(depth, threads);
    RunInv(states, events);
    PairUnlocked(s8, threads, a, b, Idle, Waiting);
  }

  /** Somebody waits on a closed queue from which nothing will come. */
  predicate Strands(s: System) {
    DeadEnd(s) && exists t | 0 <= t < |s.threads| :: s.threads[t].Waiting?
  }

  predicate ConsumedBy(events: seq<Event>, consumers: set<nat>) {
    forall i | 0 <= i < |events| && ConsumerStep(events[i]) :: events[i].t in consumers
  }

  ghost predicate NeverStrands(depth: nat, threads: nat, consumers: set<nat>) {
    forall states, events | Run(states, events) && states[0] == Initial(depth, threads) && ConsumedBy(events, consumers) ::
      !Strands(states[|events|])
  }

  lemma OneConsumerIsSafe(states: seq<System>, events: seq<Event>, depth: nat, threads: nat, consumers: set<nat>, c: nat)
    requires Run(states, events) && states[0] == Initial(depth, threads) && ConsumedBy(events, consumers)
    requires c < threads && consumers <= {c}
    ensures !Strands(states[|events|])
  {
    InitialInv(depth, threads);
    assert WakeDue(states[0], c);
    CloseNeverStrands(states, events, c);
    var s := states[|events|];
    assert forall t | 0 <= t < |s.threads| && t != c :: !CONSUMING(s.threads[t]);
  }

  lemma AtMostOne(consumers: set<nat>, c: nat)
    requires |consumers| <= 1 && c in consumers
    ensures consumers <= {c}
  {
    assert |consumers - {c}| == 0;
  }

  /** Closing is safe in every run if and only if at most one thread ever consumes. */
  lemma SafeIffOneConsumer(depth: nat, threads: nat, consumers: set<nat>)
    requires depth > 0 && threads > 0 && (forall t | t in consumers :: t < threads)
    ensures NeverStrands(depth, threads, consumers) <==> |consumers| <= 1
  {
    if |consumers| <= 1 {
      var c := 0;
      if consumers != {} {
        c :| c in consumers;
        AtMostOne(consumers, c);
      }
      forall states, events | Run(states, events) && states[0] == Initial(depth, threads) && ConsumedBy(events, consumers)
        ensures !Strands(states[|events|])
      {
        OneConsumerIsSafe(states, events, depth, threads, consumers, c);
      }
    } else {
      var a :| a in consumers;
      assert |consumers - {a}| > 0;
      var b :| b in consumers - {a};
      var states, events := TwoConsumersStrandOne(depth, 0, threads, a, b);
      assert Strands(states[|events|]);
    }
  }

  // ---------------------------------------------------------------- calls that nobody interrupts

  lemma Overwritten(threads: seq<Phase>, t: nat, p: Phase, q: Phase)
    requires t < |threads|
    ensures threads[t := p][t := q] == threads[t := q]
    ensures threads[t] == q ==> threads[t := q] == threads
  {
  }

  lemma StepInRun(states: seq<System>, events: seq<Event>, e: Event) returns (longer: seq<System>)
    requires Run(states, events) && |states| == |events| + 1 && Enabled(states[|events|], e)
    ensures Run(longer, events + [e]) && |longer| == |states| + 1 && states <= longer
    ensures longer[|events| + 1] == Next(states[|events|], e)
  {
    hide Next, Enabled;
    longer := states + [Next(states[|events|], e)];
    forall i | 0 <= i < |events + [e]|
      ensures Enabled(longer[i], (events + [e])[i]) && longer[i + 1] == Next(longer[i], (events + [e])[i])
    {
      if i < |events| { assert Enabled(states[i], events[i]); }
    }
  }

  /** In every run, with the lock free, an enqueue on an open queue that has room and whose post works puts its job
      last and leaves one token more. */
  lemma EnqueueGoesThrough(states: seq<System>, events: seq<Event>, t: nat, job: Job) returns (longer: seq<System>)
    requires Run(states, events)
    requires var s := states[|events|];
             Unlocked(s) && t < |s.threads| && s.threads[t].Idle? && !s.q.closed && |s.q.jobs| < s.q.depth
    ensures Run(longer, events + [Announce(t, job, true), Commit(t)])
    ensures var s := states[|events|];
            longer[|events| + 2] == s.(q := s.q.(jobs := s.q.jobs + [job], tokens := s.q.tokens + 1), enqueued := s.enqueued + [job])
  {
    var s := states[|events|];
    Overwritten(s.threads, t, Announced(job), Idle);
    longer := StepInRun(states, events, Announce(t, job, true));
    longer := StepInRun(longer, events + [Announce(t, job, true)], Commit(t));
    assert events + [Announce(t, job, true)] + [Commit(t)] == events + [Announce(t, job, true), Commit(t)];
  }

  /** ... and a dequeue with a token takes the first job, closed or not. */
  lemma DequeueGoesThrough(states: seq<System>, events: seq<Event>, t: nat) returns (longer: seq<System>)
    requires Run(states, events)
    requires var s := states[|events|];
             Unlocked(s) && t < |s.threads| && s.threads[t].Idle? && s.q.jobs != [] && s.q.tokens > 0
    ensures Run(longer, events + [Enter(t), Take(t), Finish(t)])
    ensures var s := states[|events|];
            longer[|events| + 3] == s.(q := s.q.(jobs := s.q.jobs[1..], tokens := s.q.tokens - 1), dequeued := s.dequeued + [s.q.jobs[0]])
  {
    var s := states[|events|];
    Overwritten(s.threads, t, Waiting, Got);
    Overwritten(s.threads, t, Got, Idle);
    longer := StepInRun(states, events, Enter(t));
    longer := StepInRun(longer, events + [Enter(t)], Take(t));
    longer := StepInRun(longer, events + [Enter(t)] + [Take(t)], Finish(t));
    assert events + [Enter(t)] + [Take(t)] + [Finish(t)] == events + [Enter(t), Take(t), Finish(t)];
  }
}
