/** The job queue over its real fields. */
module JobRing {
  import opened Ring
  import opened JobQueue

  /** What a dequeue returns: a job; the queue closed and empty; no token in time; a token without a job. */
  datatype Dequeued = Got(job: Job) | NothingLeft | TimedOut | NoJob

  class Jobs {
    const ring: RingBuffer<Job>
    var tokens: nat
    var waiters: nat
    var wakePending: nat
    var closed: bool

    ghost predicate Valid()
      reads this, ring
    {
      ring.Valid()
    }

    ghost function Fields(): Shared
      requires Valid()
      reads this, ring, ring.buffer
    {
      Shared(ring.buffer.Length, ring.Contents(), tokens, waiters, wakePending, closed)
    }

    constructor (depth: nat)
      requires depth > 0
      ensures Valid() && Fields() == Initial(depth, 0).q && fresh(ring) && fresh(ring.buffer)
    {
      ring := new RingBuffer(depth);
      tokens, waiters, wakePending, closed := 0, 0, 0, false;
    }

    /** `actrust_job_queue_enqueue`; `posted` says whether the semaphore post succeeds. */
    method Enqueue(job: Job, posted: bool) returns (admission: Admission, ok: bool)
      requires Valid()
      modifies this, ring, ring.buffer
      ensures Valid() && admission == EnqueueAdmission(old(Fields()))
      ensures admission == if old(closed) then QueueClosed else if |old(Fields()).jobs| >= ring.buffer.Length then QueueFull else Admitted
      ensures ok <==> admission == Admitted && posted
      ensures Fields() == if ok then old(Fields()).(jobs := old(Fields()).jobs + [job], tokens := old(tokens) + 1) else old(Fields())
    {
      if closed {
        return QueueClosed, false;
      }
      if ring.size >= ring.buffer.Length {
        return QueueFull, false;
      }
      if !posted {
        return Admitted, false;
      }
      tokens := tokens + 1;
      ring.Put(job);
      admission, ok := Admitted, true;
    }

    /** The first locked section of `actrust_job_queue_dequeue`. */
    method StartDequeue() returns (ok: bool)
      requires Valid()
      modifies this
      ensures Valid() && ok == !RefusesDequeue(old(Fields()))
      ensures Fields() == if ok then old(Fields()).(waiters := old(waiters) + 1) else old(Fields())
    {
      if closed && ring.size == 0 {
        return false;
      }
      waiters := waiters + 1;
      ok := true;
    }

    /** The last locked section, after a token was obtained. */
    method EndDequeue() returns (found: bool, job: Job)
      requires Valid()
      modifies this, ring
      ensures Valid() && found == (old(Fields()).jobs != []) && (found ==> job == old(Fields()).jobs[0])
      ensures Fields() == FinishDequeue(old(Fields()))
    {
      if waiters > 0 {
        waiters := waiters - 1;
      }
      if ring.size == 0 {
        return false, 0;
      }
      job := ring.Get();
      found := true;
    }

    /** A whole `actrust_job_queue_dequeue` that nobody interrupts; `ready` says whether its wait gets a
        token. It hands out the oldest job for one token, or reports why not and changes nothing but
        that token. */
    method Dequeue(ready: bool) returns (outcome: Dequeued)
      requires Valid() && (ready ==> tokens > 0)
      modifies this, ring
      ensures Valid()
      ensures old(closed) && old(Fields()).jobs == [] ==> outcome == NothingLeft && Fields() == old(Fields())
      ensures !(old(closed) && old(Fields()).jobs == []) && !ready ==> outcome == TimedOut && Fields() == old(Fields())
      ensures !(old(closed) && old(Fields()).jobs == []) && ready ==>
                && Fields() == old(Fields()).(tokens := old(tokens) - 1,
                                              jobs := if old(Fields()).jobs == [] then [] else old(Fields()).jobs[1..])
                && outcome == if old(Fields()).jobs == [] then NoJob else Dequeued.Got(old(Fields()).jobs[0])
    {
      var started := StartDequeue();
      if !started {
        return NothingLeft;
      }
      if !ready {
        waiters := waiters - 1;
        return TimedOut;
      }
      tokens := tokens - 1;
      var found, job := EndDequeue();
      outcome := if found then Dequeued.Got(job) else NoJob;
    }

    /** `actrust_job_queue_close`: close once, then post the wake-ups that are still due, stopping at
        the first post that fails; a later call resumes there. */
    method Close(failAfter: nat) returns (ok: bool)
      requires Valid()
      modifies this
      ensures Valid()
      ensures
        var due := if old(closed) then old(wakePending) else old(waiters);
        var n := if due <= failAfter then due else failAfter;
        && Fields() == old(Fields()).(closed := true, tokens := old(tokens) + n, wakePending := due - n)
        && ok == (wakePending == 0)
      ensures Fields() == StartClose(old(Fields())).(tokens := tokens, wakePending := wakePending)
    {
      if !closed {
        closed := true;
        wakePending := waiters;
      }
      ghost var due := wakePending;
      var posted := 0;
      while wakePending > 0 && posted < failAfter
        invariant posted <= failAfter && wakePending + posted == due
        invariant Valid() && Fields() == StartClose(old(Fields())).(tokens := old(tokens) + posted, wakePending := wakePending)
        decreases wakePending
      {
        tokens := tokens + 1;
        wakePending := wakePending - 1;
        posted := posted + 1;
      }
      ok := wakePending == 0;
    }
  }
}
