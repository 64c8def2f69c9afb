/** The locked sections of the message queue over its real fields. */
module MessageQueue {
  import opened Ring
  import opened BoundedQueue

  class Queue {
    const ring: RingBuffer<Item>
    var state: Lifecycle
    var emptySlots: nat
    var filledSlots: nat
    var inFlight: nat
    var waitingPush: nat
    var waitingPop: nat

    ghost predicate Valid()
      reads this, ring
    {
      ring.Valid()
    }

    ghost function Fields(): Shared
      requires Valid()
      reads this, ring, ring.buffer
    {
      Shared(ring.buffer.Length, ring.Contents(), state, emptySlots, filledSlots, inFlight, waitingPush, waitingPop)
    }

    constructor (capacity: nat)
      requires capacity > 0
      ensures Valid() && Fields() == Initial(capacity, 0).q && fresh(ring) && fresh(ring.buffer)
    {
      ring := new RingBuffer(capacity);
      state := Open;
      emptySlots, filledSlots := capacity, 0;
      inFlight, waitingPush, waitingPop := 0, 0, 0;
    }

    /** The admission section of push and pop. */
    method Enter(task: Task) returns (admitted: bool)
      requires Valid()
      modifies this
      ensures Valid() && admitted == old(state).Open?
      ensures Fields() == if admitted then Admit(old(Fields()), task) else old(Fields())
    {
      if !state.Open? {
        return false;
      }
      inFlight := inFlight + 1;
      if task.Pushing? {
        waitingPush := waitingPush + 1;
      } else {
        waitingPop := waitingPop + 1;
      }
      admitted := true;
    }

    /** The section after a wait that obtained a token: stay in the operation while open; in any
        other state leave, reposting the token only on the non-blocking path. */
    method CheckWait(task: Task, zeroWait: bool, repost: bool) returns (goOn: bool)
      requires Valid()
      modifies this
      ensures Valid() && goOn == old(state).Open?
      ensures
        var q := StopWaiting(old(Fields()), task);
        Fields() == if goOn then q else Leave(if zeroWait && repost then PostOwn(q, task) else q)
    {
      if task.Pushing? {
        waitingPush := if waitingPush > 0 then waitingPush - 1 else 0;
      } else {
        waitingPop := if waitingPop > 0 then waitingPop - 1 else 0;
      }
      goOn := state.Open?;
      if !goOn {
        if zeroWait && repost {
          if task.Pushing? { emptySlots := emptySlots + 1; } else { filledSlots := filledSlots + 1; }
        }
        SignOut();
      }
    }

    /** `queue_operation_leave_locked`. */
    method SignOut()
      requires Valid()
      modifies this`inFlight
      ensures Valid() && Fields() == Leave(old(Fields()))
    {
      if inFlight > 0 {
        inFlight := inFlight - 1;
      }
    }

    /** The section of push that holds both locks, when its post succeeds. */
    method CommitPush(x: Item)
      requires Valid() && ring.size < ring.buffer.Length
      modifies this, ring, ring.buffer
      ensures Valid()
      ensures Fields() == Leave(old(Fields())).(items := old(Fields()).items + [x], filledSlots := old(filledSlots) + 1)
    {
      filledSlots := filledSlots + 1;
      ring.Put(x);
      SignOut();
    }

    /** The section of pop that holds both locks, when its post succeeds. */
    method CommitPop() returns (x: Item)
      requires Valid() && ring.size > 0
      modifies this, ring
      ensures Valid() && old(Fields()).items != [] && x == old(Fields()).items[0]
      ensures Fields() == Leave(old(Fields())).(items := old(Fields()).items[1..], emptySlots := old(emptySlots) + 1)
    {
      emptySlots := emptySlots + 1;
      x := ring.Get();
      SignOut();
    }

    /** The whole section of push that holds both locks; `posted` is whether its post works, `repost` whether the
        one that gives the token back does. The item is stored if and only if the queue is open and the post
        works. */
    method EndPush(x: Item, posted: bool, repost: bool) returns (ok: bool)
      requires Valid() && (state == Open && posted ==> ring.size < ring.buffer.Length)
      modifies this, ring, ring.buffer
      ensures Valid() && (ok <==> old(state) == Open && posted)
      ensures state == old(state) && waitingPush == old(waitingPush) && waitingPop == old(waitingPop)
      ensures inFlight == if old(inFlight) > 0 then old(inFlight) - 1 else 0
      ensures ok ==> ring.Contents() == old(ring.Contents()) + [x]
                     && filledSlots == old(filledSlots) + 1 && emptySlots == old(emptySlots)
      ensures !ok ==> ring.Contents() == old(ring.Contents())
                      && emptySlots == old(emptySlots) + (if repost then 1 else 0) && filledSlots == old(filledSlots)
    {
      if !state.Open? || !posted {
        if repost {
          emptySlots := emptySlots + 1;
        }
        SignOut();
        return false;
      }
      CommitPush(x);
      ok := true;
    }

    /** The same section of pop: the oldest item is handed out if and only if the queue is open and the post
        works. */
    method EndPop(posted: bool, repost: bool) returns (ok: bool, x: Item)
      requires Valid() && (state == Open && posted ==> ring.size > 0)
      modifies this, ring
      ensures Valid() && (ok <==> old(state) == Open && posted)
      ensures state == old(state) && waitingPush == old(waitingPush) && waitingPop == old(waitingPop)
      ensures inFlight == if old(inFlight) > 0 then old(inFlight) - 1 else 0
      ensures ok ==> old(ring.Contents()) == [x] + ring.Contents()
                     && emptySlots == old(emptySlots) + 1 && filledSlots == old(filledSlots)
      ensures !ok ==> ring.Contents() == old(ring.Contents())
                      && filledSlots == old(filledSlots) + (if repost then 1 else 0) && emptySlots == old(emptySlots)
    {
      if !state.Open? || !posted {
        if repost {
          filledSlots := filledSlots + 1;
        }
        SignOut();
        return false, [];
      }
      x := CommitPop();
      ok := true;
    }

    // -------------------------------------------------------------- whole calls

    /** A whole `actrust_queue_push` that nobody interrupts and that does not wait: taken if and only if the queue
        is open, there is a slot, and the post works; otherwise, if its token can be given back, nothing has
        changed. */
    method Push(x: Item, posted: bool, repost: bool) returns (ok: bool)
      requires Valid() && emptySlots + ring.size <= ring.buffer.Length
      modifies this, ring, ring.buffer
      ensures Valid() && (ok <==> old(state) == Open && old(emptySlots) > 0 && posted)
      ensures ok ==> Fields() == old(Fields()).(items := old(Fields()).items + [x], emptySlots := old(emptySlots) - 1,
                                                filledSlots := old(filledSlots) + 1)
      ensures !ok && repost ==> Fields() == old(Fields())
    {
      var admitted := Enter(Pushing(x));
      if !admitted {
        return false;
      }
      if emptySlots == 0 {
        waitingPush := waitingPush - 1;
        SignOut();
        return false;
      }
      emptySlots := emptySlots - 1;
      var goOn := CheckWait(Pushing(x), true, repost);
      ok := EndPush(x, posted, repost);
    }

    /** A whole `actrust_queue_pop` in the same way. */
    method Pop(posted: bool, repost: bool) returns (ok: bool, x: Item)
      requires Valid() && filledSlots <= ring.size
      modifies this, ring
      ensures Valid() && (ok <==> old(state) == Open && old(filledSlots) > 0 && posted)
      ensures ok ==> old(Fields()).items != [] && x == old(Fields()).items[0]
      ensures ok ==> Fields() == old(Fields()).(items := old(Fields()).items[1..], filledSlots := old(filledSlots) - 1,
                                                emptySlots := old(emptySlots) + 1)
      ensures !ok && repost ==> Fields() == old(Fields())
    {
      var admitted := Enter(Popping);
      if !admitted {
        return false, [];
      }
      if filledSlots == 0 {
        waitingPop := waitingPop - 1;
        SignOut();
        return false, [];
      }
      filledSlots := filledSlots - 1;
      var goOn := CheckWait(Popping, true, repost);
      ok, x := EndPop(posted, repost);
    }

    /** `actrust_queue_close` up to the quiescence wait. */
    method Close()
      requires Valid()
      modifies this`state
      ensures Valid()
      ensures Fields() == old(Fields()).(state := if old(state).Open? then Closing else old(state))
    {
      if state.Open? {
        state := Closing;
      }
    }
  }
}
