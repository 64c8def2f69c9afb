/** The reference-counted job pool with its stack of free indices. */
module JobPool {
  import opened Counting

  datatype PoolError = NoResource | BadState

  const REFERENCES_MAX: nat := 255

  const IN_USE: nat -> bool := (r: nat) => r > 0

  /** The pool as values: the free stack, bottom first, and the reference count of every job. */
  datatype Pool = Pool(free: seq<nat>, references: seq<nat>)

  predicate Distinct(s: seq<nat>) {
    forall i, j | 0 <= i < j < |s| :: s[i] != s[j]
  }

  /** An index is on the free stack, once, exactly when its job has no references; together they
      make up the whole pool. */
  predicate ValidPool(p: Pool) {
    && Distinct(p.free)
    && (forall i | 0 <= i < |p.free| :: p.free[i] < |p.references| && p.references[p.free[i]] == 0)
    && (forall k | 0 <= k < |p.references| && p.references[k] == 0 :: k in p.free)
    && (forall k | 0 <= k < |p.references| :: p.references[k] <= REFERENCES_MAX)
    && |p.free| + Count(p.references, IN_USE) == |p.references|
  }

  function Allocated(p: Pool): Pool
    requires ValidPool(p) && p.free != []
  {
    var top := p.free[|p.free| - 1];
    Pool(p.free[..|p.free| - 1], p.references[top := 1])
  }

  function Released(p: Pool, job: nat): Pool
    requires job < |p.references| && p.references[job] > 0
  {
    var left := p.references[job] - 1;
    Pool(if left == 0 then p.free + [job] else p.free, p.references[job := left])
  }

  function Retained(p: Pool, job: nat): Pool
    requires job < |p.references|
  {
    p.(references := p.references[job := p.references[job] + 1])
  }

  lemma AllocatedValid(p: Pool)
    requires ValidPool(p) && p.free != []
    ensures ValidPool(Allocated(p))
  {
    hide Count;
    var p', n := Allocated(p), |p.free| - 1;
    CountUpdate(p.references, p.free[n], 1, IN_USE);
    forall k | 0 <= k < |p'.references| && p'.references[k] == 0
      ensures k in p'.free
    {
      assert k in p.free && k != p.free[n];
      assert p.free == p'.free + [p.free[n]];
    }
    forall i | 0 <= i < |p'.free|
      ensures p'.free[i] < |p'.references| && p'.references[p'.free[i]] == 0
    {
      assert p'.free[i] == p.free[i] != p.free[n];
    }
  }

  lemma ReleasedValid(p: Pool, job: nat)
    requires ValidPool(p) && job < |p.references| && p.references[job] > 0
    ensures ValidPool(Released(p, job))
  {
    hide Count;
    var p', left := Released(p, job), p.references[job] - 1;
    CountUpdate(p.references, job, left, IN_USE);
    assert forall i | 0 <= i < |p.free| :: p'.free[i] == p.free[i] != job;
    if left == 0 {
      assert p'.free[|p.free|] == job;
    }
    forall k | 0 <= k < |p.references| && p'.references[k] == 0
      ensures k in p'.free
    {
      if k != job {
        var i :| 0 <= i < |p.free| && p.free[i] == k;
        assert p'.free[i] == k;
      }
    }
  }

  lemma RetainedValid(p: Pool, job: nat)
    requires ValidPool(p) && job < |p.references| && 0 < p.references[job] < REFERENCES_MAX
    ensures ValidPool(Retained(p, job))
  {
    CountUpdate(p.references, job, p.references[job] + 1, IN_USE);
  }

  /** A job that is allocated and released is back on top of the stack, and nothing else moved. */
  lemma AllocateThenRelease(p: Pool)
    requires ValidPool(p) && p.free != []
    ensures Released(Allocated(p), p.free[|p.free| - 1]) == p
  {
    var top := p.free[|p.free| - 1];
    assert top < |p.references| && p.references[top] == 0;
    hide ValidPool;
    assert p.references[top := 1][top := 0] == p.references;
    assert p.free[..|p.free| - 1] + [top] == p.free;
  }

  function NewPool(size: nat): Pool {
    Pool(seq(size, i => i), seq(size, _ => 0))
  }

  lemma NewPoolValid(size: nat)
    ensures ValidPool(NewPool(size))
  {
    var p := NewPool(size);
    CountZero(p.references, IN_USE);
    forall k | 0 <= k < |p.references|
      ensures k in p.free
    {
      assert p.free[k] == k;
    }
  }

  /** Everything is free exactly when nothing is referenced. */
  lemma AllFree(p: Pool)
    requires ValidPool(p)
    ensures |p.free| == |p.references| <==> forall k | 0 <= k < |p.references| :: p.references[k] == 0
  {
    CountZero(p.references, IN_USE);
  }

  class Jobs {
    const references: array<nat>
    const freeIndices: array<nat>
    var freeTop: int

    ghost predicate Valid()
      reads this, references, freeIndices
    {
      && references != freeIndices
      && references.Length == freeIndices.Length
      && -1 <= freeTop < freeIndices.Length
      && ValidPool(View())
    }

    ghost function View(): Pool
      requires -1 <= freeTop < freeIndices.Length
      reads this, references, freeIndices
    {
      Pool(freeIndices[..freeTop + 1], references[..])
    }

    /** `actrust_job_pool_init`. */
    constructor (size: nat)
      ensures Valid() && View() == NewPool(size)
      ensures fresh(references) && fresh(freeIndices)
    {
      references := new nat[size](_ => 0);
      freeIndices := new nat[size];
      freeTop := size - 1;
      new;
      for i := 0 to size
        invariant forall k | 0 <= k < i :: freeIndices[k] == k
        invariant forall k | 0 <= k < size :: references[k] == 0
        invariant freeTop == size - 1
      {
        freeIndices[i] := i;
      }
      assert View() == NewPool(size);
      NewPoolValid(size);
    }

    /** `actrust_job_alloc`: pop the stack and hand the job out with one reference. */
    method Alloc() returns (ok: bool, job: nat)
      requires Valid()
      modifies this, references
      ensures Valid() && ok == (old(View()).free != [])
      ensures if ok then View() == Allocated(old(View())) && job == old(View()).free[|old(View()).free| - 1]
              else View() == old(View())
    {
      ghost var p := View();
      if freeTop < 0 {
        return false, 0;
      }
      AllocatedValid(p);
      job := freeIndices[freeTop];
      freeTop := freeTop - 1;
      references[job] := 1;
      assert freeIndices[..freeTop + 1] == p.free[..|p.free| - 1];
      assert references[..] == p.references[job := 1];
      ok := true;
    }

    /** `actrust_job_retain`. */
    method Retain(job: nat) returns (ok: bool, error: PoolError)
      requires Valid() && job < references.Length
      modifies references
      ensures Valid()
      ensures ok == (0 < old(references[job]) < 255)
      ensures !ok ==> View() == old(View()) && error == if old(references[job]) == 0 then BadState else NoResource
      ensures ok ==> View() == Retained(old(View()), job)
    {
      ghost var p := View();
      assert p.references[job] <= REFERENCES_MAX;
      if references[job] == 0 {
        return false, BadState;
      }
      if references[job] == REFERENCES_MAX {
        return false, NoResource;
      }
      RetainedValid(p, job);
      hide ValidPool;
      references[job] := references[job] + 1;
      assert references[..] == Retained(p, job).references;
      assert View() == Retained(p, job);
      ok, error := true, NoResource;
    }

    /** `actrust_job_release`: drop a reference; the last one puts the index back on the stack. */
    method Release(job: nat) returns (ok: bool)
      requires Valid() && job < references.Length
      modifies this, references, freeIndices
      ensures Valid() && ok == (old(references[job]) > 0)
      ensures View() == if ok then Released(old(View()), job) else old(View())
    {
      ghost var p := View();
      if references[job] == 0 {
        return false;
      }
      CountOne(references[..], job, IN_USE);
      ReleasedValid(p, job);
      assert |p.free| < freeIndices.Length;
      hide ValidPool, Count;
      references[job] := references[job] - 1;
      if references[job] == 0 {
        freeTop := freeTop + 1;
        freeIndices[freeTop] := job;
        assert freeIndices[..freeTop + 1] == p.free + [job];
      }
      assert references[..] == Released(p, job).references;
      assert View() == Released(p, job);
      ok := true;
    }
  }
}
