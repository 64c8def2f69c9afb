/** How many elements of a sequence satisfy a predicate: the bookkeeping behind every counter
    that a component keeps about its threads. */
module Counting {

  function Count<T>(s: seq<T>, p: T -> bool): nat {
    if s == [] then 0 else Count(s[..|s| - 1], p) + if p(s[|s| - 1]) then 1 else 0
  }

  lemma {:induction false} CountUpdate<T>(s: seq<T>, i: nat, x: T, p: T -> bool)
    requires i < |s|
    ensures Count(s[i := x], p) == Count(s, p) - (if p(s[i]) then 1 else 0) + (if p(x) then 1 else 0)
  {
    var n := |s| - 1;
    if i < n {
      CountUpdate(s[..n], i, x, p);
      assert s[i := x][..n] == s[..n][i := x];
    } else {
      assert s[i := x][..n] == s[..n];
    }
  }

  lemma {:induction false} CountOne<T>(s: seq<T>, i: nat, p: T -> bool)
    requires i < |s| && p(s[i])
    ensures Count(s, p) >= 1
  {
    var n := |s| - 1;
    if i < n {
      CountOne(s[..n], i, p);
    }
  }

  lemma {:induction false} CountZero<T>(s: seq<T>, p: T -> bool)
    ensures Count(s, p) == 0 <==> forall i | 0 <= i < |s| :: !p(s[i])
  {
    if s != [] {
      var n := |s| - 1;
      CountZero(s[..n], p);
      if Count(s, p) == 0 {
        forall i | 0 <= i < |s|
          ensures !p(s[i])
        {
          assert i < n ==> s[i] == s[..n][i];
        }
      }
      if forall i | 0 <= i < |s| :: !p(s[i]) {
        assert forall i | 0 <= i < n :: !p(s[..n][i]);
      }
    }
  }

  lemma CountSnoc<T>(s: seq<T>, x: T, p: T -> bool)
    ensures Count(s + [x], p) == Count(s, p) + One(p(x))
  {
    assert (s + [x])[..|s|] == s;
  }

  lemma {:induction false} CountWithout<T>(s: seq<T>, k: nat, p: T -> bool)
    requires k < |s|
    ensures Count(s[..k] + s[k + 1..], p) + One(p(s[k])) == Count(s, p)
  {
    var n := |s| - 1;
    if k < n {
      CountWithout(s[..n], k, p);
      CountSnoc(s[..n][..k] + s[..n][k + 1..], s[n], p);
      assert s[..k] + s[k + 1..] == s[..n][..k] + s[..n][k + 1..] + [s[n]];
    } else {
      assert s[..k] + s[k + 1..] == s[..n];
    }
  }

  lemma {:induction false} CountFind<T>(s: seq<T>, p: T -> bool) returns (i: nat)
    requires Count(s, p) > 0
    ensures i < |s| && p(s[i])
  {
    var n := |s| - 1;
    if p(s[n]) { i := n; } else { i := CountFind(s[..n], p); }
  }

  /** The weights of all elements together. */
  function Sum<T>(s: seq<T>, w: T -> nat): nat {
    if s == [] then 0 else Sum(s[..|s| - 1], w) + w(s[|s| - 1])
  }

  lemma SumSnoc<T>(s: seq<T>, x: T, w: T -> nat)
    ensures Sum(s + [x], w) == Sum(s, w) + w(x)
  {
    assert (s + [x])[..|s|] == s;
  }

  lemma {:induction false} SumUpdate<T>(s: seq<T>, i: nat, x: T, w: T -> nat)
    requires i < |s|
    ensures Sum(s[i := x], w) + w(s[i]) == Sum(s, w) + w(x)
  {
    var n := |s| - 1;
    if i < n {
      SumUpdate(s[..n], i, x, w);
      assert s[i := x][..n] == s[..n][i := x];
    } else {
      assert s[i := x][..n] == s[..n];
    }
  }

  lemma {:induction false} SumWithout<T>(s: seq<T>, k: nat, w: T -> nat)
    requires k < |s|
    ensures Sum(s[..k] + s[k + 1..], w) + w(s[k]) == Sum(s, w)
  {
    var n := |s| - 1;
    if k < n {
      SumWithout(s[..n], k, w);
      SumSnoc(s[..n][..k] + s[..n][k + 1..], s[n], w);
      assert s[..k] + s[k + 1..] == s[..n][..k] + s[..n][k + 1..] + [s[n]];
    } else {
      assert s[..k] + s[k + 1..] == s[..n];
    }
  }

  /** How much one element adds to a count. */
  function One(b: bool): nat {
    if b then 1 else 0
  }

  /** The source's guarded decrement of a counter. */
  function Dec(n: nat): nat {
    if n > 0 then n - 1 else 0
  }
}
