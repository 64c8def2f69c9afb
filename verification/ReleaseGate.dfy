/** The two header gates of a release: one walks the new declarations, the other the old ones. Both
    decide whether every old header embeds, in order, into the new header of the same path. */
module ReleaseGate {
  type Line = string
  type Path = string

  /** The compatibility relation is a parameter: the result holds for any. */
  type Relation = (Line, Line) -> bool

  type Headers = map<Path, seq<Line>>

  /** The same declaration, or a compatible replacement of it. */
  predicate Fits(compatible: Relation, was: Line, now: Line) {
    was == now || compatible(was, now)
  }

  /** Places in the new header, in order, one for every old declaration. */
  predicate Placed(compatible: Relation, was: seq<Line>, now: seq<Line>, places: seq<nat>) {
    && |places| == |was|
    && (forall i | 0 <= i < |was| :: places[i] < |now| && Fits(compatible, was[i], now[places[i]]))
    && (forall i, j | 0 <= i < j < |was| :: places[i] < places[j])
  }

  ghost predicate Embeds(compatible: Relation, was: seq<Line>, now: seq<Line>) {
    exists places :: Placed(compatible, was, now, places)
  }

  function Lines(headers: Headers, path: Path): seq<Line> {
    if path in headers then headers[path] else []
  }

  /** What a release promises: every old header embeds. */
  ghost predicate Compatible(compatible: Relation, baseline: Headers, current: Headers) {
    forall path | path in baseline :: Embeds(compatible, baseline[path], Lines(current, path))
  }

  // ---------------------------------------------------------------- embeddings, one end at a time

  lemma EmbedsNothing(compatible: Relation, now: seq<Line>)
    ensures Embeds(compatible, [], now)
  {
    assert Placed(compatible, [], now, []);
  }

  /** Fewer old declarations, or more new ones, are no harder. */
  lemma EmbedsPrefix(compatible: Relation, was: seq<Line>, now: seq<Line>, k: nat, m: nat)
    requires k <= |was| && m <= |now| && Embeds(compatible, was, now[..m])
    ensures Embeds(compatible, was[..k], now)
  {
    var places :| Placed(compatible, was, now[..m], places);
    assert Placed(compatible, was[..k], now, places[..k]);
  }

  lemma EmbedsExtend(compatible: Relation, was: seq<Line>, now: seq<Line>, k: nat, m: nat)
    requires k < |was| && m < |now| && Embeds(compatible, was[..k], now[..m]) && Fits(compatible, was[k], now[m])
    ensures Embeds(compatible, was[..k + 1], now[..m + 1])
  {
    var places :| Placed(compatible, was[..k], now[..m], places);
    assert Placed(compatible, was[..k + 1], now[..m + 1], places + [m]);
  }

  /** An embedding uses its last new declaration for the last old one, or does without it. */
  lemma EmbedsLast(compatible: Relation, was: seq<Line>, now: seq<Line>, k: nat, m: nat)
    requires k < |was| && m < |now| && Embeds(compatible, was[..k + 1], now[..m + 1])
    ensures Embeds(compatible, was[..k + 1], now[..m]) || (Fits(compatible, was[k], now[m]) && Embeds(compatible, was[..k], now[..m]))
  {
    var places :| Placed(compatible, was[..k + 1], now[..m + 1], places);
    if places[k] < m {
      assert Placed(compatible, was[..k + 1], now[..m], places);
    } else {
      assert was[..k + 1][k] == was[k] && now[..m + 1][m] == now[m];
      assert Placed(compatible, was[..k], now[..m], places[..k]);
    }
  }

  lemma EmbedsNeedsRoom(compatible: Relation, was: seq<Line>, now: seq<Line>)
    requires was != [] && Embeds(compatible, was, now)
    ensures now != []
  {
    var places :| Placed(compatible, was, now, places);
    assert places[0] < |now|;
  }

  // ---------------------------------------------------------------- the API gate

  /** After `m` new declarations, exactly the first `k` old ones embed, and no more. */
  ghost predicate MostEmbed(compatible: Relation, was: seq<Line>, now: seq<Line>, k: nat, m: nat)
    requires k <= |was| && m <= |now|
  {
    forall i | 0 <= i <= |was| :: Embeds(compatible, was[..i], now[..m]) <==> i <= k
  }

  lemma MostEmbedStep(compatible: Relation, was: seq<Line>, now: seq<Line>, k: nat, m: nat)
    requires k <= |was| && m < |now| && MostEmbed(compatible, was, now, k, m)
    ensures MostEmbed(compatible, was, now, if k < |was| && Fits(compatible, was[k], now[m]) then k + 1 else k, m + 1)
  {
    var k' := if k < |was| && Fits(compatible, was[k], now[m]) then k + 1 else k;
    forall i | 0 <= i <= |was|
      ensures Embeds(compatible, was[..i], now[..m + 1]) <==> i <= k'
    {
      if i <= k {
        assert now[..m + 1][..m] == now[..m] && was[..i][..i] == was[..i];
        EmbedsPrefix(compatible, was[..i], now[..m + 1], i, m);
      } else {
        if i == k' { EmbedsExtend(compatible, was, now, k, m); }
        if Embeds(compatible, was[..i], now[..m + 1]) { EmbedsLast(compatible, was, now, i - 1, m); }
      }
    }
  }

  /** The first `m` new declarations without those at the given places. */
  function Unplaced(now: seq<Line>, places: seq<nat>, m: nat): seq<Line>
    requires m <= |now|
  {
    if m == 0 then [] else Unplaced(now, places, m - 1) + if m - 1 in places then [] else [now[m - 1]]
  }

  /** A place further on does not matter to the ones before. */
  lemma {:induction false} UnplacedBefore(now: seq<Line>, places: seq<nat>, at: nat, m: nat)
    requires m <= at && m <= |now|
    ensures Unplaced(now, places + [at], m) == Unplaced(now, places, m)
  {
    if m > 0 { UnplacedBefore(now, places, at, m - 1); }
  }

  lemma PlacedSnoc(compatible: Relation, was: seq<Line>, now: seq<Line>, places: seq<nat>, k: nat, m: nat)
    requires k < |was| && m < |now| && Placed(compatible, was[..k], now[..m], places) && Fits(compatible, was[k], now[m])
    ensures Placed(compatible, was[..k + 1], now[..m + 1], places + [m])
  {
  }

  lemma PlacedLater(compatible: Relation, was: seq<Line>, now: seq<Line>, places: seq<nat>, m: nat)
    requires m < |now| && Placed(compatible, was, now[..m], places)
    ensures Placed(compatible, was, now[..m + 1], places) && m !in places
  {
  }

  /** One header of `check_api`: the old declarations left over, and the new ones that are additions:
      the others are the places of the old ones, in order. */
  method CheckApiHeader(compatible: Relation, was: seq<Line>, now: seq<Line>)
    returns (removed: seq<Line>, added: seq<Line>, ghost places: seq<nat>)
    ensures removed == [] <==> Embeds(compatible, was, now)
    ensures |removed| <= |was| && removed == was[|was| - |removed|..]
    ensures Placed(compatible, was[..|was| - |removed|], now, places) && added == Unplaced(now, places, |now|)
    ensures removed != [] ==> !Embeds(compatible, was[..|was| - |removed| + 1], now)
    ensures |added| + |was| == |now| + |removed|
  {
    var k := 0;
    added, places := [], [];
    EmbedsNothing(compatible, now[..0]);
    forall i | 0 < i <= |was|
      ensures !Embeds(compatible, was[..i], now[..0])
    {
      if Embeds(compatible, was[..i], now[..0]) { EmbedsNeedsRoom(compatible, was[..i], now[..0]); }
    }
    for m := 0 to |now|
      invariant k <= |was| && |added| + k == m
      invariant MostEmbed(compatible, was, now, k, m)
      invariant Placed(compatible, was[..k], now[..m], places) && added == Unplaced(now, places, m)
    {
      MostEmbedStep(compatible, was, now, k, m);
      PlacedLater(compatible, was[..k], now, places, m);
      if k < |was| && (now[m] == was[k] || compatible(was[k], now[m])) {
        PlacedSnoc(compatible, was, now, places, k, m);
        UnplacedBefore(now, places, m, m);
        places := places + [m];
        k := k + 1;
      } else {
        added := added + [now[m]];
      }
    }
    assert now[..|now|] == now && was[..|was|] == was;
    removed := was[k..];
  }

  /** `check_api`: every path of either release. */
  method CheckApi(compatible: Relation, baseline: Headers, current: Headers) returns (accepted: bool)
    ensures accepted <==> Compatible(compatible, baseline, current)
  {
    var todo := baseline.Keys + current.Keys;
    accepted := true;
    ghost var done: set<Path> := {};
    while todo != {}
      invariant done + todo == baseline.Keys + current.Keys
      invariant accepted <==> forall path | path in done :: Embeds(compatible, Lines(baseline, path), Lines(current, path))
      decreases |todo|
    {
      var path :| path in todo;
      var removed, _, _ := CheckApiHeader(compatible, Lines(baseline, path), Lines(current, path));
      if removed != [] {
        accepted := false;
      }
      todo, done := todo - {path}, done + {path};
    }
    if forall path | path in baseline :: Embeds(compatible, baseline[path], Lines(current, path)) {
      forall path | path in done
        ensures Embeds(compatible, Lines(baseline, path), Lines(current, path))
      {
        if path !in baseline { EmbedsNothing(compatible, Lines(current, path)); }
      }
    }
    if accepted {
      forall path | path in baseline
        ensures Embeds(compatible, baseline[path], Lines(current, path))
      {
        assert path in done && Lines(baseline, path) == baseline[path];
      }
    }
  }

  // ---------------------------------------------------------------- the ABI gate

  /** The first `k` old declarations embed in the first `m` new ones, and in no fewer. */
  ghost predicate FewestHold(compatible: Relation, was: seq<Line>, now: seq<Line>, k: nat, m: nat)
    requires k <= |was| && m <= |now|
  {
    forall n | 0 <= n <= |now| :: Embeds(compatible, was[..k], now[..n]) <==> m <= n
  }

  /** Skipping to the first declaration that fits keeps the choice the best one. */
  lemma {:induction false} NextNeedsFit(compatible: Relation, was: seq<Line>, now: seq<Line>, k: nat, m: nat, next: nat, n: nat)
    requires k < |was| && m <= next <= |now| && n <= |now| && FewestHold(compatible, was, now, k, m)
    requires forall i | m <= i < next :: !Fits(compatible, was[k], now[i])
    requires Embeds(compatible, was[..k + 1], now[..n])
    ensures next < n
    decreases n
  {
    EmbedsNeedsRoom(compatible, was[..k + 1], now[..n]);
    EmbedsLast(compatible, was, now, k, n - 1);
    if Embeds(compatible, was[..k + 1], now[..n - 1]) {
      NextNeedsFit(compatible, was, now, k, m, next, n - 1);
    }
  }

  lemma FewestHoldStep(compatible: Relation, was: seq<Line>, now: seq<Line>, k: nat, m: nat, next: nat)
    requires k < |was| && m <= next < |now| && FewestHold(compatible, was, now, k, m)
    requires (forall i | m <= i < next :: !Fits(compatible, was[k], now[i])) && Fits(compatible, was[k], now[next])
    ensures FewestHold(compatible, was, now, k + 1, next + 1)
  {
    forall n | 0 <= n <= |now|
      ensures Embeds(compatible, was[..k + 1], now[..n]) <==> next + 1 <= n
    {
      if Embeds(compatible, was[..k + 1], now[..n]) { NextNeedsFit(compatible, was, now, k, m, next, n); }
      if next + 1 <= n {
        assert Embeds(compatible, was[..k], now[..next]);
        EmbedsExtend(compatible, was, now, k, next);
        assert now[..n][..next + 1] == now[..next + 1] && was[..k + 1][..k + 1] == was[..k + 1];
        EmbedsPrefix(compatible, was[..k + 1], now[..n], k + 1, next + 1);
      }
    }
  }

  /** One header of `check_abi_headers`: the old declarations that found no place. */
  method CheckAbiHeader(compatible: Relation, was: seq<Line>, now: seq<Line>) returns (changed: seq<Line>)
    ensures changed == [] <==> Embeds(compatible, was, now)
  {
    var m := 0;
    changed := [];
    forall n | 0 <= n <= |now|
      ensures Embeds(compatible, was[..0], now[..n])
    {
      EmbedsNothing(compatible, now[..n]);
    }
    for k := 0 to |was|
      invariant m <= |now|
      invariant changed == [] ==> FewestHold(compatible, was, now, k, m)
      invariant changed != [] ==> m == |now| && !Embeds(compatible, was, now)
    {
      ghost var m0 := m;
      while m < |now| && now[m] != was[k] && !compatible(was[k], now[m])
        invariant m0 <= m <= |now|
        invariant forall i | m0 <= i < m :: !Fits(compatible, was[k], now[i])
      {
        m := m + 1;
      }
      if m == |now| {
        if changed == [] && Embeds(compatible, was, now) {
          assert now[..|now|] == now;
          EmbedsPrefix(compatible, was, now, k + 1, |now|);
          NextNeedsFit(compatible, was, now, k, m0, m, |now|);
        }
        changed := changed + [was[k]];
      } else {
        if changed == [] { FewestHoldStep(compatible, was, now, k, m0, m); }
        m := m + 1;
      }
    }
    assert was[..|was|] == was && now[..|now|] == now;
  }

  /** `check_abi_headers`: every path of the old release. */
  method CheckAbi(compatible: Relation, baseline: Headers, current: Headers) returns (accepted: bool)
    ensures accepted <==> Compatible(compatible, baseline, current)
  {
    var todo := baseline.Keys;
    accepted := true;
    ghost var done: set<Path> := {};
    while todo != {}
      invariant done + todo == baseline.Keys
      invariant accepted <==> forall path | path in done :: Embeds(compatible, Lines(baseline, path), Lines(current, path))
      decreases |todo|
    {
      var path :| path in todo;
      var changed := CheckAbiHeader(compatible, Lines(baseline, path), Lines(current, path));
      if changed != [] {
        accepted := false;
      }
      todo, done := todo - {path}, done + {path};
    }
    assert forall path | path in done :: Lines(baseline, path) == baseline[path];
  }

  /** The two gates accept the same pairs of releases, whatever the compatibility relation is. */
  method BothGates(compatible: Relation, baseline: Headers, current: Headers) returns (api: bool, abi: bool)
    ensures api == abi && (api <==> Compatible(compatible, baseline, current))
  {
    api := CheckApi(compatible, baseline, current);
    abi := CheckAbi(compatible, baseline, current);
  }
}
