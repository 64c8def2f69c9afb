/** The record array as a finite map. */
module KvRecords {
  import opened Counting
  import opened KvDisk

  predicate Holds(records: seq<Record>, i: int, key: Bytes) {
    0 <= i < |records| && records[i].InUse? && records[i].key == key
  }

  /** No two in-use records share a key. */
  predicate UniqueKeys(records: seq<Record>) {
    forall i, j | 0 <= i < j < |records| && records[i].InUse? && records[j].InUse? ::
      records[i].key != records[j].key
  }

  /** The map the records stand for. */
  function MapOf(records: seq<Record>): map<Bytes, Bytes> {
    if records == [] then map[]
    else
      var rest, last := MapOf(records[..|records| - 1]), records[|records| - 1];
      if last.InUse? then rest[last.key := last.value] else rest
  }

  lemma {:induction false} MapOfKeys(records: seq<Record>, key: Bytes)
    ensures key in MapOf(records) <==> exists i :: Holds(records, i, key)
  {
    if records != [] {
      var n := |records| - 1;
      MapOfKeys(records[..n], key);
      if exists i :: Holds(records[..n], i, key) {
        var i :| Holds(records[..n], i, key);
        assert Holds(records, i, key);
      }
      if exists i :: Holds(records, i, key) {
        var i :| Holds(records, i, key);
        if i < n {
          assert Holds(records[..n], i, key);
        }
      }
      if records[n].InUse? && records[n].key == key {
        assert Holds(records, n, key);
      }
    }
  }

  lemma {:induction false} MapOfValue(records: seq<Record>, i: nat)
    requires UniqueKeys(records) && i < |records| && records[i].InUse?
    ensures records[i].key in MapOf(records) && MapOf(records)[records[i].key] == records[i].value
  {
    var n := |records| - 1;
    if i < n {
      MapOfValue(records[..n], i);
    }
  }

  lemma KeptKeys(records: seq<Record>, i: nat, record: Record, key: Bytes)
    requires i < |records|
    requires forall j | 0 <= j < |records| && j != i :: !Holds(records, j, key)
    requires record.InUse? ==> record.key == key
    requires records[i].InUse? ==> records[i].key == key
    requires UniqueKeys(records)
    ensures UniqueKeys(records[i := record])
  {
    var records' := records[i := record];
    forall a, b | 0 <= a < b < |records'| && records'[a].InUse? && records'[b].InUse?
      ensures records'[a].key != records'[b].key
    {
      assert a != i ==> !Holds(records, a, key);
      assert b != i ==> !Holds(records, b, key);
    }
  }

  lemma OtherKeys(records: seq<Record>, i: nat, record: Record, key: Bytes, k: Bytes)
    requires i < |records| && UniqueKeys(records) && UniqueKeys(records[i := record])
    requires record.InUse? ==> record.key == key
    requires records[i].InUse? ==> records[i].key == key
    requires k != key
    ensures k in MapOf(records) <==> k in MapOf(records[i := record])
    ensures k in MapOf(records) ==> MapOf(records)[k] == MapOf(records[i := record])[k]
  {
    var records' := records[i := record];
    MapOfKeys(records, k);
    MapOfKeys(records', k);
    forall j | Holds(records, j, k) || Holds(records', j, k)
      ensures Holds(records, j, k) && Holds(records', j, k) && MapOf(records)[k] == MapOf(records')[k]
    {
      assert j != i;
      MapOfValue(records, j);
      MapOfValue(records', j);
    }
  }

  /** Writing `(key, value)` into the slot that holds `key`, or a free one if none does, is
      map update. */
  lemma SetIsMapUpdate(records: seq<Record>, i: nat, key: Bytes, value: Bytes)
    requires i < |records| && UniqueKeys(records)
    requires forall j | 0 <= j < |records| && j != i :: !Holds(records, j, key)
    requires records[i].InUse? ==> records[i].key == key
    ensures UniqueKeys(records[i := InUse(key, value)])
    ensures MapOf(records[i := InUse(key, value)]) == MapOf(records)[key := value]
  {
    var records' := records[i := InUse(key, value)];
    KeptKeys(records, i, InUse(key, value), key);
    MapOfValue(records', i);
    forall k | k != key
      ensures k in MapOf(records) <==> k in MapOf(records')
      ensures k in MapOf(records) ==> MapOf(records)[k] == MapOf(records')[k]
    {
      OtherKeys(records, i, InUse(key, value), key, k);
    }
    assert MapOf(records').Keys == MapOf(records)[key := value].Keys;
  }

  /** Freeing the slot that holds `key` removes the key from the map. */
  lemma FreeIsMapRemove(records: seq<Record>, i: nat, key: Bytes, record: Record)
    requires UniqueKeys(records) && Holds(records, i, key) && record.IsFree()
    ensures UniqueKeys(records[i := record])
    ensures MapOf(records[i := record]) == MapOf(records) - {key}
  {
    var records' := records[i := record];
    KeptKeys(records, i, record, key);
    MapOfKeys(records', key);
    assert forall j :: !Holds(records', j, key);
    forall k | k != key
      ensures k in MapOf(records) <==> k in MapOf(records')
      ensures k in MapOf(records) ==> MapOf(records)[k] == MapOf(records')[k]
    {
      OtherKeys(records, i, record, key, k);
    }
    assert MapOf(records').Keys == MapOf(records).Keys - {key};
  }

  // ---------------------------------------------------------------- counting

  lemma UsedUpdate(records: seq<Record>, i: nat, record: Record)
    requires i < |records|
    ensures Used(records[i := record]) == Used(records) - One(records[i].InUse?) + One(record.InUse?)
  {
    CountUpdate(records, i, record, IN_USE);
  }

  lemma {:induction false} UsedBound(records: seq<Record>)
    ensures Used(records) <= |records|
    ensures (exists i | 0 <= i < |records| :: !records[i].InUse?) <==> Used(records) < |records|
  {
    if records != [] {
      var n := |records| - 1;
      UsedBound(records[..n]);
      if exists i | 0 <= i < |records| :: !records[i].InUse? {
        var i :| 0 <= i < |records| && !records[i].InUse?;
        assert i < n ==> !records[..n][i].InUse?;
      }
      if exists i | 0 <= i < n :: !records[..n][i].InUse? {
        var i :| 0 <= i < n && !records[..n][i].InUse?;
        assert !records[i].InUse?;
      }
      assert !records[n].InUse? ==> exists i | 0 <= i < |records| :: !records[i].InUse?;
    }
  }

  /** The superblock's count is the size of the map. */
  lemma {:induction false} UsedIsMapSize(records: seq<Record>)
    requires UniqueKeys(records)
    ensures Used(records) == |MapOf(records)|
  {
    if records != [] {
      var n := |records| - 1;
      UsedIsMapSize(records[..n]);
      if records[n].InUse? {
        MapOfKeys(records[..n], records[n].key);
        assert forall i :: !Holds(records[..n], i, records[n].key);
      }
    }
  }

  lemma {:induction false} NothingUsed(n: nat)
    ensures Used(seq(n, _ => Blank)) == 0
    ensures MapOf(seq(n, _ => Blank)) == map[]
  {
    if n > 0 {
      assert seq(n, _ => Blank)[..n - 1] == seq(n - 1, _ => Blank);
      NothingUsed(n - 1);
    }
  }

  // ---------------------------------------------------------------- search

  /** The last in-use slot with this key, or the capacity. */
  function FindKey(records: seq<Record>, key: Bytes): (i: nat)
    ensures i <= |records|
    ensures i < |records| ==> Holds(records, i, key)
    ensures forall j | i < j < |records| :: !Holds(records, j, key)
    ensures i == |records| ==> forall j | 0 <= j < |records| :: !Holds(records, j, key)
  {
    FindKeyBelow(records, key, |records|)
  }

  /** The last match among the first `n` records. */
  function FindKeyBelow(records: seq<Record>, key: Bytes, n: nat): (i: nat)
    requires n <= |records|
    ensures i < n || i == |records|
    ensures i < |records| ==> Holds(records, i, key)
    ensures forall j | 0 <= j < n && (i == |records| || i < j) :: !Holds(records, j, key)
  {
    if n == 0 then |records|
    else if Holds(records, n - 1, key) then n - 1
    else FindKeyBelow(records, key, n - 1)
  }

  /** The first free slot, or the capacity. */
  function FindFree(records: seq<Record>, from: nat := 0): (i: nat)
    requires from <= |records|
    requires NoBadRecord(records)
    ensures from <= i <= |records|
    ensures i < |records| ==> records[i].IsFree()
    ensures forall j | from <= j < i :: records[j].InUse?
    decreases |records| - from
  {
    if from == |records| || records[from].IsFree() then from else FindFree(records, from + 1)
  }
}
