/**
 Datasets over the keyed store: record keys that carry their dataset's number, and the sorted list
 of keys per dataset that scans walk. Kept up record by record, it is what a rebuild would give.
 */
module QueryIndex {
  import opened Bytes
  import opened KeyedRecords
  import opened KeyedCommit

  // ----------------------------------------------------------------- record keys

  // A record's key in the store: a zero byte, the dataset's number, and the key itself.
  function BackendKey(dataset: nat, key: Bytes): Bytes { [0] + BigEndian(8, dataset) + key }

  function DatasetOf(key: Bytes): Option<nat>
  {
    if |key| < 9 || key[0] != 0 then None else Some(FromBigEndian(key[1..9]))
  }

  lemma BackendKeyRoundTrip(dataset: nat, key: Bytes)
    requires dataset < U64_LIMIT
    ensures DatasetOf(BackendKey(dataset, key)) == Some(dataset) && BackendKey(dataset, key)[9..] == key
  {
    Widths();
    BigEndianRoundTrip(8, dataset);
    assert BackendKey(dataset, key)[1..9] == BigEndian(8, dataset);
  }

  // Dataset number and record key determine the stored key.
  lemma BackendKeyUnique(stored: Bytes, dataset: nat)
    requires DatasetOf(stored) == Some(dataset)
    ensures stored == BackendKey(dataset, stored[9..]) && dataset < U64_LIMIT
  {
    Widths();
    FromBigEndianRoundTrip(stored[1..9]);
    assert stored == [stored[0]] + stored[1..9] + stored[9..];
  }

  // ------------------------------------------------------------------- the key lists

  type Records = map<Bytes, Bytes>
  type Index = map<nat, seq<Bytes>>

  // The keys of a dataset's live records.
  function KeysIn(records: Records, dataset: nat): set<Bytes>
  {
    set key <- records | DatasetOf(key) == Some(dataset) :: key[9..]
  }

  function Listed(index: Index, dataset: nat): seq<Bytes>
  {
    if dataset in index then index[dataset] else []
  }

  // Every dataset's list is strictly ascending and holds exactly the keys of its live records.
  ghost predicate IndexOk(index: Index, records: Records)
  {
    forall dataset: nat :: ListOk(Listed(index, dataset), records, dataset)
  }

  ghost predicate ListOk(keys: seq<Bytes>, records: Records, dataset: nat)
  {
    Ascending(keys) && Elements(keys) == KeysIn(records, dataset)
  }

  // There is only one such index: it is the one a rebuild gives.
  lemma IndexUnique(a: Index, b: Index, records: Records, dataset: nat)
    requires IndexOk(a, records) && IndexOk(b, records)
    ensures Listed(a, dataset) == Listed(b, dataset)
  {
    assert ListOk(Listed(a, dataset), records, dataset) && ListOk(Listed(b, dataset), records, dataset);
    AscendingUnique(Listed(a, dataset), Listed(b, dataset));
  }

  lemma KeysAfterPut(records: Records, key: Bytes, value: Bytes, dataset: nat)
    ensures KeysIn(records[key := value], dataset) == KeysIn(records, dataset) + if DatasetOf(key) == Some(dataset)
            then {key[9..]} else {}
  {
    var after := records[key := value];
    forall k | k in KeysIn(records, dataset) ensures k in KeysIn(after, dataset) {
      var stored :| stored in records && DatasetOf(stored) == Some(dataset) && stored[9..] == k;
      assert stored in after;
    }
    if DatasetOf(key) == Some(dataset) { assert key in after; }
  }

  lemma KeysAfterDelete(records: Records, key: Bytes, dataset: nat)
    ensures KeysIn(records - {key}, dataset) == KeysIn(records, dataset) - if DatasetOf(key) == Some(dataset)
            then {key[9..]} else {}
  {
    var after := records - {key};
    forall k | k in KeysIn(records, dataset)
        && !(DatasetOf(key) == Some(dataset) && k == key[9..]) ensures k in KeysIn(after, dataset) {
      var stored :| stored in records && DatasetOf(stored) == Some(dataset) && stored[9..] == k;
      assert stored in after;
    }
    forall k | k in KeysIn(after, dataset) ensures k in KeysIn(records, dataset)
        && !(DatasetOf(key) == Some(dataset) && k == key[9..]) {
      var stored :| stored in after && DatasetOf(stored) == Some(dataset) && stored[9..] == k;
      assert stored in records;
      BackendKeyUnique(stored, dataset);
      if DatasetOf(key) == Some(dataset) { BackendKeyUnique(key, dataset); }
    }
  }

  lemma RemoveAscending(q: seq<Bytes>, p: nat)
    requires Ascending(q) && p < |q|
    ensures Ascending(q[..p] + q[p + 1..]) && Elements(q[..p] + q[p + 1..]) == Elements(q) - {q[p]}
  {
    var t := q[..p] + q[p + 1..];
    assert forall i | 0 <= i < |t| :: t[i] == if i < p then q[i] else q[i + 1];
    LessIrreflexive(q[p]);
    forall x | x in q && x != q[p] ensures x in t {
      var i :| 0 <= i < |q| && q[i] == x;
      assert t[if i < p then i else i - 1] == x;
    }
  }

  // The first position whose key is not smaller, by bisection.
  method SearchKeys(keys: seq<Bytes>, key: Bytes) returns (position: nat)
    requires Ascending(keys)
    ensures position <= |keys| && (forall i | 0 <= i < position :: Less(keys[i], key))
            && (forall i | position <= i < |keys| :: !Less(keys[i], key))
  {
    var low, high := 0, |keys|;
    while low < high
      invariant 0 <= low <= high <= |keys|
      invariant (forall i | 0 <= i < low :: Less(keys[i], key))
                && (forall i | high <= i < |keys| :: !Less(keys[i], key))
    {
      var mid := (low + high) / 2;
      if Less(keys[mid], key) {
        forall i | 0 <= i <= mid ensures Less(keys[i], key) { if i < mid { LessTransitive(keys[i], keys[mid], key); } }
        low := mid + 1;
      } else {
        forall i | mid
            <= i < |keys| ensures !Less(keys[i], key) { if i > mid
            && Less(keys[i], key) { LessTransitive(keys[mid], keys[i], key); } }
        high := mid;
      }
    }
    return low;
  }

  // Where a key stands, or belongs, in an ascending list.
  function Position(keys: seq<Bytes>, key: Bytes): (p: nat)
    ensures p <= |keys|
  {
    if keys == [] || !Less(keys[0], key) then 0 else 1 + Position(keys[1..], key)
  }

  lemma {:induction false} PositionIs(keys: seq<Bytes>, key: Bytes, p: nat)
    requires p <= |keys| && (forall i | 0 <= i < p :: Less(keys[i], key)) && (p < |keys| ==> !Less(keys[p], key))
    ensures Position(keys, key) == p
  {
    if p > 0 { PositionIs(keys[1..], key, p - 1); }
  }

  lemma {:induction false} PositionSplits(keys: seq<Bytes>, key: Bytes)
    requires Ascending(keys)
    ensures var p := Position(keys, key);
            (forall i | 0 <= i < p :: Less(keys[i], key)) && (forall i | p <= i < |keys| :: !Less(keys[i], key))
  {
    if keys != [] && Less(keys[0], key) {
      PositionSplits(keys[1..], key);
      assert forall i | 0 < i < |keys| :: keys[i] == keys[1..][i - 1];
    } else if keys != [] {
      forall i | 0 < i < |keys| ensures !Less(keys[i],
          key) { if Less(keys[i], key) { LessTransitive(keys[0], keys[i], key); } }
    }
  }

  // A key list with one key added or removed.
  function Updated(keys: seq<Bytes>, key: Bytes, delete: bool): seq<Bytes>
  {
    var p := Position(keys, key);
    var there := p < |keys| && keys[p] == key;
    if delete then (if there then keys[..p] + keys[p + 1..] else keys)
    else if there then keys else keys[..p] + [key] + keys[p..]
  }

  lemma AbsentSplits(keys: seq<Bytes>, key: Bytes, p: nat)
    requires Ascending(keys) && p <= |keys| && (p < |keys| ==> keys[p] != key && !Less(keys[p], key))
    ensures forall i | p <= i < |keys| :: Less(key, keys[i])
  {
    forall i | p <= i < |keys| ensures Less(key, keys[i]) {
      LessTotal(keys[p], key);
      if i > p { LessTransitive(key, keys[p], keys[i]); }
    }
  }

  lemma UpdatedIs(keys: seq<Bytes>, key: Bytes, delete: bool)
    requires Ascending(keys)
    ensures Ascending(Updated(keys, key, delete))
    ensures Elements(Updated(keys, key, delete)) == if delete then Elements(keys) - {key} else Elements(keys) + {key}
  {
    var p := Position(keys, key);
    PositionSplits(keys, key);
    if p < |keys| && keys[p] == key {
      assert key in Elements(keys);
      RemoveAscending(keys, p);
      assert Elements(keys) == Elements(keys) + {key};
    } else {
      AbsentSplits(keys, key, p);
      NotListed(keys, key, p);
      InsertAscending(keys, key, p);
      assert Elements(keys) == Elements(keys) - {key};
    }
  }

  method UpdateList(keys: seq<Bytes>, key: Bytes, delete: bool) returns (after: seq<Bytes>)
    requires Ascending(keys)
    ensures after == Updated(keys, key, delete)
    ensures Ascending(after) && Elements(after) == if delete then Elements(keys) - {key} else Elements(keys) + {key}
  {
    UpdatedIs(keys, key, delete);
    var position := SearchKeys(keys, key);
    PositionIs(keys, key, position);
    var there := position < |keys| && keys[position] == key;
    if delete {
      return if there then keys[..position] + keys[position + 1..] else keys;
    }
    return if there then keys else keys[..position] + [key] + keys[position..];
  }

  lemma NotListed(keys: seq<Bytes>, key: Bytes, position: nat)
    requires position <= |keys| && (forall i | 0 <= i < position :: Less(keys[i], key))
             && (forall i | position <= i < |keys| :: Less(key, keys[i]))
    ensures key !in Elements(keys)
  {
    LessIrreflexive(key);
  }

  // The list a rebuild from scratch gives.
  ghost function Rebuilt(records: Records, dataset: nat): seq<Bytes>
  {
    Sorted(KeysIn(records, dataset))
  }

  lemma ListIsRebuilt(keys: seq<Bytes>, records: Records, dataset: nat)
    ensures ListOk(keys, records, dataset) <==> keys == Rebuilt(records, dataset)
  {
    if ListOk(keys, records, dataset) { AscendingUnique(keys, Rebuilt(records, dataset)); }
  }

  // One mutation changes the list of its own dataset only.
  lemma MutationKeepsOthers(index: Index, records: Records, m: Mutation, dataset: nat)
    requires IndexOk(index, records) && DatasetOf(m.key) != Some(dataset)
    ensures ListOk(Listed(index, dataset), ApplyMutation(records, m), dataset)
  {
    assert ListOk(Listed(index, dataset), records, dataset);
    if m.delete { KeysAfterDelete(records, m.key, dataset); } else { KeysAfterPut(records, m.key, m.value, dataset); }
  }

  lemma MutationKeepsList(index: Index, records: Records, m: Mutation, dataset: nat, after: seq<Bytes>)
    requires IndexOk(index, records) && DatasetOf(m.key) == Some(dataset)
    requires var keys := Elements(Listed(index, dataset));
             Ascending(after) && Elements(after) == if m.delete then keys - {m.key[9..]} else keys + {m.key[9..]}
    ensures IndexOk(index[dataset := after], ApplyMutation(records, m))
  {
    assert ListOk(Listed(index, dataset), records, dataset);
    if m.delete { KeysAfterDelete(records, m.key, dataset); } else { KeysAfterPut(records, m.key, m.value, dataset); }
    var index', records' := index[dataset := after], ApplyMutation(records, m);
    forall d: nat ensures ListOk(Listed(index', d), records', d) {
      if d != dataset { MutationKeepsOthers(index, records, m, d); }
    }
  }

  // What upkeep does to one dataset's list.
  function Upkeep(keys: seq<Bytes>, dataset: nat, m: Mutation): seq<Bytes>
  {
    if DatasetOf(m.key) == Some(dataset) then Updated(keys, m.key[9..], m.delete) else keys
  }

  function UpkeepAll(keys: seq<Bytes>, dataset: nat, ms: seq<Mutation>): seq<Bytes>
  {
    if ms == [] then keys else Upkeep(UpkeepAll(keys, dataset, ms[..|ms| - 1]), dataset, ms[|ms| - 1])
  }

  // The lists of one index are those of another, kept up with mutations.
  ghost predicate KeptUp(start: Index, index: Index, ms: seq<Mutation>)
  {
    forall d: nat :: Listed(index, d) == UpkeepAll(Listed(start, d), d, ms)
  }

  ghost predicate KeptUpBy(start: Index, index: Index, m: Mutation)
  {
    forall d: nat :: Listed(index, d) == Upkeep(Listed(start, d), d, m)
  }

  lemma MutationStep(records: Records, ms: seq<Mutation>, i: nat)
    requires i < |ms|
    ensures ApplyMutations(records, ms[..i + 1]) == ApplyMutation(ApplyMutations(records, ms[..i]), ms[i])
  {
    assert ms[..i + 1][..i] == ms[..i];
  }

  lemma KeptUpStep(start: Index, was: Index, index: Index, ms: seq<Mutation>, i: nat)
    requires i < |ms| && KeptUp(start, was, ms[..i]) && KeptUpBy(was, index, ms[i])
    ensures KeptUp(start, index, ms[..i + 1])
  {
    assert ms[..i + 1][..i] == ms[..i];
  }

  function UpkeepRecord(keys: seq<Bytes>, dataset: nat, r: Record): seq<Bytes>
  {
    if r.applied then UpkeepAll(keys, dataset, r.mutations) else keys
  }

  // ------------------------------------------------------------------------ scanning

  datatype Action = Continue | Stop | Invalid | Failure

  datatype ScanOutcome = Done | InvalidAction | VisitFailed

  function OutcomeOf(a: Action): ScanOutcome
  {
    match a
    case Failure => VisitFailed
    case Invalid => InvalidAction
    case _ => Done
  }

  function ValueOf(records: Records, dataset: nat, key: Bytes): Bytes
  {
    var stored := BackendKey(dataset, key);
    if stored in records then records[stored] else []
  }

  // A listed key names a live record of its dataset.
  lemma ListedIsLive(keys: seq<Bytes>, records: Records, dataset: nat, i: nat)
    requires ListOk(keys, records, dataset) && i < |keys|
    ensures BackendKey(dataset, keys[i]) in records
  {
    assert keys[i] in Elements(keys);
    var stored :| stored in records && DatasetOf(stored) == Some(dataset) && stored[9..] == keys[i];
    BackendKeyUnique(stored, dataset);
  }

  class Catalog {
    var queryKeys: Index

    constructor ()
      ensures queryKeys == map[]
    {
      queryKeys := map[];
    }

    // Rebuilds the lists from the records.
    method InitializeQueryKeys(records: Records)
      requires queryKeys == map[]
      modifies this
      ensures IndexOk(queryKeys, records)
    {
      var left := records.Keys;
      while left != {}
        invariant left <= records.Keys
        invariant forall d: nat :: Elements(Listed(queryKeys, d)) == KeysIn(records - left, d)
      {
        var key :| key in left;
        ghost var before := records - left;
        forall d: nat ensures KeysIn(records - (left - {key}), d) == KeysIn(before, d) + if DatasetOf(key) == Some(d)
            then {key[9..]} else {} {
          assert records - (left - {key}) == before[key := records[key]];
          KeysAfterPut(before, key, records[key], d);
        }
        var dataset := DatasetOf(key);
        if dataset.Some? {
          ElementsSnoc(Listed(queryKeys, dataset.value), key[9..]);
          queryKeys := queryKeys[dataset.value := Listed(queryKeys, dataset.value) + [key[9..]]];
        }
        left := left - {key};
      }
      assert records - left == records;
      SortLists(records);
    }

    method SortLists(ghost records: Records)
      requires forall d: nat :: Elements(Listed(queryKeys, d)) == KeysIn(records, d)
      modifies this
      ensures IndexOk(queryKeys, records)
    {
      var unsorted := queryKeys.Keys;
      while unsorted != {}
        invariant unsorted <= queryKeys.Keys
        invariant forall d: nat :: Elements(Listed(queryKeys, d)) == KeysIn(records, d)
        invariant forall d: nat | d !in unsorted :: Ascending(Listed(queryKeys, d))
      {
        var d :| d in unsorted;
        var sorted := SortStrings(queryKeys[d]);
        queryKeys := queryKeys[d := sorted];
        unsorted := unsorted - {d};
      }
    }

    method ApplyQueryKeyMutation(m: Mutation, ghost records: Records)
      requires IndexOk(queryKeys, records)
      modifies this
      ensures IndexOk(queryKeys, ApplyMutation(records, m))
      ensures KeptUpBy(old(queryKeys), queryKeys, m)
    {
      var dataset := DatasetOf(m.key);
      if dataset.None? {
        forall d: nat ensures ListOk(Listed(queryKeys, d), ApplyMutation(records, m),
            d) { MutationKeepsOthers(queryKeys, records, m, d); }
      } else {
        assert ListOk(Listed(queryKeys, dataset.value), records, dataset.value);
        var after := UpdateList(Listed(queryKeys, dataset.value), m.key[9..], m.delete);
        MutationKeepsList(queryKeys, records, m, dataset.value, after);
        queryKeys := queryKeys[dataset.value := after];
      }
    }

    // Keeps the lists up with one applied record.
    method ApplyQueryKeyMutations(record: Record, ghost records: Records)
      requires IndexOk(queryKeys, records)
      modifies this
      ensures IndexOk(queryKeys, if record.applied then ApplyMutations(records, record.mutations) else records)
      ensures forall d: nat :: Listed(queryKeys, d) == UpkeepRecord(Listed(old(queryKeys), d), d, record)
    {
      if record.applied {
        ApplyAllMutations(record.mutations, records);
      }
    }

    method ApplyAllMutations(mutations: seq<Mutation>, ghost records: Records)
      requires IndexOk(queryKeys, records)
      modifies this
      ensures IndexOk(queryKeys, ApplyMutations(records, mutations)) && KeptUp(old(queryKeys), queryKeys, mutations)
    {
      for i := 0 to |mutations|
        invariant IndexOk(queryKeys, ApplyMutations(records, mutations[..i]))
        invariant KeptUp(old(queryKeys), queryKeys, mutations[..i])
      {
        ghost var was := queryKeys;
        ApplyQueryKeyMutation(mutations[i], ApplyMutations(records, mutations[..i]));
        MutationStep(records, mutations, i);
        KeptUpStep(old(queryKeys), was, queryKeys, mutations, i);
      }
      assert mutations[..|mutations|] == mutations;
    }

    // Visits a dataset's records in key order, each once, up to the first visit that does not ask to
    // go on.
    method Scan(records: Records, dataset: nat, visit: (Bytes, Bytes) -> Action)
        returns (visited: seq<Bytes>, outcome: ScanOutcome)
      requires IndexOk(queryKeys, records)
      ensures visited <= Rebuilt(records, dataset) && (forall key <- visited :: BackendKey(dataset, key) in records)
      ensures forall i | 0 <= i < |visited| - 1 :: visit(visited[i], ValueOf(records, dataset, visited[i])) == Continue
      ensures if visited == Rebuilt(records, dataset)
              && (forall key <- visited :: visit(key, ValueOf(records, dataset, key)) == Continue)
              then outcome == Done
              else visited != [] && (var last := visited[|visited| - 1];
                   visit(last, ValueOf(records, dataset, last)) != Continue
                       && outcome == OutcomeOf(visit(last, ValueOf(records, dataset, last))))
    {
      var keys := Listed(queryKeys, dataset);
      assert ListOk(keys, records, dataset);
      ListIsRebuilt(keys, records, dataset);
      visited := [];
      for i := 0 to |keys|
        invariant visited == keys[..i] && forall key <- visited :: BackendKey(dataset, key) in records
        invariant forall j | 0 <= j < i :: visit(keys[j], ValueOf(records, dataset, keys[j])) == Continue
      {
        ListedIsLive(keys, records, dataset, i);
        visited := visited + [keys[i]];
        var action := visit(keys[i], ValueOf(records, dataset, keys[i]));
        if action != Continue {
          assert keys[i] in visited;
          return visited, OutcomeOf(action);
        }
      }
      assert visited == keys;
      return visited, Done;
    }
  }

  lemma ElementsSnoc(keys: seq<Bytes>, key: Bytes)
    ensures Elements(keys + [key]) == Elements(keys) + {key}
  {}

  method SortStrings(keys: seq<Bytes>) returns (sorted: seq<Bytes>)
    ensures Ascending(sorted) && Elements(sorted) == Elements(keys)
  {
    sorted := [];
    for i := 0 to |keys|
      invariant Ascending(sorted) && Elements(sorted) == Elements(keys[..i])
    {
      ElementsSnoc(keys[..i], keys[i]);
      assert keys[..i + 1] == keys[..i] + [keys[i]];
      sorted := UpdateList(sorted, keys[i], false);
    }
    assert keys[..|keys|] == keys;
  }

  // ------------------------------------------------------------------- dataset bounds

  predicate LiveAfter(records: Records, writes: Writes, key: Bytes)
  {
    if key in writes then writes[key].Some? else key in records
  }

  // The stored keys of a dataset once a transaction's writes are applied.
  function KeysAfter(records: Records, writes: Writes, dataset: nat): set<Bytes>
  {
    set key | key in records.Keys + writes.Keys && LiveAfter(records, writes, key) && DatasetOf(key) == Some(dataset)
  }

  lemma CountOneRecord(records: Records, key: Bytes, value: Bytes, dataset: nat)
    requires key !in records
    ensures |KeysAfter(records[key := value], map[], dataset)|
            == |KeysAfter(records, map[], dataset)| + if DatasetOf(key) == Some(dataset) then 1 else 0
  {
    assert KeysAfter(records[key := value], map[], dataset)
        == KeysAfter(records, map[], dataset) + if DatasetOf(key) == Some(dataset) then {key} else {};
  }

  lemma CountOneWrite(records: Records, writes: Writes, key: Bytes, value: Option<Bytes>, dataset: nat)
    requires key !in writes
    ensures |KeysAfter(records, writes[key := value], dataset)| == |KeysAfter(records, writes, dataset)|
              + if DatasetOf(key) != Some(dataset) then 0
                  else (if value.Some? then 1 else 0) - (if key in records then 1 else 0)
  {
    var before, after := KeysAfter(records, writes, dataset), KeysAfter(records, writes[key := value], dataset);
    forall k | k != key ensures k in before <==> k in after {
      assert LiveAfter(records, writes, k) == LiveAfter(records, writes[key := value], k);
    }
    SizeChange(before, after, key);
  }

  lemma SizeChange<T>(before: set<T>, after: set<T>, x: T)
    requires forall k | k != x :: k in before <==> k in after
    ensures |after| - |before| == (if x in after then 1 else 0) - (if x in before then 1 else 0)
  {
    SizeWithout(before, x);
    SizeWithout(after, x);
    assert before - {x} == after - {x};
  }

  lemma SizeWithout<T>(s: set<T>, x: T)
    ensures |s| == |s - {x}| + if x in s then 1 else 0
  {
    if x in s {
      assert s == (s - {x}) + {x};
    } else {
      assert s - {x} == s;
    }
  }

  function CountOf(counts: map<nat, int>, dataset: nat): int { if dataset in counts then counts[dataset] else 0 }

  function Counted(counts: map<nat, int>, dataset: Option<nat>, change: int): map<nat, int>
  {
    if dataset.None? then counts else counts[dataset.value := CountOf(counts, dataset.value) + change]
  }

  // The records each dataset has.
  method CountRecords(records: Records) returns (counts: map<nat, int>)
    ensures forall d: nat :: CountOf(counts, d) == |KeysAfter(records, map[], d)|
  {
    counts := map[];
    var left := records.Keys;
    while left != {}
      invariant left <= records.Keys && forall d: nat :: CountOf(counts, d) == |KeysAfter(records - left, map[], d)|
    {
      var key :| key in left;
      assert records - (left - {key}) == (records - left)[key := records[key]];
      forall d: nat { CountOneRecord(records - left, key, records[key], d); }
      counts := Counted(counts, DatasetOf(key), 1);
      left := left - {key};
    }
    assert records - left == records;
  }

  // A transaction may commit exactly if afterwards no dataset has more records than its bound.
  method ValidateDatasetBounds(records: Records, writes: Writes, bounds: map<nat, nat>) returns (ok: bool)
    ensures ok <==> forall d <- bounds :: |KeysAfter(records, writes, d)| <= bounds[d]
  {
    var counts := CountRecords(records);
    var unread := writes.Keys;
    assert writes - unread == map[];
    while unread != {}
      invariant unread <= writes.Keys && forall d: nat :: CountOf(counts, d) == |KeysAfter(records, writes - unread, d)|
    {
      var key :| key in unread;
      assert writes - (unread - {key}) == (writes - unread)[key := writes[key]];
      forall d: nat { CountOneWrite(records, writes - unread, key, writes[key], d); }
      if writes[key].None? && key in records {
        counts := Counted(counts, DatasetOf(key), -1);
      } else if writes[key].Some? && key !in records {
        counts := Counted(counts, DatasetOf(key), 1);
      }
      unread := unread - {key};
    }
    assert writes - unread == writes;
    var unchecked := bounds.Keys;
    while unchecked != {}
      invariant unchecked <= bounds.Keys && forall d <- bounds | d !in unchecked ::
                  |KeysAfter(records, writes, d)| <= bounds[d]
    {
      var d :| d in unchecked;
      if CountOf(counts, d) > bounds[d] {
        return false;
      }
      unchecked := unchecked - {d};
    }
    return true;
  }
}
