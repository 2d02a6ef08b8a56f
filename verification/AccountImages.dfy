/**
 What a snapshot of the account engine holds, and that loading it restores the engine.
 */
module AccountImages {
  import opened Bytes
  import opened Accounts
  import opened AccountEngine
  import opened AccountDedupe
  import opened AccountInvariants
  import Snap = AccountSnapshot

  // ------------------------------------------------------------- engines and images

  // The image of an engine whose slots are numbered in the order of `ids`.
  function ImageOf(window: nat, e: Engine, ids: seq<AccountID>): Snap.Image
    requires (forall id <- ids :: id in e.slots) && (forall id <- e.order :: id in e.results)
  {
    Snap.Image(e.sequence, seq(|ids|, i requires 0 <= i < |ids| => e.slots[ids[i]]), e.ledger, window,
               seq(|e.order|, i requires 0 <= i < |e.order| => e.results[e.order[i]]))
  }

  function SlotsOf(rows: seq<Slot>): Slots
  {
    if rows == [] then map[] else SlotsOf(rows[..|rows| - 1])[rows[|rows| - 1].account.id := rows[|rows| - 1]]
  }

  // Loading registers the rows in order and remembers the results in order.
  function Recollect(window: nat, e: Engine, results: seq<Result>): Engine
  {
    if results == [] then e
    else Remember(window, Recollect(window, e, results[..|results| - 1]), results[|results| - 1].commandID,
        results[|results| - 1])
  }

  function EngineOf(img: Snap.Image): Engine
  {
    Recollect(img.window, Engine(SlotsOf(img.rows), img.ledger, map[], [], img.sequence), img.results)
  }

  // `ids` numbers the slots.
  ghost predicate Numbers(ids: seq<AccountID>, slots: Slots)
  {
    Distinct(ids) && (forall id <- ids :: id in slots) && forall id <- slots :: id in ids
  }

  lemma {:induction false} SlotsRestored(slots: Slots, ids: seq<AccountID>, rows: seq<Slot>)
    requires Distinct(ids) && |rows| == |ids| && SlotsOk(slots) && forall i | 0 <= i < |ids| ::
               ids[i] in slots && rows[i] == slots[ids[i]]
    ensures SlotsOf(rows) == map id | id in slots && id in ids :: slots[id]
    decreases |ids|
  {
    if ids != [] {
      var n := |ids| - 1;
      assert Distinct(ids[..n]);
      SlotsRestored(slots, ids[..n], rows[..n]);
      assert SlotOk(ids[n], slots[ids[n]]);
      assert forall id <- ids :: id in ids[..n] || id == ids[n];
    }
  }

  function Only(results: map<Bytes, Result>, ids: seq<Bytes>): map<Bytes, Result>
  {
    map id | id in results && id in ids :: results[id]
  }

  lemma OnlySnoc(results: map<Bytes, Result>, ids: seq<Bytes>, id: Bytes)
    requires id in results
    ensures Only(results, ids + [id]) == Only(results, ids)[id := results[id]]
  {
    assert forall x :: x in ids + [id] <==> x in ids || x == id;
  }

  lemma {:induction false} ResultsRestored(window: nat, e: Engine, base: Engine, results: seq<Result>, n: nat)
    requires base.results == map[] && base.order == [] && Remembers(window, e) && n == |results| <= |e.order|
    requires forall i | 0 <= i < n :: e.order[i] in e.results && results[i] == e.results[e.order[i]]
    ensures Recollect(window, base, results) == base.(results := Only(e.results, e.order[..n]), order := e.order[..n])
    decreases n
  {
    if n == 0 {
      assert Only(e.results, e.order[..0]) == map[];
    } else {
      ResultsRestored(window, e, base, results[..n - 1], n - 1);
      RecollectOne(window, e, base, n - 1, results[n - 1]);
    }
  }

  lemma RecollectOne(window: nat, e: Engine, base: Engine, n: nat, r: Result)
    requires n < |e.order| <= window && e.order[n] in e.results && r == e.results[e.order[n]]
             && r.commandID == e.order[n]
    ensures Remember(window, base.(results := Only(e.results, e.order[..n]), order := e.order[..n]), r.commandID, r)
         == base.(results := Only(e.results, e.order[..n + 1]), order := e.order[..n + 1])
  {
    assert e.order[..n] + [e.order[n]] == e.order[..n + 1];
    OnlySnoc(e.results, e.order[..n], e.order[n]);
  }

  lemma OnlyAll(window: nat, e: Engine)
    requires Remembers(window, e)
    ensures Only(e.results, e.order) == e.results
  {}

  lemma OnlySlots(slots: Slots, ids: seq<AccountID>)
    requires Numbers(ids, slots)
    ensures (map id | id in slots && id in ids :: slots[id]) == slots
  {}

  // A snapshot's image restores the engine it was taken of.
  lemma ImageRestores(window: nat, e: Engine, ids: seq<AccountID>)
    requires Good(window, e) && Numbers(ids, e.slots)
    ensures EngineOf(ImageOf(window, e, ids)) == e
  {
    var img := ImageOf(window, e, ids);
    SlotsRestored(e.slots, ids, img.rows);
    OnlySlots(e.slots, ids);
    ResultsRestored(window, e, Engine(e.slots, e.ledger, map[], [], e.sequence), img.results, |e.order|);
    OnlyAll(window, e);
    assert e.order[..|e.order|] == e.order;
  }

  lemma {:induction false} LedgerGrows(e: Engine, k: nat, prior: nat)
    requires LedgerOk(e) && k <= |e.ledger| && (k < |e.ledger| ==> prior < e.ledger[k].sequence)
    ensures Snap.EntriesGrow(e.ledger[k..], prior, e.sequence)
    decreases |e.ledger| - k
  {
    if k < |e.ledger| {
      assert e.ledger[k] in e.ledger && e.ledger[k..][1..] == e.ledger[k + 1..];
      LedgerGrows(e, k + 1, e.ledger[k].sequence);
    }
  }

  lemma {:induction false} ResultsGrowOn(window: nat, e: Engine, results: seq<Result>, k: nat, seen: set<Bytes>,
      prior: nat)
    requires Remembers(window, e) && Grows(e.results, e.order) && |results| == |e.order| && k <= |results|
    requires forall i | 0 <= i < |results| :: results[i] == e.results[e.order[i]]
    requires (k < |results| ==> prior < results[k].sequence) && forall id <- seen :: id in e.order[..k]
    ensures Snap.ResultsGrow(results[k..], seen, prior, e.sequence)
    decreases |results| - k
  {
    if k < |results| {
      assert ResultOk(e, e.order[k]);
      assert results[k..][1..] == results[k + 1..];
      assert e.order[k] !in e.order[..k];
      assert e.order[..k + 1] == e.order[..k] + [e.order[k]];
      ResultsGrowOn(window, e, results, k + 1, seen + {results[k].commandID}, results[k].sequence);
    }
  }

  lemma ImageIsOrdered(window: nat, e: Engine, ids: seq<AccountID>)
    requires Good(window, e) && forall id <- ids :: id in e.slots
    ensures Snap.ImageOrdered(ImageOf(window, e, ids))
  {
    var img := ImageOf(window, e, ids);
    if e.ledger != [] { assert e.ledger[0] in e.ledger; }
    LedgerGrows(e, 0, 0);
    assert e.ledger[0..] == e.ledger && img.results[0..] == img.results;
    if img.results != [] { assert ResultOk(e, e.order[0]); }
    ResultsGrowOn(window, e, img.results, 0, {}, 0);
  }
}
