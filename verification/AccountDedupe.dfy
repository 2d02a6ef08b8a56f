/** What the engine remembers of past commands: the results of the last `window` of them. */
module AccountDedupe {
  import opened Bytes
  import opened AccountEngine

  function LastN<T>(n: nat, s: seq<T>): seq<T>
  {
    if |s| <= n then s else s[|s| - n..]
  }

  // The remembered results are exactly those of the commands in the dedupe order, and carry their
  // own identities and sequence numbers.
  ghost predicate Remembers(window: nat, e: Engine)
  {
    && |e.order| <= window && Distinct(e.order)
    && (forall id <- e.order :: id in e.results)
    && (forall id <- e.results :: id in e.order && ResultOk(e, id))
  }

  predicate ResultOk(e: Engine, id: Bytes)
    requires id in e.results
  {
    var r := e.results[id];
    id != [] && r.commandID == id && 0 < r.sequence <= e.sequence && !r.duplicate
  }

  // Sequence numbers grow along the dedupe order.
  ghost predicate Grows(results: map<Bytes, Result>, order: seq<Bytes>)
  {
    && (forall id <- order :: id in results)
    && forall i, j | 0 <= i < j < |order| :: results[order[i]].sequence < results[order[j]].sequence
  }

  lemma ApplyRemembers(window: nat, e: Engine, r: Record)
    requires window > 0 && Remembers(window, e) && r.commandID !in e.results && r.commandID != []
             && r.sequence == e.sequence + 1
    ensures Remembers(window, Apply(window, e, r))
  {
    var e' := Apply(window, e, r);
    assert r.commandID !in e.order;
    var order := e.order + [r.commandID];
    assert e'.order == LastN(window, order);
    if |order| > window {
      assert order[0] == e.order[0] && order[0] !in e'.order;
    }
    forall id <- e'.results ensures id in e'.order && ResultOk(e', id) {
      if id != r.commandID { assert ResultOk(e, id); }
      InLast(window, order, id);
    }
    forall id <- e'.order ensures id in e'.results { assert id in order; }
  }

  lemma InLast(window: nat, order: seq<Bytes>, id: Bytes)
    requires id in order && |order| <= window + 1 && (|order| > window ==> id != order[0])
    ensures id in LastN(window, order)
  {
    var i :| 0 <= i < |order| && order[i] == id;
    if |order| > window { assert LastN(window, order)[i - 1] == id; }
  }

  lemma GrowsAppend(results: map<Bytes, Result>, order: seq<Bytes>, id: Bytes, r: Result)
    requires Grows(results, order) && id !in order && forall prior <- order :: results[prior].sequence < r.sequence
    ensures Grows(results[id := r], order + [id])
  {
    forall i | 0 <= i < |order| ensures order[i] in order && (order + [id])[i] == order[i] {}
  }

  lemma GrowsDrop(results: map<Bytes, Result>, order: seq<Bytes>)
    requires Grows(results, order) && order != [] && order[0] !in order[1..]
    ensures Grows(results - {order[0]}, order[1..])
  {}

  lemma ApplyGrows(window: nat, e: Engine, r: Record)
    requires window > 0 && Remembers(window, e) && Grows(e.results, e.order) && r.commandID !in e.results
             && r.sequence == e.sequence + 1
    ensures Grows(Apply(window, e, r).results, Apply(window, e, r).order)
  {
    assert forall id <- e.order :: id in e.results && ResultOk(e, id);
    GrowsAppend(e.results, e.order, r.commandID, ResultOf(r));
    var order := e.order + [r.commandID];
    if |order| > window { GrowsDrop(e.results[r.commandID := ResultOf(r)], order); }
  }

  function Ids(rs: seq<Record>): seq<Bytes>
  {
    seq(|rs|, i requires 0 <= i < |rs| => rs[i].commandID)
  }

  lemma LastNStep<T>(window: nat, s: seq<T>, x: T)
    requires window > 0
    ensures LastN(window, LastN(window, s) + [x]) == LastN(window, s + [x])
  {}

  lemma IdsSnoc(order: seq<Bytes>, rs: seq<Record>)
    requires rs != []
    ensures order + Ids(rs) == order + Ids(rs[..|rs| - 1]) + [rs[|rs| - 1].commandID]
  {}

  lemma RememberOrder(window: nat, e: Engine, r: Record)
    requires window > 0 && |e.order| <= window
    ensures Apply(window, e, r).order == LastN(window, e.order + [r.commandID])
  {}

  // After any records the dedupe order is the last `window` commands, oldest first.
  lemma {:induction false} OrderAfter(window: nat, e: Engine, rs: seq<Record>)
    requires window > 0 && |e.order| <= window
    ensures ApplyAll(window, e, rs).order == LastN(window, e.order + Ids(rs))
  {
    if rs == [] {
      assert e.order + Ids(rs) == e.order;
    } else {
      var front, r := rs[..|rs| - 1], rs[|rs| - 1];
      OrderAfter(window, e, front);
      IdsSnoc(e.order, rs);
      LastNStep(window, e.order + Ids(front), r.commandID);
      RememberOrder(window, ApplyAll(window, e, front), r);
    }
  }
}
