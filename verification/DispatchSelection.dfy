/**
 Which pending request the dispatcher takes next: the requests that may be dispatched at all, what
 the policies see of them, and the request behind the action they choose.
 */
module DispatchSelection {
  import opened Bytes
  import opened Utility
  import opened Dispatcher
  import opened FairPolicy

  // How long each pending request has waited, in nanoseconds, and how the dispatcher is set up.
  datatype Clock = Clock(ages: seq<int>, batchWait: int, maxBatch: int)

  // Writes go before reads.
  function Priority(kind: nat): int { if kind == ORDER_WRITE || kind == INVENTORY_WRITE then 1 else 0 }

  // ------------------------------------------------------------------- legal requests

  function Peers(rs: seq<Req>, kind: nat): nat
  {
    if rs == [] then 0 else Peers(rs[..|rs| - 1], kind) + if Compatible(kind, rs[|rs| - 1].op.kind) then 1 else 0
  }

  // The size of the batch that a read could go out in.
  function BatchCount(rs: seq<Req>, i: nat): int
    requires i < |rs|
  {
    if rs[i].op.kind <= RANGE_READ then 1 + Peers(Without(rs, i), rs[i].op.kind) else 1
  }

  // A read waits for company until its batch is full or its time is up; a write waits for its token.
  predicate Dispatchable(s: Sys, t: Clock, i: nat)
    requires i < |s.pending| == |t.ages|
  {
    && !Blocked(s, s.pending[i])
    && (s.pending[i].op.kind <= RANGE_READ ==> BatchCount(s.pending, i) >= t.maxBatch || t.ages[i] >= t.batchWait)
  }

  function CandidateAt(s: Sys, t: Clock, i: nat): Legal
    requires i < |s.pending| == |t.ages|
  {
    Legal(i, Priority(s.pending[i].op.kind), BatchCount(s.pending, i), t.ages[i], s.pending[i].op.sequence)
  }

  // The candidates among the first `n` pending requests, in their order.
  function Candidates(s: Sys, t: Clock, n: nat): seq<Legal>
    requires n <= |s.pending| == |t.ages|
  {
    if n == 0 then [] else Candidates(s, t, n - 1) + if Dispatchable(s, t, n - 1) then [CandidateAt(s, t, n - 1)]
        else []
  }

  lemma {:induction false} PeersWithout(rs: seq<Req>, i: nat, kind: nat)
    requires i < |rs|
    ensures Peers(rs, kind) == Peers(Without(rs, i), kind) + if Compatible(kind, rs[i].op.kind) then 1 else 0
    decreases |rs|
  {
    var n := |rs| - 1;
    if i < n {
      PeersWithout(rs[..n], i, kind);
      assert Without(rs, i)[..n - 1] == Without(rs[..n], i);
    } else {
      assert Without(rs, i) == rs[..n];
    }
  }

  // The inner loop: the requests beside number `i` that a batch of its kind could take along.
  method CountBatch(rs: seq<Req>, i: nat) returns (count: int)
    requires i < |rs|
    ensures count == BatchCount(rs, i)
  {
    count := 1;
    if rs[i].op.kind <= RANGE_READ {
      var kind := rs[i].op.kind;
      for j := 0 to |rs|
        invariant count == 1 + Peers(rs[..j], kind) - (if j > i then 1 else 0)
      {
        assert rs[..j + 1][..j] == rs[..j];
        if i != j && Compatible(kind, rs[j].op.kind) {
          count := count + 1;
        }
      }
      assert rs[..|rs|] == rs;
      PeersWithout(rs, i, kind);
    }
  }

  method LegalRequests(s: Sys, t: Clock) returns (legal: seq<Legal>)
    requires |s.pending| == |t.ages|
    ensures legal == Candidates(s, t, |s.pending|)
  {
    legal := [];
    for i := 0 to |s.pending|
      invariant legal == Candidates(s, t, i)
    {
      var r := s.pending[i];
      if !Blocked(s, r) {
        var count := CountBatch(s.pending, i);
        if !(r.op.kind <= RANGE_READ && count < t.maxBatch && t.ages[i] < t.batchWait) {
          legal := legal + [Legal(i, Priority(r.op.kind), count, t.ages[i], r.op.sequence)];
        }
      }
    }
  }

  // The candidates are the dispatchable requests, each once and in the order of the pending list.
  lemma {:induction false} CandidatesAre(s: Sys, t: Clock, n: nat)
    requires n <= |s.pending| == |t.ages|
    ensures forall c <- Candidates(s, t, n) ::
              c.index < n && Dispatchable(s, t, c.index) && c == CandidateAt(s, t, c.index)
    ensures forall i: nat | i < n && Dispatchable(s, t, i) :: CandidateAt(s, t, i) in Candidates(s, t, n)
  {
    if n > 0 { CandidatesAre(s, t, n - 1); }
  }

  lemma {:induction false} CandidatesOrdered(s: Sys, t: Clock, n: nat, i: nat, j: nat)
    requires n <= |s.pending| == |t.ages| && i < j < |Candidates(s, t, n)|
    ensures Candidates(s, t, n)[i].index < Candidates(s, t, n)[j].index
  {
    var front := Candidates(s, t, n - 1);
    if j < |front| {
      CandidatesOrdered(s, t, n - 1, i, j);
    } else {
      CandidatesAre(s, t, n - 1);
      assert front[i] in front;
    }
  }

  /** In every reachable state the first candidate is the oldest one: no request that may be dispatched
      now has a smaller sequence number. */
  lemma FirstLegalIsOldest(l: Limits, es: seq<Event>, t: Clock, i: nat)
    requires var s := Run(l, es); |s.pending| == |t.ages| && i < |s.pending| && Dispatchable(s, t, i)
    ensures var s := Run(l, es); var cs := Candidates(s, t, |s.pending|);
            cs != [] && cs[0].index < |s.pending| && Dispatchable(s, t, cs[0].index)
                && cs[0].sequence <= s.pending[i].op.sequence
  {
    RunKeepsInvariant(l, es);
    OldestFirst(Run(l, es), t, i);
  }

  lemma OldestFirst(s: Sys, t: Clock, i: nat)
    requires Dispatcher.Sorted(s.pending) && |s.pending| == |t.ages| && i < |s.pending| && Dispatchable(s, t, i)
    ensures var cs := Candidates(s, t, |s.pending|);
            cs != [] && cs[0].index < |s.pending| && Dispatchable(s, t, cs[0].index)
                && cs[0].sequence <= s.pending[i].op.sequence
  {
    var cs := Candidates(s, t, |s.pending|);
    CandidatesAre(s, t, |s.pending|);
    assert CandidateAt(s, t, i) in cs;
    var k :| 0 <= k < |cs| && cs[k] == CandidateAt(s, t, i);
    assert cs[0] in cs;
    if k > 0 { CandidatesOrdered(s, t, |s.pending|, 0, k); }
  }

  // ----------------------------------------------------------------- what a policy sees

  const MILLISECOND := 1_000_000

  function Starving(t: Clock): int { if 5 * t.batchWait < 5 * MILLISECOND then 5 * MILLISECOND else 5 * t.batchWait }

  // The highest request, the fullest batch and the most starved request of a list.
  ghost predicate Surveyed(legal: seq<Legal>, threshold: int, high: Legal, batch: Option<Legal>, aged: Option<Legal>)
  {
    && high in legal && (forall c <- legal :: !Higher(c, high))
    && (batch.None? <==> forall c <- legal :: c.batchCount <= 1)
    && (batch.Some? ==> batch.value in legal && batch.value.batchCount > 1 && forall c <- legal | c.batchCount > 1 ::
         !Fuller(c, batch.value))
    && (aged.None? <==> forall c <- legal :: c.age < threshold)
    && (aged.Some? ==> aged.value in legal && aged.value.age >= threshold && forall c <- legal :: !Older(c, aged.value))
  }

  function ViewOf(legal: seq<Legal>, high: Legal, batch: Option<Legal>, aged: Option<Legal>): View
    requires legal != []
  {
    View(legal[0].age, high.age, if batch.Some? then Some(batch.value.batchCount) else None, aged.Some?)
  }

  // The request that stands for an action.
  function Behind(legal: seq<Legal>, high: Legal, batch: Option<Legal>, aged: Option<Legal>, action: int): Option<Legal>
    requires legal != []
  {
    if action == HIGH_PRIORITY then Some(high)
    else if action == AGED then aged
    else if action == BATCH then batch
    else if action == WAIT then None
    else Some(legal[0])
  }

  lemma PolicyActs(site: Site<int>, v: View)
    ensures var action := PolicyStep(site, v).0;
            (action == AGED <==> v.aged) && (action != AGED ==> Eligible(v, action))
  {}

  lemma ControllerActs(site: Site<int>, v: View)
    ensures var action := ControllerStep(site, v).0;
            (action == AGED <==> v.aged) && (action != AGED ==> Eligible(v, action))
  {
    BestOffer(v);
    if site.Holding? { OfferedIff(v, site.value); }
    OfferedIff(v, Offers(v)[BestIndex(v)].value);
  }

  // Nothing is taken only if nothing may be dispatched, and a starving request is taken first, the
  // most starved.
  ghost predicate Serves(s: Sys, t: Clock, chosen: Option<nat>)
    requires |s.pending| == |t.ages|
  {
    && (chosen.None? <==> forall i: nat | i < |s.pending| :: !Dispatchable(s, t, i))
    && (chosen.Some? ==> chosen.value < |s.pending| && Dispatchable(s, t, chosen.value))
    && (chosen.Some? && (exists i: nat :: i < |s.pending| && Dispatchable(s, t, i) && t.ages[i] >= Starving(t)) ==>
          forall i: nat | i < |s.pending| && Dispatchable(s, t, i) ::
            !Older(CandidateAt(s, t, i), CandidateAt(s, t, chosen.value)))
  }

  // The request behind the action chosen from what a survey of the legal requests shows.
  ghost predicate TakenBy(step: (Site<int>, View) -> (int, Site<int>), s: Sys, t: Clock, was: Site<int>,
      now: Site<int>, chosen: nat)
    requires chosen < |s.pending| == |t.ages|
  {
    exists high, batch, aged ::
      var legal := Candidates(s, t, |s.pending|);
      && legal != [] && Surveyed(legal, Starving(t), high, batch, aged)
      && var (action, site) := step(was, ViewOf(legal, high, batch, aged));
         site == now && Behind(legal, high, batch, aged, action) == Some(CandidateAt(s, t, chosen))
  }

  // Any policy that serves the starving and otherwise acts on an eligible action serves the requests.
  lemma ActionServes(s: Sys, t: Clock, high: Legal, batch: Option<Legal>, aged: Option<Legal>, action: int)
    requires |s.pending| == |t.ages| && Candidates(s, t, |s.pending|) != []
    requires var legal := Candidates(s, t, |s.pending|);
             && Surveyed(legal, Starving(t), high, batch, aged)
             && (action == AGED <==> aged.Some?)
             && (action != AGED ==> Eligible(ViewOf(legal, high, batch, aged), action))
    ensures var legal := Candidates(s, t, |s.pending|);
            var selected := Behind(legal, high, batch, aged, action);
            && selected.Some? && selected.value in legal && selected.value.index < |s.pending|
            && CandidateAt(s, t, selected.value.index) == selected.value
            && Serves(s, t, Some(selected.value.index))
  {
    var legal := Candidates(s, t, |s.pending|);
    CandidatesAre(s, t, |s.pending|);
    assert legal[0] in legal;
    var selected := Behind(legal, high, batch, aged, action);
    assert selected.Some? && selected.value in legal;
  }

  lemma Took(step: (Site<int>, View) -> (int, Site<int>), s: Sys, t: Clock, was: Site<int>, now: Site<int>,
      high: Legal, batch: Option<Legal>, aged: Option<Legal>, chosen: nat)
    requires chosen < |s.pending| == |t.ages| && Candidates(s, t, |s.pending|) != []
    requires var legal := Candidates(s, t, |s.pending|);
             && Surveyed(legal, Starving(t), high, batch, aged)
             && var (action, site) := step(was, ViewOf(legal, high, batch, aged));
                site == now && Behind(legal, high, batch, aged, action) == Some(CandidateAt(s, t, chosen))
    ensures TakenBy(step, s, t, was, now, chosen)
  {}

  /** One selection by the hand-written policy. It takes nothing only if nothing may be dispatched; else
      a starving request if there is one, the most starved; and otherwise one of the three others. */
  method SelectRequest(s: Sys, t: Clock, policy: ConventionalPolicy) returns (chosen: Option<nat>)
    requires |s.pending| == |t.ages|
    modifies policy
    ensures Serves(s, t, chosen)
    ensures chosen.None? ==> unchanged(policy)
    ensures chosen.Some? ==> TakenBy(PolicyStep, s, t, old(policy.State()), policy.State(), chosen.value)
  {
    var legal := LegalRequests(s, t);
    CandidatesAre(s, t, |s.pending|);
    if legal == [] {
      return None;
    }
    var high, batch, aged := Survey(legal, Starving(t));
    var v := ViewOf(legal, high, batch, aged);
    PolicyActs(policy.State(), v);
    ghost var was := policy.State();
    var action := policy.SelectAction(v);
    ActionServes(s, t, high, batch, aged, action);
    var selected := Behind(legal, high, batch, aged, action);
    chosen := Some(selected.value.index);
    Took(PolicyStep, s, t, was, policy.State(), high, batch, aged, chosen.value);
  }

  /** One selection by the generated controller, which serves the requests as well. */
  method SelectByController(s: Sys, t: Clock, controller: FairController) returns (chosen: Option<nat>)
    requires |s.pending| == |t.ages| && controller.Suspended()
    modifies controller
    ensures controller.Suspended() && Serves(s, t, chosen)
    ensures chosen.None? ==> unchanged(controller)
    ensures chosen.Some? ==> controller.decisions == old(controller.decisions) + 1
                             && TakenBy(ControllerStep, s, t, old(controller.site), controller.site, chosen.value)
  {
    var legal := LegalRequests(s, t);
    CandidatesAre(s, t, |s.pending|);
    if legal == [] {
      return None;
    }
    var high, batch, aged := Survey(legal, Starving(t));
    var v := ViewOf(legal, high, batch, aged);
    ControllerActs(controller.site, v);
    ghost var was := controller.site;
    controller.Step(v);
    ActionServes(s, t, high, batch, aged, controller.chosen);
    var selected := Behind(legal, high, batch, aged, controller.chosen);
    chosen := Some(selected.value.index);
    Took(ControllerStep, s, t, was, controller.site, high, batch, aged, chosen.value);
  }

  // -------------------------------------------------------------- the policies agree on it

  // What the policies see of lists whose requests have not been queued in the future.
  ghost predicate SeenOf(v: View)
  {
    exists legal: seq<Legal>, threshold, high, batch, aged ::
      && legal != [] && (forall c <- legal :: c.age >= 0) && Surveyed(legal, threshold, high, batch, aged)
      && v == ViewOf(legal, high, batch, aged)
  }

  /** Over every run of selections from requests that were queued before they are looked at, the two
      policies choose the same action, and so dispatch the same request. */
  lemma SelectionsAgree(views: seq<View>)
    requires forall v <- views :: SeenOf(v)
    ensures ControllerRun(views) == PolicyRun(views)
  {
    forall v <- views ensures v.oldestAge >= 0 && v.highAge >= 0 {
      var legal: seq<Legal>, threshold, high, batch, aged :|
        && legal != [] && (forall c <- legal :: c.age >= 0) && Surveyed(legal, threshold, high, batch, aged)
        && v == ViewOf(legal, high, batch, aged);
      assert legal[0] in legal;
    }
    RunsAgree(views);
  }

  // A read that has waited its millisecond, and a write queued 19 ms after the time that the
  // dispatcher was woken with.
  const READ_AND_WRITE :=
      Sys(2, [], [], [Req(0, Op(POINT_READ, 0, 7, 1)), Req(1, Op(INVENTORY_WRITE, 0, 7, 2))], map[], 0, 1, [], [], [],
      0, multiset{})

  const LATE := Clock([MILLISECOND, -19 * MILLISECOND], MILLISECOND, 8)

  /** There the policies part: the generated one takes the write and the hand-written one the read. */
  lemma TieExample(high: Legal, batch: Option<Legal>, aged: Option<Legal>)
    requires var legal := Candidates(READ_AND_WRITE, LATE, 2);
             legal != [] && Surveyed(legal, Starving(LATE), high, batch, aged)
    ensures var legal := Candidates(READ_AND_WRITE, LATE, 2);
            var v := ViewOf(legal, high, batch, aged);
            && Behind(legal, high, batch, aged, ControllerStep(Unset, v).0)
               == Some(CandidateAt(READ_AND_WRITE, LATE, 1))
            && Behind(legal, high, batch, aged, PolicyStep(Unset, v).0) == Some(CandidateAt(READ_AND_WRITE, LATE, 0))
  {
    var s, t := READ_AND_WRITE, LATE;
    var a, b := CandidateAt(s, t, 0), CandidateAt(s, t, 1);
    assert Dispatchable(s, t, 0) && Dispatchable(s, t, 1);
    assert Without(s.pending, 0) == [s.pending[1]];
    assert Peers([s.pending[1]], POINT_READ) == Peers([], POINT_READ) == 0 by { assert [s.pending[1]][..0] == []; }
    assert Candidates(s, t, 1) == [a];
    var legal := Candidates(s, t, 2);
    assert legal == [a, b];
    assert Higher(b, a) && high == b;
    assert batch.None? && aged.None?;
    BestOffer(ViewOf(legal, high, batch, aged));
  }
}
