/**
 The fair dispatch policy twice: as the hand-written state machine, and as the generated controller
 with its utility site. With ages that are not negative they take the same action at every step.
 */
module FairPolicy {
  import opened Bytes
  import opened Utility

  const OLDEST := 0
  const HIGH_PRIORITY := 1
  const AGED := 2
  const BATCH := 3
  const WAIT := 4

  const HYSTERESIS := 25
  const MIN_COMMIT := 2

  // --------------------------------------------------------- choosing the candidates

  // A pending request that may be dispatched; ages are in nanoseconds.
  datatype Legal = Legal(index: nat, priority: int, batchCount: int, age: int, sequence: int)

  predicate Higher(a: Legal, b: Legal)
  {
    a.priority > b.priority
        || (a.priority == b.priority && (a.age > b.age || (a.age == b.age && a.sequence < b.sequence)))
  }

  predicate Fuller(a: Legal, b: Legal)
  {
    a.batchCount > b.batchCount || (a.batchCount == b.batchCount && a.age > b.age)
  }

  predicate Older(a: Legal, b: Legal)
  {
    a.age > b.age || (a.age == b.age && a.sequence < b.sequence)
  }

  // One pass over the legal requests finds the highest, the fullest batch and the most starved.
  method Survey(legal: seq<Legal>, threshold: int) returns (high: Legal, batch: Option<Legal>, aged: Option<Legal>)
    requires legal != []
    ensures high in legal && forall c <- legal :: !Higher(c, high)
    ensures batch.None? <==> forall c <- legal :: c.batchCount <= 1
    ensures batch.Some? ==>
              batch.value in legal && batch.value.batchCount > 1 && forall c <- legal | c.batchCount > 1 ::
                !Fuller(c, batch.value)
    ensures aged.None? <==> forall c <- legal :: c.age < threshold
    ensures aged.Some? ==> aged.value in legal && aged.value.age >= threshold && forall c <- legal ::
              !Older(c, aged.value)
  {
    high, batch, aged := legal[0], None, None;
    for i := 0 to |legal|
      invariant high in legal && forall j | 0 <= j < i :: !Higher(legal[j], high)
      invariant batch.None? <==> forall j | 0 <= j < i :: legal[j].batchCount <= 1
      invariant batch.Some? ==> batch.value in legal && batch.value.batchCount > 1
      invariant batch.Some? ==> forall j | 0 <= j < i && legal[j].batchCount > 1 :: !Fuller(legal[j], batch.value)
      invariant aged.None? <==> forall j | 0 <= j < i :: legal[j].age < threshold
      invariant aged.Some? ==> aged.value in legal && aged.value.age >= threshold
      invariant aged.Some? ==> forall j | 0 <= j < i :: !Older(legal[j], aged.value)
    {
      var c := legal[i];
      if Higher(c, high) { high := c; }
      if c.batchCount > 1 && (batch.None? || Fuller(c, batch.value)) { batch := Some(c); }
      if c.age >= threshold && (aged.None? || Older(c, aged.value)) { aged := Some(c); }
    }
  }

  // ------------------------------------------------------------------------- scores

  // Hundreds of microseconds, truncated toward zero, at most 100.
  function AgeUnits(age: int): int
  {
    var units := if age >= 0 then age / 100_000 else -((-age) / 100_000);
    if units > 100 then 100 else units
  }

  // What one decision sees. `batch` is the size of the fullest batch, if there is one.
  datatype View = View(oldestAge: int, highAge: int, batch: Option<int>, aged: bool)

  function OldestScore(v: View): int { 100 + AgeUnits(v.oldestAge) }

  function HighScore(v: View): int { 300 + AgeUnits(v.highAge) }

  function BatchScore(v: View): int { if v.batch.Some? then 200 + 25 * v.batch.value else 0 }

  // The best action by score alone, as the hand-written code finds it.
  function Raw(v: View): (int, int)
  {
    var first := if HighScore(v) > OldestScore(v) then (HIGH_PRIORITY, HighScore(v)) else (OLDEST, OldestScore(v));
    if v.batch.Some? && BatchScore(v) > first.1 then (BATCH, BatchScore(v)) else first
  }

  predicate Eligible(v: View, action: int)
  {
    action == OLDEST || action == HIGH_PRIORITY || (action == BATCH && v.batch.Some?)
  }

  // ---------------------------------------------------------------- the two controllers

  // One decision of the hand-written policy.
  function PolicyStep(site: Site<int>, v: View): (int, Site<int>)
  {
    if v.aged then (AGED, site)
    else
      var (action, score) := Raw(v);
      var held := site.Holding? && Eligible(v, site.value)
          && (site.age < MIN_COMMIT || score <= site.score + HYSTERESIS);
      var (chosen, at) := if held then (site.value, site.score) else (action, score);
      (chosen, if site.Holding? && chosen == site.value then Holding(site.value, at, site.age + 1)
          else Holding(chosen, at, 1))
  }

  class ConventionalPolicy {
    var hasCurrent: bool
    var current: int
    var score: int
    var commitAge: int

    function State(): Site<int>
      reads this
    {
      if hasCurrent then Holding(current, score, commitAge) else Unset
    }

    constructor ()
      ensures State() == Unset
    {
      hasCurrent, current, score, commitAge := false, 0, 0, 0;
    }

    method SelectAction(v: View) returns (chosen: int)
      modifies this
      ensures (chosen, State()) == PolicyStep(old(State()), v)
    {
      if v.aged {
        return AGED;
      }
      var raw := Raw(v);
      chosen := raw.0;
      var at := raw.1;
      if hasCurrent && Eligible(v, current) && (commitAge < MIN_COMMIT || raw.1 <= score + HYSTERESIS) {
        chosen, at := current, score;
      }
      if !hasCurrent || chosen != current {
        current, score, commitAge, hasCurrent := chosen, at, 1, true;
      } else {
        score, commitAge := at, commitAge + 1;
      }
    }
  }

  function Offers(v: View): seq<Candidate<int>>
  {
    [Candidate(true, HIGH_PRIORITY, HighScore(v)), Candidate(v.batch.Some?, BATCH, BatchScore(v)),
        Candidate(true, OLDEST, OldestScore(v))]
  }

  // One decision of the generated controller.
  function ControllerStep(site: Site<int>, v: View): (int, Site<int>)
  {
    if v.aged then (AGED, site) else Choose(site, HYSTERESIS, MIN_COMMIT, Offers(v), WAIT)
  }

  // The generated controller suspends behind its third instruction and resumes at its first.
  class FairController {
    var started: bool
    var instruction: nat
    var chosen: int
    var decisions: nat
    var site: Site<int>

    ghost predicate Suspended()
      reads this
    {
      (!started && instruction == 0) || (started && instruction == 3)
    }

    constructor ()
      ensures Suspended() && site == Unset && decisions == 0
    {
      started, instruction, chosen, decisions, site := false, 0, 0, 0, Unset;
    }

    method Step(v: View)
      requires Suspended()
      modifies this
      ensures Suspended() && (chosen, site) == ControllerStep(old(site), v) && decisions == old(decisions) + 1
    {
      if !started {
        started, instruction := true, 0;
      }
      while true
        invariant started && instruction <= 3
        invariant instruction == 0 || instruction == 3 ==> site == old(site) && decisions == old(decisions)
        invariant instruction == 1 || instruction == 2 ==> (chosen, site) == ControllerStep(old(site), v)
        invariant instruction == 1 ==> decisions == old(decisions)
        invariant instruction == 2 ==> decisions == old(decisions) + 1
        decreases if instruction == 3 then 4 else 3 - instruction
      {
        match instruction {
          case 0 =>
            if v.aged {
              chosen := AGED;
            } else {
              chosen, site := SelectScalar(site, HYSTERESIS, MIN_COMMIT, Offers(v), WAIT);
            }
            instruction := 1;
          case 1 =>
            decisions := decisions + 1;
            instruction := 2;
          case 2 =>
            instruction := 3;
            return;
          case _ =>
            instruction := 0;
        }
      }
    }
  }

  // ------------------------------------------------------------------- they agree

  // The oldest request and another candidate share the best score.
  predicate TiedOldest(v: View)
  {
    && OldestScore(v) >= HighScore(v) && (v.batch.Some? ==> OldestScore(v) >= BatchScore(v))
    && (OldestScore(v) == HighScore(v) || (v.batch.Some? && OldestScore(v) == BatchScore(v)))
  }

  function BestIndex(v: View): nat
  {
    var batchBest := v.batch.Some? && BatchScore(v) > HighScore(v);
    var top := if batchBest then BatchScore(v) else HighScore(v);
    if OldestScore(v) > top then 2 else if batchBest then 1 else 0
  }

  lemma BestOffer(v: View)
    ensures Best(Offers(v), WAIT) == Offers(v)[BestIndex(v)] && Offers(v)[BestIndex(v)].valid
  {
    TopOf(Offers(v), BestIndex(v));
  }

  // The scan of the generated code and the comparisons of the hand-written code find the same best
  // action exactly when the oldest request is not tied with another for the best score.
  lemma RawIsBestIff(v: View)
    ensures var best := Best(Offers(v), WAIT); (best.value, best.score) == Raw(v) <==> !TiedOldest(v)
  {
    BestOffer(v);
  }

  lemma OfferedIff(v: View, action: int)
    ensures Offered(Offers(v), action) <==> Eligible(v, action)
  {
    assert Offers(v)[0] in Offers(v) && Offers(v)[1] in Offers(v) && Offers(v)[2] in Offers(v);
  }

  // The current action is still offered, and too young or too good to be given up.
  predicate StaysHeld(site: Site<int>, v: View)
  {
    site.Holding? && Eligible(v, site.value) && (site.age < MIN_COMMIT || Raw(v).1 <= site.score + HYSTERESIS)
  }

  // One decision of the two agrees exactly when something is starving, the current action is held
  // anyway, or the oldest request is not tied with another for the best score.
  lemma StepsAgreeIff(site: Site<int>, v: View)
    ensures ControllerStep(site, v) == PolicyStep(site, v) <==> v.aged || StaysHeld(site, v) || !TiedOldest(v)
  {
    RawIsBestIff(v);
    BestOffer(v);
    if site.Holding? { OfferedIff(v, site.value); }
  }

  // Scores of ages that are not negative never tie the oldest request with the high-priority one.
  lemma NoTieWithoutNegativeAges(v: View)
    requires v.oldestAge >= 0 && v.highAge >= 0
    ensures !TiedOldest(v)
  {}

  function PolicyRun(views: seq<View>): (seq<int>, Site<int>)
  {
    if views == [] then ([], Unset)
    else
      var (actions, site) := PolicyRun(views[..|views| - 1]);
      var (action, next) := PolicyStep(site, views[|views| - 1]);
      (actions + [action], next)
  }

  function ControllerRun(views: seq<View>): (seq<int>, Site<int>)
  {
    if views == [] then ([], Unset)
    else
      var (actions, site) := ControllerRun(views[..|views| - 1]);
      var (action, next) := ControllerStep(site, views[|views| - 1]);
      (actions + [action], next)
  }

  // With ages that are not negative, the two take the same action at every step of every run, and
  // hold the same current action, score and commitment age.
  lemma {:induction false} RunsAgree(views: seq<View>)
    requires forall v <- views :: v.oldestAge >= 0 && v.highAge >= 0
    ensures ControllerRun(views) == PolicyRun(views)
  {
    if views != [] {
      assert views[|views| - 1] in views && forall v <- views[..|views| - 1] :: v in views;
      RunsAgree(views[..|views| - 1]);
      NoTieWithoutNegativeAges(views[|views| - 1]);
      StepsAgreeIff(PolicyRun(views[..|views| - 1]).1, views[|views| - 1]);
    }
  }
}
