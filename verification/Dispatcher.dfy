/**
 The conflict-aware dispatcher: admission by a counter, a bounded input channel, one dispatcher that
 owns the pending list and the conflict tokens, workers that take jobs from one bounded channel and
 report on another. Every interleaving of their steps, while the scheduler is open, is a run.
 */
module Dispatcher {
  import opened Bytes

  const POINT_READ := 0
  const RANGE_READ := 1
  const ORDER_WRITE := 2
  const INVENTORY_WRITE := 3

  datatype Token = Orders(customer: int) | Inventory(product: int)

  datatype Op = Op(kind: nat, customer: int, product: int, sequence: int)

  // A write owns exactly one token; reads own none.
  function TokenOf(op: Op): Option<Token>
  {
    if op.kind == ORDER_WRITE then Some(Orders(op.customer))
    else if op.kind == INVENTORY_WRITE then Some(Inventory(op.product))
    else None
  }

  predicate Compatible(left: nat, right: nat) { left == right && left <= RANGE_READ }

  type Id = nat

  datatype Req = Req(id: Id, op: Op)

  // What a worker executes: a request, and for a read the compatible ones that joined it.
  datatype Job = Job(first: Req, rest: seq<Req>)

  datatype Limits = Limits(capacity: nat, workers: nat, maxBatch: nat)

  datatype Sys = Sys(used: int, submitting: seq<Req>, input: seq<Req>, pending: seq<Req>, owned: map<Token, Id>,
      active: int,
                     exposure: nat, jobs: seq<Job>, running: seq<Job>, completions: seq<Job>, doubleReleases: nat,
                         answered: multiset<Id>)

  datatype Event =
    | Admit(req: Req)
    | Abandon(i: nat)
    | Enqueue(i: nat)
    | Arrive
    | Dispatch(i: nat)
    | TakeJob
    | Finish(i: nat)
    | Complete
    | Tick(exposure: nat)

  function Created(l: Limits): Sys
  {
    Sys(0, [], [], [], map[], 0, l.workers, [], [], [], 0, multiset{})
  }

  // --------------------------------------------------------------- requests in their stages

  function Ids(rs: seq<Req>): multiset<Id>
  {
    if rs == [] then multiset{} else Ids(rs[..|rs| - 1]) + multiset{rs[|rs| - 1].id}
  }

  function JobIds(j: Job): multiset<Id> { multiset{j.first.id} + Ids(j.rest) }

  function FlightIds(js: seq<Job>): multiset<Id>
  {
    if js == [] then multiset{} else FlightIds(js[..|js| - 1]) + JobIds(js[|js| - 1])
  }

  // All requests that are admitted and not yet answered.
  function Bag(s: Sys): multiset<Id>
  {
    Ids(s.submitting) + Ids(s.input) + Ids(s.pending) + FlightIds(s.jobs) + FlightIds(s.running)
        + FlightIds(s.completions)
  }

  function Flights(s: Sys): seq<Job> { s.jobs + s.running + s.completions }

  // ------------------------------------------------------------------------------ steps

  function Without<T>(s: seq<T>, i: nat): seq<T>
    requires i < |s|
  {
    s[..i] + s[i + 1..]
  }

  // Insertion that keeps the list sorted by sequence number, after equal ones.
  function Insert(rs: seq<Req>, r: Req): seq<Req>
  {
    if rs == [] || rs[|rs| - 1].op.sequence <= r.op.sequence then rs + [r]
        else Insert(rs[..|rs| - 1], r) + [rs[|rs| - 1]]
  }

  predicate Blocked(s: Sys, r: Req)
  {
    TokenOf(r.op).Some? && TokenOf(r.op).value in s.owned
  }

  datatype Split = Split(group: seq<Req>, left: seq<Req>)

  // The first compatible requests, up to `n` of them, leave the pending list in order.
  function Gather(rs: seq<Req>, kind: nat, n: nat): Split
  {
    if rs == [] then Split([], [])
    else
      var front, r := Gather(rs[..|rs| - 1], kind, n), rs[|rs| - 1];
      if |front.group| < n && Compatible(kind, r.op.kind) then Split(front.group + [r], front.left)
          else Split(front.group, front.left + [r])
  }

  function JobOf(l: Limits, s: Sys, i: nat): (Job, seq<Req>)
    requires i < |s.pending|
  {
    var first, others := s.pending[i], Without(s.pending, i);
    if first.op.kind <= RANGE_READ && l.maxBatch > 0 then
      var split := Gather(others, first.op.kind, l.maxBatch - 1);
      (Job(first, split.group), split.left)
    else (Job(first, []), others)
  }

  function Own(owned: map<Token, Id>, r: Req): map<Token, Id>
  {
    if TokenOf(r.op).Some? then owned[TokenOf(r.op).value := r.id] else owned
  }

  datatype Released = Released(owned: map<Token, Id>, doubles: nat)

  function Release(x: Released, r: Req): Released
  {
    var t := TokenOf(r.op);
    if t.None? then x
    else if t.value in x.owned && x.owned[t.value] == r.id then x.(owned := x.owned - {t.value})
    else x.(doubles := x.doubles + 1)
  }

  function ReleaseAll(x: Released, rs: seq<Req>): Released
  {
    if rs == [] then x else Release(ReleaseAll(x, rs[..|rs| - 1]), rs[|rs| - 1])
  }

  predicate Enabled(l: Limits, s: Sys, e: Event)
  {
    match e
    case Admit(req) => s.used < l.capacity && req.id !in Bag(s) && req.id !in s.answered
    case Abandon(i) => i < |s.submitting|
    case Enqueue(i) => i < |s.submitting| && |s.input| < l.capacity
    case Arrive => s.input != []
    case Dispatch(i) => s.active < s.exposure && i < |s.pending| && !Blocked(s, s.pending[i])
    case TakeJob => s.jobs != [] && |s.running| < l.workers
    case Finish(i) => i < |s.running| && |s.completions| < l.workers
    case Complete => s.completions != []
    case Tick(n) => n <= l.workers
  }

  function Do(l: Limits, s: Sys, e: Event): Sys
    requires Enabled(l, s, e)
  {
    match e
    case Admit(req) => s.(used := s.used + 1, submitting := s.submitting + [req])
    case Abandon(i) => s.(used := s.used - 1, submitting := Without(s.submitting, i))
    case Enqueue(i) => s.(submitting := Without(s.submitting, i), input := s.input + [s.submitting[i]])
    case Arrive => s.(input := s.input[1..], pending := Insert(s.pending, s.input[0]))
    case Dispatch(i) =>
      var (job, left) := JobOf(l, s, i);
      s.(pending := left, owned := Own(s.owned, job.first), active := s.active + 1, jobs := s.jobs + [job])
    case TakeJob => s.(jobs := s.jobs[1..], running := s.running + [s.jobs[0]])
    case Finish(i) => s.(running := Without(s.running, i), completions := s.completions + [s.running[i]])
    case Complete =>
      var job := s.completions[0];
      var x := ReleaseAll(Released(s.owned, s.doubleReleases), [job.first] + job.rest);
      s.(completions := s.completions[1..], active := s.active - 1, owned := x.owned, doubleReleases := x.doubles,
         answered := s.answered + JobIds(job), used := s.used - (1 + |job.rest|))
    case Tick(n) => s.(exposure := n)
  }

  function Run(l: Limits, es: seq<Event>): Sys
  {
    if es == [] then Created(l)
    else var s := Run(l, es[..|es| - 1]); if Enabled(l, s, es[|es| - 1]) then Do(l, s, es[|es| - 1]) else s
  }

  // ---------------------------------------------------------------------- invariant

  ghost predicate Counted(l: Limits, s: Sys)
  {
    && s.used == |Bag(s)| && s.used <= l.capacity
    && forall id :: (Bag(s) + s.answered)[id] <= 1
  }

  ghost predicate Bounded(l: Limits, s: Sys)
  {
    s.active == |s.jobs| + |s.running| + |s.completions| && s.active <= l.workers && s.exposure <= l.workers
  }

  predicate ReadsOnly(rs: seq<Req>) { forall r <- rs :: TokenOf(r.op).None? }

  // A job in flight owns its token, and only jobs in flight own tokens.
  ghost predicate Owned(s: Sys)
  {
    && s.doubleReleases == 0
    && (forall j <- Flights(s) :: ReadsOnly(j.rest))
    && (forall j <- Flights(s) | TokenOf(j.first.op).Some? ::
         TokenOf(j.first.op).value in s.owned && s.owned[TokenOf(j.first.op).value] == j.first.id)
    && (forall t <- s.owned :: exists j <- Flights(s) :: TokenOf(j.first.op) == Some(t))
  }

  ghost predicate Sorted(rs: seq<Req>)
  {
    forall i, j | 0 <= i < j < |rs| :: rs[i].op.sequence <= rs[j].op.sequence
  }

  ghost predicate Invariant(l: Limits, s: Sys)
  {
    Counted(l, s) && Bounded(l, s) && Owned(s) && Sorted(s.pending)
  }

  // ------------------------------------------------------------ moving requests about

  lemma {:induction false} IdsAppend(a: seq<Req>, b: seq<Req>)
    ensures Ids(a + b) == Ids(a) + Ids(b)
  {
    if b == [] {
      assert a + b == a;
    } else {
      assert (a + b)[..|a + b| - 1] == a + b[..|b| - 1];
      IdsAppend(a, b[..|b| - 1]);
    }
  }

  lemma IdsSnoc(rs: seq<Req>, r: Req)
    ensures Ids(rs + [r]) == Ids(rs) + multiset{r.id}
  {
    assert (rs + [r])[..|rs|] == rs;
  }

  lemma Swap<T>(a: multiset<T>, b: multiset<T>, c: multiset<T>)
    ensures a + b + c == a + c + b
  {}

  lemma Around<T>(s: seq<T>, i: nat)
    requires i < |s|
    ensures s == s[..i] + [s[i]] + s[i + 1..]
  {}

  lemma IdsWithout(rs: seq<Req>, i: nat)
    requires i < |rs|
    ensures Ids(rs) == Ids(Without(rs, i)) + multiset{rs[i].id}
  {
    var a, b := rs[..i], rs[i + 1..];
    Around(rs, i);
    IdsAppend(a + [rs[i]], b);
    IdsSnoc(a, rs[i]);
    IdsAppend(a, b);
    Swap(Ids(a), multiset{rs[i].id}, Ids(b));
  }

  lemma SplitLast<T>(s: seq<T>)
    requires s != []
    ensures s == s[..|s| - 1] + [s[|s| - 1]]
  {}

  lemma IdsInserted(rs: seq<Req>, front: seq<Req>, last: Req, r: Req, inner: seq<Req>)
    requires rs == front + [last] && Ids(inner) == Ids(front) + multiset{r.id}
    ensures Ids(inner + [last]) == Ids(rs) + multiset{r.id}
  {
    IdsSnoc(inner, last);
    IdsSnoc(front, last);
    Swap(Ids(front), multiset{r.id}, multiset{last.id});
  }

  lemma {:induction false} IdsInsert(rs: seq<Req>, r: Req)
    ensures Ids(Insert(rs, r)) == Ids(rs) + multiset{r.id}
  {
    if rs == [] || rs[|rs| - 1].op.sequence <= r.op.sequence {
      IdsSnoc(rs, r);
    } else {
      var front, last := rs[..|rs| - 1], rs[|rs| - 1];
      SplitLast(rs);
      IdsInsert(front, r);
      IdsInserted(rs, front, last, r, Insert(front, r));
    }
  }

  lemma {:induction false} InsertFrom(rs: seq<Req>, r: Req)
    ensures forall x <- Insert(rs, r) :: x in rs || x == r
  {
    if !(rs == [] || rs[|rs| - 1].op.sequence <= r.op.sequence) { InsertFrom(rs[..|rs| - 1], r); }
  }

  lemma SortedSnoc(rs: seq<Req>, r: Req)
    requires Sorted(rs) && forall x <- rs :: x.op.sequence <= r.op.sequence
    ensures Sorted(rs + [r])
  {
    assert forall i | 0 <= i < |rs| :: rs[i] in rs;
  }

  lemma SortedLast(rs: seq<Req>, x: Req)
    requires Sorted(rs) && x in rs
    ensures x.op.sequence <= rs[|rs| - 1].op.sequence
  {
    var i :| 0 <= i < |rs| && rs[i] == x;
  }

  lemma {:induction false} InsertSorted(rs: seq<Req>, r: Req)
    requires Sorted(rs)
    ensures Sorted(Insert(rs, r))
  {
    if rs == [] || rs[|rs| - 1].op.sequence <= r.op.sequence {
      forall x <- rs ensures x.op.sequence <= r.op.sequence { SortedLast(rs, x); }
      SortedSnoc(rs, r);
    } else {
      var front, last := rs[..|rs| - 1], rs[|rs| - 1];
      InsertSorted(front, r);
      forall x <- Insert(front, r) ensures x.op.sequence <= last.op.sequence {
        InsertFrom(front, r);
        if x in front { SortedLast(rs, x); }
      }
      SortedSnoc(Insert(front, r), last);
    }
  }

  lemma GatheredIds(rs: seq<Req>, front: Split, r: Req, g: Split)
    requires rs != [] && r == rs[|rs| - 1] && Ids(front.group) + Ids(front.left) == Ids(rs[..|rs| - 1])
    requires g == Split(front.group + [r], front.left) || g == Split(front.group, front.left + [r])
    ensures Ids(g.group) + Ids(g.left) == Ids(rs)
  {
    IdsSnoc(front.group, r);
    IdsSnoc(front.left, r);
    Swap(Ids(front.group), multiset{r.id}, Ids(front.left));
    Rejoin(Ids(front.group), Ids(front.left), multiset{r.id});
  }

  lemma Rejoin<T>(a: multiset<T>, b: multiset<T>, c: multiset<T>)
    ensures a + (b + c) == a + b + c
  {}

  lemma {:induction false} GatherSplits(rs: seq<Req>, kind: nat, n: nat)
    ensures Ids(Gather(rs, kind, n).group) + Ids(Gather(rs, kind, n).left) == Ids(rs)
  {
    if rs != [] {
      GatherSplits(rs[..|rs| - 1], kind, n);
      GatheredIds(rs, Gather(rs[..|rs| - 1], kind, n), rs[|rs| - 1], Gather(rs, kind, n));
    }
  }

  // A group holds at most `n` requests, and reads are only grouped with reads.
  lemma {:induction false} GatherLimits(rs: seq<Req>, kind: nat, n: nat)
    ensures |Gather(rs, kind, n).group| <= n && (kind <= RANGE_READ ==> ReadsOnly(Gather(rs, kind, n).group))
  {
    if rs != [] { GatherLimits(rs[..|rs| - 1], kind, n); }
  }

  lemma {:induction false} FlightsAppend(a: seq<Job>, b: seq<Job>)
    ensures FlightIds(a + b) == FlightIds(a) + FlightIds(b)
  {
    if b == [] {
      assert a + b == a;
    } else {
      assert (a + b)[..|a + b| - 1] == a + b[..|b| - 1];
      FlightsAppend(a, b[..|b| - 1]);
    }
  }

  lemma FlightsWithout(js: seq<Job>, i: nat)
    requires i < |js|
    ensures FlightIds(js) == FlightIds(Without(js, i)) + JobIds(js[i])
  {
    var a, b := js[..i], js[i + 1..];
    Around(js, i);
    FlightsAppend(a + [js[i]], b);
    FlightsSnoc(a, js[i]);
    FlightsAppend(a, b);
    Swap(FlightIds(a), JobIds(js[i]), FlightIds(b));
  }

  lemma FlightsSnoc(js: seq<Job>, j: Job)
    ensures FlightIds(js + [j]) == FlightIds(js) + JobIds(j)
  {
    assert (js + [j])[..|js|] == js;
  }

  lemma {:induction false} IdsSize(rs: seq<Req>)
    ensures |Ids(rs)| == |rs|
  {
    if rs != [] { IdsSize(rs[..|rs| - 1]); }
  }

  // --------------------------------------------------------------- each step keeps it

  function Sum<T>(a: multiset<T>, b: multiset<T>, c: multiset<T>, d: multiset<T>, e: multiset<T>,
      f: multiset<T>): multiset<T>
  {
    a + b + c + d + e + f
  }

  // A part that moves from one stage to the next leaves the whole as it was.
  lemma Moves<T>(a: multiset<T>, b: multiset<T>, c: multiset<T>, d: multiset<T>, e: multiset<T>, f: multiset<T>,
      x: multiset<T>)
    ensures Sum(a + x, b, c, d, e, f) == Sum(a, b, c, d, e, f) + x
    ensures Sum(a, b + x, c, d, e, f) == Sum(a, b, c, d, e, f) + x
    ensures Sum(a, b, c + x, d, e, f) == Sum(a, b, c, d, e, f) + x
    ensures Sum(a, b, c, d + x, e, f) == Sum(a, b, c, d, e, f) + x
    ensures Sum(a, b, c, d, e + x, f) == Sum(a, b, c, d, e, f) + x
    ensures Sum(a, b, c, d, e, f + x) == Sum(a, b, c, d, e, f) + x
  {}

  lemma SameCount(l: Limits, s: Sys, s': Sys)
    requires Counted(l, s) && Bag(s') == Bag(s) && s'.used == s.used && s'.answered == s.answered
    ensures Counted(l, s')
  {
    assert Bag(s') + s'.answered == Bag(s) + s.answered;
  }

  lemma AdmitCounts(l: Limits, s: Sys, s': Sys, id: Id)
    requires Counted(l, s) && s.used < l.capacity && Bag(s') == Bag(s) + multiset{id} && id !in Bag(s)
             && id !in s.answered
    requires s'.used == s.used + 1 && s'.answered == s.answered
    ensures Counted(l, s')
  {
    forall x ensures (Bag(s') + s'.answered)[x] <= 1 { assert (Bag(s) + s.answered)[x] <= 1; }
  }

  lemma AbandonCounts(l: Limits, s: Sys, s': Sys, id: Id)
    requires Counted(l, s) && Bag(s) == Bag(s') + multiset{id} && s'.used == s.used - 1 && s'.answered == s.answered
    ensures Counted(l, s')
  {
    forall x ensures (Bag(s') + s'.answered)[x] <= 1 { assert (Bag(s) + s.answered)[x] <= 1; }
  }

  lemma SubmitBag(l: Limits, s: Sys, e: Event)
    requires (e.Admit? || e.Abandon? || e.Enqueue?) && Enabled(l, s, e)
    ensures e.Admit? ==> Bag(Do(l, s, e)) == Bag(s) + multiset{e.req.id}
    ensures e.Abandon? ==> Bag(s) == Bag(Do(l, s, e)) + multiset{s.submitting[e.i].id}
    ensures e.Enqueue? ==> Bag(Do(l, s, e)) == Bag(s)
  {
    var b, c, d, f, g := Ids(s.input), Ids(s.pending), FlightIds(s.jobs), FlightIds(s.running),
        FlightIds(s.completions);
    if e.Admit? {
      IdsSnoc(s.submitting, e.req);
      Moves(Ids(s.submitting), b, c, d, f, g, multiset{e.req.id});
    } else {
      var left, x := Ids(Without(s.submitting, e.i)), multiset{s.submitting[e.i].id};
      IdsWithout(s.submitting, e.i);
      Moves(left, b, c, d, f, g, x);
      if e.Enqueue? { IdsSnoc(s.input, s.submitting[e.i]); }
    }
  }

  lemma SubmitKeeps(l: Limits, s: Sys, e: Event)
    requires (e.Admit? || e.Abandon? || e.Enqueue? || e.Tick?) && Enabled(l, s, e) && Invariant(l, s)
    ensures Invariant(l, Do(l, s, e))
  {
    var s' := Do(l, s, e);
    if e.Tick? {
      SameCount(l, s, s');
    } else {
      SubmitBag(l, s, e);
      if e.Admit? { AdmitCounts(l, s, s', e.req.id); }
      else if e.Abandon? { AbandonCounts(l, s, s', s.submitting[e.i].id); }
      else { SameCount(l, s, s'); }
    }
    SameFlights(s, s');
  }

  lemma ArriveBag(s: Sys, s': Sys)
    requires s.input != [] && s' == s.(input := s.input[1..], pending := Insert(s.pending, s.input[0]))
    ensures Bag(s') == Bag(s)
  {
    var x := multiset{s.input[0].id};
    IdsWithout(s.input, 0);
    assert Without(s.input, 0) == s.input[1..];
    IdsInsert(s.pending, s.input[0]);
    Moves(Ids(s.submitting), Ids(s.input[1..]), Ids(s.pending), FlightIds(s.jobs), FlightIds(s.running),
        FlightIds(s.completions), x);
  }

  lemma ArriveKeeps(l: Limits, s: Sys, e: Event)
    requires e.Arrive? && Enabled(l, s, e) && Invariant(l, s)
    ensures Invariant(l, Do(l, s, e))
  {
    var s' := Do(l, s, e);
    ArriveBag(s, s');
    SameCount(l, s, s');
    InsertSorted(s.pending, s.input[0]);
    SameFlights(s, s');
  }

  lemma GroupIds(pending: multiset<Id>, others: multiset<Id>, first: Req, group: seq<Req>, left: seq<Req>)
    requires pending == others + multiset{first.id} && Ids(group) + Ids(left) == others
    ensures JobIds(Job(first, group)) + Ids(left) == pending
  {
    Rotate(multiset{first.id}, Ids(group), Ids(left));
  }

  lemma ReadJob(pending: seq<Req>, i: nat, n: nat, job: Job, left: seq<Req>)
    requires i < |pending| && pending[i].op.kind <= RANGE_READ
    requires job == Job(pending[i], Gather(Without(pending, i), pending[i].op.kind, n).group)
    requires left == Gather(Without(pending, i), pending[i].op.kind, n).left
    ensures JobIds(job) + Ids(left) == Ids(pending) && ReadsOnly(job.rest)
  {
    var first, others := pending[i], Without(pending, i);
    var g := Gather(others, first.op.kind, n);
    IdsWithout(pending, i);
    GatherSplits(others, first.op.kind, n);
    GatherLimits(others, first.op.kind, n);
    GroupIds(Ids(pending), Ids(others), first, g.group, g.left);
  }

  lemma SingleJob(pending: seq<Req>, i: nat, job: Job, left: seq<Req>)
    requires i < |pending| && job == Job(pending[i], []) && left == Without(pending, i)
    ensures JobIds(job) + Ids(left) == Ids(pending) && ReadsOnly(job.rest)
  {
    IdsWithout(pending, i);
    Rotate(multiset{pending[i].id}, multiset{}, Ids(Without(pending, i)));
  }

  lemma JobSplits(l: Limits, s: Sys, i: nat)
    requires i < |s.pending|
    ensures var (job, left) := JobOf(l, s, i);
            JobIds(job) + Ids(left) == Ids(s.pending) && ReadsOnly(job.rest) && job.first == s.pending[i]
  {
    var (job, left) := JobOf(l, s, i);
    if s.pending[i].op.kind <= RANGE_READ && l.maxBatch > 0 {
      ReadJob(s.pending, i, l.maxBatch - 1, job, left);
    } else {
      SingleJob(s.pending, i, job, left);
    }
  }

  lemma Rotate<T>(x: multiset<T>, a: multiset<T>, b: multiset<T>)
    ensures x + a + b == a + b + x && multiset{} + b == b
  {}

  lemma {:induction false} GatherSorted(rs: seq<Req>, kind: nat, n: nat)
    requires Sorted(rs)
    ensures Sorted(Gather(rs, kind, n).left) && forall x <- Gather(rs, kind, n).left :: x in rs
  {
    if rs != [] {
      var front, r := rs[..|rs| - 1], rs[|rs| - 1];
      GatherSorted(front, kind, n);
      var g := Gather(front, kind, n);
      forall k | 0 <= k < |g.left| ensures g.left[k].op.sequence <= r.op.sequence {
        assert g.left[k] in front;
        var m :| 0 <= m < |front| && front[m] == g.left[k];
        assert rs[m] == front[m];
      }
    }
  }

  lemma JobSorted(l: Limits, s: Sys, i: nat)
    requires i < |s.pending| && Sorted(s.pending)
    ensures Sorted(JobOf(l, s, i).1)
  {
    var first, others := s.pending[i], Without(s.pending, i);
    assert Sorted(others);
    if first.op.kind <= RANGE_READ && l.maxBatch > 0 { GatherSorted(others, first.op.kind, l.maxBatch - 1); }
  }

  lemma DispatchOwns(s: Sys, s': Sys, job: Job)
    requires Owned(s) && !Blocked(s, job.first) && ReadsOnly(job.rest)
    requires s'.owned == Own(s.owned, job.first) && s'.doubleReleases == s.doubleReleases
    requires s'.jobs == s.jobs + [job] && s'.running == s.running && s'.completions == s.completions
    ensures Owned(s')
  {
    assert forall j :: j in Flights(s') <==> j in Flights(s) || j == job;
    forall t <- s'.owned ensures exists j <- Flights(s') :: TokenOf(j.first.op) == Some(t) {
      if t in s.owned {
        var j :| j in Flights(s) && TokenOf(j.first.op) == Some(t);
        assert j in Flights(s');
      } else {
        assert job in Flights(s');
      }
    }
  }

  lemma DispatchBag(s: Sys, s': Sys, job: Job, left: seq<Req>)
    requires JobIds(job) + Ids(left) == Ids(s.pending) && s'.submitting == s.submitting && s'.input == s.input
             && s'.pending == left
    requires s'.jobs == s.jobs + [job] && s'.running == s.running && s'.completions == s.completions
    ensures Bag(s') == Bag(s)
  {
    FlightsSnoc(s.jobs, job);
    assert Ids(left) + JobIds(job) == JobIds(job) + Ids(left);
    Moves(Ids(s.submitting), Ids(s.input), Ids(left), FlightIds(s.jobs), FlightIds(s.running), FlightIds(s.completions),
        JobIds(job));
  }

  lemma DispatchKeeps(l: Limits, s: Sys, e: Event)
    requires e.Dispatch? && Enabled(l, s, e) && Invariant(l, s)
    ensures Invariant(l, Do(l, s, e))
  {
    var s' := Do(l, s, e);
    var (job, left) := JobOf(l, s, e.i);
    JobSplits(l, s, e.i);
    JobSorted(l, s, e.i);
    DispatchBag(s, s', job, left);
    SameCount(l, s, s');
    DispatchOwns(s, s', job);
  }

  lemma SameFlights(s: Sys, s': Sys)
    requires Owned(s) && s'.owned == s.owned && s'.doubleReleases == s.doubleReleases
    requires forall j :: j in Flights(s') <==> j in Flights(s)
    ensures Owned(s')
  {
    forall t <- s'.owned ensures exists j <- Flights(s') :: TokenOf(j.first.op) == Some(t) {
      var j :| j in Flights(s) && TokenOf(j.first.op) == Some(t);
      assert j in Flights(s');
    }
  }

  lemma TakeBag(s: Sys, s': Sys)
    requires s.jobs != [] && s' == s.(jobs := s.jobs[1..], running := s.running + [s.jobs[0]])
    ensures Bag(s') == Bag(s) && forall j :: j in Flights(s') <==> j in Flights(s)
  {
    FlightsWithout(s.jobs, 0);
    assert Without(s.jobs, 0) == s.jobs[1..] && s.jobs == [s.jobs[0]] + s.jobs[1..];
    FlightsSnoc(s.running, s.jobs[0]);
    Moves(Ids(s.submitting), Ids(s.input), Ids(s.pending), FlightIds(s.jobs[1..]), FlightIds(s.running),
        FlightIds(s.completions), JobIds(s.jobs[0]));
  }

  lemma FinishBag(s: Sys, s': Sys, i: nat)
    requires i < |s.running|
             && s' == s.(running := Without(s.running, i), completions := s.completions + [s.running[i]])
    ensures Bag(s') == Bag(s) && forall j :: j in Flights(s') <==> j in Flights(s)
  {
    FlightsWithout(s.running, i);
    Around(s.running, i);
    FlightsSnoc(s.completions, s.running[i]);
    Moves(Ids(s.submitting), Ids(s.input), Ids(s.pending), FlightIds(s.jobs), FlightIds(Without(s.running, i)),
        FlightIds(s.completions), JobIds(s.running[i]));
  }

  lemma WorkKeeps(l: Limits, s: Sys, e: Event)
    requires (e.TakeJob? || e.Finish?) && Enabled(l, s, e) && Invariant(l, s)
    ensures Invariant(l, Do(l, s, e))
  {
    var s' := Do(l, s, e);
    if e.TakeJob? { TakeBag(s, s'); } else { FinishBag(s, s', e.i); }
    SameCount(l, s, s');
    SameFlights(s, s');
  }

  lemma {:induction false} InFlight(js: seq<Job>, j: Job)
    requires j in js
    ensures j.first.id in FlightIds(js)
  {
    if j != js[|js| - 1] { InFlight(js[..|js| - 1], j); }
  }

  lemma {:induction false} ReleaseReads(x: Released, first: Req, rest: seq<Req>)
    requires ReadsOnly(rest)
    ensures ReleaseAll(x, [first] + rest) == Release(x, first)
  {
    if rest == [] {
      assert [first] + rest == [first] && [first][..0] == [];
      assert ReleaseAll(x, []) == x;
    } else {
      assert ([first] + rest)[..|rest|] == [first] + rest[..|rest| - 1];
      assert rest[|rest| - 1] in rest && forall r <- rest[..|rest| - 1] :: r in rest;
      ReleaseReads(x, first, rest[..|rest| - 1]);
    }
  }

  // The jobs that stay in flight are other ones than the one that completed.
  lemma OthersStay(l: Limits, s: Sys, s': Sys, job: Job, j: Job)
    requires Counted(l, s) && Bag(s) == Bag(s') + JobIds(job) && j in Flights(s')
    ensures j.first.id != job.first.id
  {
    if j in s'.jobs { InFlight(s'.jobs, j); }
    else if j in s'.running { InFlight(s'.running, j); }
    else { InFlight(s'.completions, j); }
    assert j.first.id in Bag(s');
    assert (Bag(s) + s.answered)[job.first.id] <= 1;
  }

  lemma CompleteOwns(l: Limits, s: Sys, s': Sys, job: Job)
    requires Counted(l, s) && Owned(s) && Bag(s) == Bag(s') + JobIds(job)
    requires job in Flights(s) && (forall j :: j in Flights(s) <==> j in Flights(s') || j == job)
    requires Release(Released(s.owned, s.doubleReleases), job.first) == Released(s'.owned, s'.doubleReleases)
    ensures Owned(s')
  {
    forall j <- Flights(s') ensures j.first.id != job.first.id { OthersStay(l, s, s', job, j); }
    ReleaseOwns(s, s', job);
  }

  lemma ReleaseOwns(s: Sys, s': Sys, job: Job)
    requires Owned(s) && job in Flights(s) && (forall j :: j in Flights(s) <==> j in Flights(s') || j == job)
    requires forall j <- Flights(s') :: j.first.id != job.first.id
    requires Release(Released(s.owned, s.doubleReleases), job.first) == Released(s'.owned, s'.doubleReleases)
    ensures Owned(s')
  {
    forall t <- s'.owned ensures exists j <- Flights(s') :: TokenOf(j.first.op) == Some(t) {
      var j :| j in Flights(s) && TokenOf(j.first.op) == Some(t);
      assert j != job;
      assert j in Flights(s');
    }
  }

  lemma HeadJob(js: seq<Job>)
    requires js != []
    ensures FlightIds(js) == FlightIds(js[1..]) + JobIds(js[0]) && forall j :: j in js <==> j in js[1..] || j == js[0]
  {
    FlightsWithout(js, 0);
    assert Without(js, 0) == js[1..] && js == [js[0]] + js[1..];
  }

  lemma CompleteBag(s: Sys, s': Sys, job: Job)
    requires s.completions != [] && job == s.completions[0] && s'.completions == s.completions[1..]
    requires s'.submitting == s.submitting && s'.input == s.input && s'.pending == s.pending && s'.jobs == s.jobs
             && s'.running == s.running
    ensures Bag(s) == Bag(s') + JobIds(job) && job in Flights(s) && forall j ::
              j in Flights(s) <==> j in Flights(s') || j == job
  {
    HeadJob(s.completions);
    Moves(Ids(s.submitting), Ids(s.input), Ids(s.pending), FlightIds(s.jobs), FlightIds(s.running),
        FlightIds(s'.completions), JobIds(job));
  }

  lemma CompleteCounts(l: Limits, s: Sys, s': Sys, job: Job)
    requires Counted(l, s) && Bag(s) == Bag(s') + JobIds(job) && s'.used == s.used - (1 + |job.rest|)
             && s'.answered == s.answered + JobIds(job)
    ensures Counted(l, s')
  {
    IdsSize(job.rest);
    assert Bag(s') + s'.answered == Bag(s) + s.answered;
  }

  lemma CompleteKeeps(l: Limits, s: Sys, e: Event)
    requires e.Complete? && Enabled(l, s, e) && Invariant(l, s)
    ensures Invariant(l, Do(l, s, e))
  {
    var s', job := Do(l, s, e), s.completions[0];
    CompleteBag(s, s', job);
    ReleaseReads(Released(s.owned, s.doubleReleases), job.first, job.rest);
    CompleteCounts(l, s, s', job);
    CompleteOwns(l, s, s', job);
  }

  lemma {:induction false} RunKeepsInvariant(l: Limits, es: seq<Event>)
    ensures Invariant(l, Run(l, es))
  {
    if es != [] {
      var s, e := Run(l, es[..|es| - 1]), es[|es| - 1];
      RunKeepsInvariant(l, es[..|es| - 1]);
      if Enabled(l, s, e) {
        match e
        case Arrive => ArriveKeeps(l, s, e);
        case Dispatch(_) => DispatchKeeps(l, s, e);
        case TakeJob => WorkKeeps(l, s, e);
        case Finish(_) => WorkKeeps(l, s, e);
        case Complete => CompleteKeeps(l, s, e);
        case _ => SubmitKeeps(l, s, e);
      }
    }
  }

  // --------------------------------------------------------------------- main results

  lemma TwoInFlight(js: seq<Job>, i: nat, j: nat)
    requires i < j < |js| && js[i].first.id == js[j].first.id
    ensures FlightIds(js)[js[i].first.id] >= 2
  {
    FlightsWithout(js, j);
    assert Without(js, j)[i] == js[i];
    InFlight(Without(js, j), js[i]);
  }

  lemma FlightsInBag(s: Sys)
    ensures FlightIds(Flights(s)) <= Bag(s)
  {
    FlightsAppend(s.jobs, s.running);
    FlightsAppend(s.jobs + s.running, s.completions);
  }

  // In every reachable state no two writes in flight share a conflict token, and no token was ever
  // released twice or by another request than its owner.
  lemma WritesInFlightDisjoint(l: Limits, es: seq<Event>)
    ensures var s := Run(l, es);
            && s.doubleReleases == 0
            && forall i, j | 0 <= i < j < |Flights(s)| && TokenOf(Flights(s)[i].first.op).Some? ::
                 TokenOf(Flights(s)[i].first.op) != TokenOf(Flights(s)[j].first.op)
  {
    RunKeepsInvariant(l, es);
    var s := Run(l, es);
    var js := Flights(s);
    forall i, j | 0 <= i < j < |js|
        && TokenOf(js[i].first.op).Some? ensures TokenOf(js[i].first.op) != TokenOf(js[j].first.op) {
      assert js[i] in js && js[j] in js;
      assert (Bag(s) + s.answered)[js[i].first.id] <= 1;
      FlightsInBag(s);
      if js[i].first.id == js[j].first.id { TwoInFlight(js, i, j); }
    }
  }

  // Admitted requests stay within the capacity, active jobs within the workers, and none of the
  // three bounded channels is ever full when something is sent to it.
  lemma SendsNeverBlock(l: Limits, es: seq<Event>)
    ensures var s := Run(l, es);
            && 0 <= s.used <= l.capacity && s.active == |s.jobs| + |s.running| + |s.completions| <= l.workers
            && (s.submitting != [] ==> |s.input| < l.capacity)
            && (s.active < s.exposure ==> |s.jobs| < l.workers)
            && (s.running != [] ==> |s.completions| < l.workers)
            && (s.jobs != [] ==> |s.running| < l.workers)
  {
    RunKeepsInvariant(l, es);
    var s := Run(l, es);
    IdsSize(s.submitting);
    IdsSize(s.input);
    assert |Bag(s)| >= |Ids(s.submitting)| + |Ids(s.input)|;
  }

  // A request is answered at most once, and never while it is still somewhere in the scheduler.
  lemma AnsweredOnce(l: Limits, es: seq<Event>, id: Id)
    ensures var s := Run(l, es); s.answered[id] <= 1 && (id in s.answered ==> id !in Bag(s))
  {
    RunKeepsInvariant(l, es);
    var s := Run(l, es);
    assert (Bag(s) + s.answered)[id] <= 1;
  }

  // --------------------------------------------------------------- the dispatcher's loops

  lemma {:induction false} GatherFull(rs: seq<Req>, kind: nat, n: nat, k: nat)
    requires k <= |rs| && |Gather(rs[..k], kind, n).group| >= n
    ensures Gather(rs, kind, n) == Split(Gather(rs[..k], kind, n).group, Gather(rs[..k], kind, n).left + rs[k..])
    decreases |rs|
  {
    var g := Gather(rs[..k], kind, n);
    if k == |rs| {
      assert rs[..k] == rs && g.left + rs[k..] == g.left;
    } else {
      var front := rs[..|rs| - 1];
      assert front[..k] == rs[..k];
      GatherFull(front, kind, n, k);
      assert g.left + front[k..] + [rs[|rs| - 1]] == g.left + rs[k..];
    }
  }

  // The dispatcher's own data: the pending list, the owned tokens and the number of active jobs.
  class Loop {
    const l: Limits
    var pending: seq<Req>
    var owned: map<Token, Id>
    var active: int
    var doubleReleases: nat

    constructor (l: Limits)
      ensures this.l == l && pending == [] && owned == map[] && active == 0 && doubleReleases == 0
    {
      this.l, pending, owned, active, doubleReleases := l, [], map[], 0, 0;
    }

    method Arrive(r: Req)
      modifies this`pending
      ensures pending == Insert(old(pending), r)
    {
      var k := |pending|;
      assert pending[..k] == pending && Insert(pending, r) + pending[k..] == Insert(pending, r);
      while k > 0 && pending[k - 1].op.sequence > r.op.sequence
        invariant 0 <= k <= |pending| && Insert(pending, r) == Insert(pending[..k], r) + pending[k..]
      {
        assert pending[..k][..k - 1] == pending[..k - 1];
        assert Insert(pending[..k - 1], r) + [pending[k - 1]] + pending[k..]
            == Insert(pending[..k - 1], r) + pending[k - 1..];
        k := k - 1;
      }
      pending := pending[..k] + [r] + pending[k..];
    }

    // The compatible requests leave the pending list, up to `n` of them.
    method JoinCompatible(kind: nat, n: nat) returns (group: seq<Req>)
      modifies this`pending
      ensures Split(group, pending) == Gather(old(pending), kind, n)
    {
      ghost var others, seen := pending, 0;
      group := [];
      var at := 0;
      while at < |pending| && |group| < n
        invariant 0 <= at <= |pending| && 0 <= seen <= |others| && |group| <= n
        invariant Gather(others[..seen], kind, n) == Split(group, pending[..at]) && pending[at..] == others[seen..]
        decreases |pending| - at
      {
        assert others[..seen + 1][..seen] == others[..seen] && others[seen] == pending[at];
        if Compatible(kind, pending[at].op.kind) {
          group := group + [pending[at]];
          pending := pending[..at] + pending[at + 1..];
        } else {
          at := at + 1;
        }
        seen := seen + 1;
      }
      assert pending == pending[..at] + pending[at..];
      if |group| >= n {
        GatherFull(others, kind, n, seen);
      } else {
        assert others[..seen] == others;
      }
    }

    // Takes a request off the pending list, and for a read the compatible ones that may join it.
    method TakeGroup(i: nat) returns (job: Job)
      requires i < |pending|
      modifies this`pending
      ensures forall s: Sys :: s.pending == old(pending) ==> (job, pending) == JobOf(l, s, i)
    {
      var first := pending[i];
      pending := pending[..i] + pending[i + 1..];
      var group: seq<Req> := [];
      if first.op.kind <= RANGE_READ && l.maxBatch > 0 {
        group := JoinCompatible(first.op.kind, l.maxBatch - 1);
      }
      return Job(first, group);
    }

    method DispatchOne(i: nat) returns (job: Job)
      requires i < |pending|
      modifies this`pending, this`owned, this`active
      ensures forall s: Sys :: s.pending == old(pending) ==> (job, pending) == JobOf(l, s, i)
      ensures owned == Own(old(owned), job.first) && active == old(active) + 1
    {
      job := TakeGroup(i);
      var t := TokenOf(job.first.op);
      if t.Some? {
        owned := owned[t.value := job.first.id];
      }
      active := active + 1;
    }

    // Releases what a completed job owns.
    method CompleteJob(job: Job)
      modifies this`owned, this`active, this`doubleReleases
      ensures Released(owned, doubleReleases)
              == ReleaseAll(Released(old(owned), old(doubleReleases)), [job.first] + job.rest)
      ensures active == old(active) - 1
    {
      active := active - 1;
      var rs := [job.first] + job.rest;
      for k := 0 to |rs|
        invariant active == old(active) - 1
        invariant Released(owned, doubleReleases) == ReleaseAll(Released(old(owned), old(doubleReleases)), rs[..k])
      {
        assert rs[..k + 1][..k] == rs[..k];
        var t := TokenOf(rs[k].op);
        if t.Some? {
          if t.value !in owned || owned[t.value] != rs[k].id {
            doubleReleases := doubleReleases + 1;
          } else {
            owned := owned - {t.value};
          }
        }
      }
      assert rs[..|rs|] == rs;
    }
  }
}
