/**
 The commit queue: submitters append requests under a mutex and leave a token in a one-place
 wake channel; a closer sets a flag and leaves the same token; one coordinator takes groups off
 the front of the queue, answers them, and exits. Every interleaving of their steps is a run.
 */
module CommitCoordinator {
  import opened Bytes
  import opened FiniteSums

  // A request, named by the submission that made it.
  type Id = nat

  const MAX_COMMIT_GROUP := 64

  datatype Holder = Nobody | Submitter(id: Id) | Coordinator

  // Where a submission stands: past the first check, inside the mutex, about to signal, waiting
  // for its answer, or returned.
  datatype Submission = Checked | Locked | Refusing | Appended | Signalling | Waiting | Answered | Refused

  datatype Closer = NotClosed | CloseSignalling | AwaitingExit | ClosedDown

  // The coordinator waits for the token, or is about to lock, or holds the mutex (looking at the
  // queue, having seen it empty, or about to unlock), or answers a group.
  datatype Worker =
    | AwaitWake
    | Looking
    | Holding
    | SawEmpty
    | Unlocking(leave: bool)
    | Taking(group: seq<Id>)
    | Answering(rest: seq<Id>)
    | Exited

  // `appended` and `answered` record the order in which requests were queued and answered;
  // `channel` holds the requests whose answer is sent and not yet received.
  datatype System = System(single: bool, mutex: Holder, queue: seq<Id>, wake: bool, closed: bool,
                           worker: Worker, closer: Closer, subs: map<Id, Submission>, channel: set<Id>,
                           appended: seq<Id>, answered: seq<Id>)

  datatype Event =
    | Begin(id: Id, refuse: bool)  // refuse: nil context or a poisoned database
    | Lock(id: Id)
    | Recheck(id: Id)
    | Unlock(id: Id)
    | Signal(id: Id)
    | Receive(id: Id)
    | Close
    | CloseSignal
    | CloseReturn
    | TakeWake
    | WorkerLock
    | WorkerLook
    | WorkerLoadClosed
    | WorkerUnlock
    | WorkerAnswer

  function Initial(single: bool): System
  {
    System(single, Nobody, [], false, false, AwaitWake, NotClosed, map[], {}, [], [])
  }

  // ------------------------------------------------------------------------ steps

  predicate At(s: System, id: Id, where: Submission)
  {
    id in s.subs && s.subs[id] == where
  }

  function Inflight(w: Worker): seq<Id>
  {
    match w
    case Taking(group) => group
    case Answering(rest) => rest
    case _ => []
  }

  predicate Enabled(s: System, e: Event)
  {
    match e
    case Begin(id, _) => id !in s.subs
    case Lock(id) => At(s, id, Checked) && s.mutex == Nobody
    case Recheck(id) => At(s, id, Locked)
    case Unlock(id) => At(s, id, Refusing) || At(s, id, Appended)
    case Signal(id) => At(s, id, Signalling)
    case Receive(id) => At(s, id, Waiting) && id in s.channel
    case Close => !s.closed
    case CloseSignal => s.closer == CloseSignalling
    case CloseReturn => s.closer == AwaitingExit && s.worker == Exited
    case TakeWake => s.worker == AwaitWake && s.wake
    case WorkerLock => s.worker == Looking && s.mutex == Nobody
    case WorkerLook => s.worker == Holding
    case WorkerLoadClosed => s.worker == SawEmpty
    case WorkerUnlock => s.worker.Unlocking? || s.worker.Taking?
    // Each answer goes into a channel with room for one.
    case WorkerAnswer => s.worker.Answering? && (s.worker.rest == [] || s.worker.rest[0] !in s.channel)
  }

  function Move(s: System, id: Id, to: Submission): System
  {
    s.(subs := s.subs[id := to])
  }

  function GroupSize(s: System): nat
  {
    var limit := if s.single then 1 else MAX_COMMIT_GROUP;
    if limit > |s.queue| then |s.queue| else limit
  }

  function Look(s: System): System
  {
    if s.queue == [] then s.(worker := SawEmpty)
    else s.(worker := Taking(s.queue[..GroupSize(s)]), queue := s.queue[GroupSize(s)..])
  }

  function Do(s: System, e: Event): System
    requires Enabled(s, e)
  {
    match e
    case Begin(id, refuse) => Move(s, id, if s.closed || refuse then Refused else Checked)
    case Lock(id) => Move(s, id, Locked).(mutex := Submitter(id))
    case Recheck(id) =>
      if s.closed then Move(s, id, Refusing)
      else Move(s, id, Appended).(queue := s.queue + [id], appended := s.appended + [id])
    case Unlock(id) => Move(s, id, if s.subs[id] == Refusing then Refused else Signalling).(mutex := Nobody)
    case Signal(id) => Move(s, id, Waiting).(wake := true)
    case Receive(id) => Move(s, id, Answered).(channel := s.channel - {id})
    case Close => s.(closed := true, closer := CloseSignalling)
    case CloseSignal => s.(closer := AwaitingExit, wake := true)
    case CloseReturn => s.(closer := ClosedDown)
    case TakeWake => s.(worker := Looking, wake := false)
    case WorkerLock => s.(worker := Holding, mutex := Coordinator)
    case WorkerLook => Look(s)
    case WorkerLoadClosed => s.(worker := Unlocking(s.closed))
    case WorkerUnlock =>
      s.(mutex := Nobody, worker := if s.worker.Taking? then Answering(s.worker.group) else if s.worker.leave
          then Exited else AwaitWake)
    case WorkerAnswer =>
      if s.worker.rest == [] then s.(worker := Looking)
      else s.(worker := Answering(s.worker.rest[1..]), channel := s.channel + {s.worker.rest[0]},
              answered := s.answered + [s.worker.rest[0]])
  }

  // Events that cannot happen yet leave the system as it is.
  function Run(s: System, es: seq<Event>): System
  {
    if es == [] then s
    else var mid := Run(s, es[..|es| - 1]); if Enabled(mid, es[|es| - 1]) then Do(mid, es[|es| - 1]) else mid
  }

  // -------------------------------------------------------------------- invariant

  predicate Inside(p: Submission) { p == Locked || p == Refusing || p == Appended }

  predicate WorkerInside(w: Worker) { w == Holding || w == SawEmpty || w.Unlocking? || w.Taking? }

  predicate Queued(p: Submission) { p == Appended || p == Signalling || p == Waiting || p == Answered }

  ghost predicate MutexOk(s: System)
  {
    && (forall id <- s.subs :: Inside(s.subs[id]) <==> s.mutex == Submitter(id))
    && (s.mutex.Submitter? ==> s.mutex.id in s.subs)
    && (WorkerInside(s.worker) <==> s.mutex == Coordinator)
  }

  ghost predicate OrderOk(s: System)
  {
    && s.appended == s.answered + Inflight(s.worker) + s.queue
    && Distinct(s.appended)
    && (forall id <- s.appended :: id in s.subs && Queued(s.subs[id]))
    && (forall id <- s.subs | Queued(s.subs[id]) :: id in s.appended)
  }

  ghost predicate ChannelOk(s: System)
  {
    && (forall id <- s.channel :: id in s.answered && !At(s, id, Answered))
    && (forall id <- s.answered | !At(s, id, Answered) :: id in s.channel)
    && (forall id <- s.subs | s.subs[id] == Answered :: id in s.answered)
  }

  // No wake-up is lost: while the coordinator waits without a token, whoever queued last has yet
  // to signal, and so has the closer.
  ghost predicate WakeOk(s: System)
  {
    && (s.worker == AwaitWake && s.queue != [] ==>
        s.wake || At(s, s.queue[|s.queue| - 1], Appended) || At(s, s.queue[|s.queue| - 1], Signalling))
    && (s.closed && (s.worker == AwaitWake || s.worker == Unlocking(false)) ==> s.wake || s.closer == CloseSignalling)
  }

  ghost predicate WorkerOk(s: System)
  {
    && (s.worker == SawEmpty || s.worker.Unlocking? || s.worker == Exited ==> s.queue == [])
    && (s.worker == Unlocking(true) || s.worker == Exited ==> s.closed)
    && (s.worker.Taking? ==> 0 < |s.worker.group| <= MAX_COMMIT_GROUP)
    && (s.closer == NotClosed <==> !s.closed)
    && (s.closer == ClosedDown ==> s.worker == Exited)
  }

  ghost predicate Invariant(s: System)
  {
    MutexOk(s) && OrderOk(s) && ChannelOk(s) && WakeOk(s) && WorkerOk(s)
  }

  predicate OfSubmission(e: Event)
  {
    e.Begin? || e.Lock? || e.Recheck? || e.Unlock? || e.Signal? || e.Receive?
  }

  lemma SubmissionKeepsMutex(s: System, e: Event)
    requires OfSubmission(e) && Enabled(s, e) && MutexOk(s)
    ensures MutexOk(Do(s, e))
  {}

  lemma OthersKeepMutex(s: System, e: Event)
    requires !OfSubmission(e) && Enabled(s, e) && MutexOk(s)
    ensures MutexOk(Do(s, e))
  {}

  lemma SubmissionKeepsOrder(s: System, e: Event)
    requires OfSubmission(e) && !e.Recheck? && Enabled(s, e) && OrderOk(s)
    ensures OrderOk(Do(s, e))
  {}

  lemma RecheckKeepsOrder(s: System, e: Event)
    requires e.Recheck? && Enabled(s, e) && OrderOk(s)
    ensures OrderOk(Do(s, e))
  {
    assert e.id !in s.appended;
    if !s.closed {
      assert s.appended + [e.id] == s.answered + Inflight(s.worker) + (s.queue + [e.id]);
    }
  }

  lemma OthersKeepOrder(s: System, e: Event)
    requires !OfSubmission(e) && !e.WorkerLook? && !e.WorkerAnswer? && Enabled(s, e) && OrderOk(s)
    ensures OrderOk(Do(s, e))
  {}

  lemma LookKeepsOrder(s: System, e: Event)
    requires e.WorkerLook? && Enabled(s, e) && OrderOk(s)
    ensures OrderOk(Do(s, e))
  {
    var n := GroupSize(s);
    assert s.answered + [] + s.queue == s.answered + s.queue[..n] + s.queue[n..];
  }

  lemma AnswerKeepsOrder(s: System, e: Event)
    requires e.WorkerAnswer? && Enabled(s, e) && OrderOk(s)
    ensures OrderOk(Do(s, e))
  {
    var rest := s.worker.rest;
    if rest != [] {
      assert s.answered + rest + s.queue == s.answered + [rest[0]] + rest[1..] + s.queue;
    }
  }

  lemma SubmissionKeepsChannel(s: System, e: Event)
    requires OfSubmission(e) && Enabled(s, e) && ChannelOk(s)
    ensures ChannelOk(Do(s, e))
  {}

  lemma OthersKeepChannel(s: System, e: Event)
    requires !OfSubmission(e) && !e.WorkerAnswer? && Enabled(s, e) && ChannelOk(s)
    ensures ChannelOk(Do(s, e))
  {
    var s' := Do(s, e);
    assert s'.channel == s.channel && s'.answered == s.answered && s'.subs == s.subs;
  }

  // An answer goes to a request that has had none.
  lemma NextUnanswered(s: System)
    requires OrderOk(s) && Inflight(s.worker) != []
    ensures Inflight(s.worker)[0] !in s.answered
  {
    assert s.appended[|s.answered|] == Inflight(s.worker)[0];
    forall i | 0 <= i < |s.answered| ensures s.answered[i] == s.appended[i] {}
  }

  lemma AnswerKeepsChannel(s: System, e: Event)
    requires e.WorkerAnswer? && Enabled(s, e) && ChannelOk(s)
    requires s.worker.rest != [] ==> s.worker.rest[0] !in s.answered
    ensures ChannelOk(Do(s, e))
  {}

  lemma SubmissionKeepsWake(s: System, e: Event)
    requires OfSubmission(e) && Enabled(s, e) && MutexOk(s) && WakeOk(s) && WorkerOk(s)
    ensures WakeOk(Do(s, e)) && WorkerOk(Do(s, e))
  {}

  lemma OthersKeepWake(s: System, e: Event)
    requires !OfSubmission(e) && Enabled(s, e) && WakeOk(s) && WorkerOk(s)
    ensures WakeOk(Do(s, e)) && WorkerOk(Do(s, e))
  {}

  lemma StepKeepsInvariant(s: System, e: Event)
    requires Enabled(s, e) && Invariant(s)
    ensures Invariant(Do(s, e))
  {
    if OfSubmission(e) {
      SubmissionKeepsMutex(s, e);
      SubmissionKeepsChannel(s, e);
      SubmissionKeepsWake(s, e);
      if e.Recheck? { RecheckKeepsOrder(s, e); } else { SubmissionKeepsOrder(s, e); }
    } else {
      OthersKeepMutex(s, e);
      OthersKeepWake(s, e);
      if e.WorkerAnswer? {
        AnswerKeepsOrder(s, e);
        if s.worker.rest != [] { NextUnanswered(s); }
        AnswerKeepsChannel(s, e);
      } else {
        OthersKeepChannel(s, e);
        if e.WorkerLook? { LookKeepsOrder(s, e); } else { OthersKeepOrder(s, e); }
      }
    }
  }

  lemma {:induction false} RunKeepsInvariant(single: bool, es: seq<Event>)
    ensures Invariant(Run(Initial(single), es))
  {
    if es != [] {
      RunKeepsInvariant(single, es[..|es| - 1]);
      var s, e := Run(Initial(single), es[..|es| - 1]), es[|es| - 1];
      if Enabled(s, e) { StepKeepsInvariant(s, e); }
    }
  }

  // ---------------------------------------------------------------- order and exit

  // Requests are answered in the order in which they were queued, none twice, and the channel an
  // answer goes into is always empty, so the coordinator never blocks on it.
  lemma AnsweredOnceInOrder(single: bool, es: seq<Event>)
    ensures var s := Run(Initial(single), es);
            && s.answered <= s.appended && Distinct(s.answered)
            && (forall id <- s.subs :: At(s, id, Answered) ==> id in s.answered)
            && (s.worker.Answering? && s.worker.rest != [] ==> s.worker.rest[0] !in s.channel)
  {
    RunKeepsInvariant(single, es);
    var s := Run(Initial(single), es);
    if s.worker.Answering? && s.worker.rest != [] { NextUnanswered(s); }
  }

  lemma {:induction false} RunSplit(s: System, a: seq<Event>, b: seq<Event>)
    ensures Run(s, a + b) == Run(Run(s, a), b)
  {
    if b == [] {
      assert a + b == a;
    } else {
      RunSplit(s, a, b[..|b| - 1]);
      assert (a + b)[..|a + b| - 1] == a + b[..|b| - 1];
    }
  }

  lemma {:induction false} StaysExited(s: System, es: seq<Event>)
    requires Invariant(s) && s.worker == Exited
    ensures var t := Run(s, es); Invariant(t) && t.worker == Exited && t.queue == [] && t.closed
    ensures Run(s, es).answered == Run(s, es).appended == s.appended
  {
    if es != [] {
      StaysExited(s, es[..|es| - 1]);
      var t, e := Run(s, es[..|es| - 1]), es[|es| - 1];
      if Enabled(t, e) { StepKeepsInvariant(t, e); }
    }
  }

  // The coordinator exits only after a close, with an empty queue and every request answered, and
  // nothing is ever queued again: later submissions are refused.
  lemma ExitIsFinal(single: bool, es: seq<Event>, more: seq<Event>)
    requires Run(Initial(single), es).worker == Exited
    ensures var s, t := Run(Initial(single), es), Run(Initial(single), es + more);
            && s.closed && s.queue == [] && s.answered == s.appended
            && t.worker == Exited && t.queue == [] && t.appended == s.appended
  {
    RunKeepsInvariant(single, es);
    RunSplit(Initial(single), es, more);
    StaysExited(Run(Initial(single), es), []);
    StaysExited(Run(Initial(single), es), more);
  }

  // --------------------------------------------------------------------- progress

  // New submissions and the close come from outside; every other step belongs to work begun.
  predicate FromOutside(e: Event) { e.Begin? || e.Close? }

  function SubmissionWork(p: Submission): int
  {
    match p
    case Checked => 15
    case Locked => 14
    case Refusing => 1
    case Appended => 8
    case Signalling => 7
    case Waiting => 1
    case Answered => 0
    case Refused => 0
  }

  function WorkerWork(w: Worker): int
  {
    match w
    case AwaitWake => 0
    case Looking => 4
    case Holding => 3
    case SawEmpty => 2
    case Unlocking(_) => 1
    case Taking(group) => 6 + |group|
    case Answering(rest) => 5 + |rest|
    case Exited => 0
  }

  function Works(subs: map<Id, Submission>): map<Id, int>
  {
    map id <- subs :: SubmissionWork(subs[id])
  }

  // How many steps are left, at most: a bound that every inner step lowers.
  ghost function Work(s: System): int
  {
    Sum(Works(s.subs)) + 5 * |s.queue| + (if s.wake then 5 else 0) + WorkerWork(s.worker)
    + match s.closer case CloseSignalling => 7 case AwaitingExit => 1 case _ => 0
  }

  lemma WorkNonNegative(s: System)
    ensures Work(s) >= 0
  {
    SumNonNegative(Works(s.subs));
  }

  lemma MoveWork(s: System, id: Id, to: Submission)
    requires id in s.subs
    ensures Sum(Works(Move(s, id, to).subs)) == Sum(Works(s.subs)) - SubmissionWork(s.subs[id]) + SubmissionWork(to)
  {
    assert Works(s.subs[id := to]) == Works(s.subs)[id := SubmissionWork(to)];
    SumSet(Works(s.subs), id, SubmissionWork(to));
  }

  lemma SubmissionStepWorks(s: System, e: Event)
    requires OfSubmission(e) && !e.Begin? && Enabled(s, e)
    ensures Work(Do(s, e)) < Work(s)
  {
    MoveWork(s, e.id, Do(s, e).subs[e.id]);
  }

  lemma OtherStepWorks(s: System, e: Event)
    requires !OfSubmission(e) && !e.Close? && Enabled(s, e)
    ensures Work(Do(s, e)) < Work(s)
  {}

  ghost predicate Quiet(s: System)
  {
    forall e: Event | Enabled(s, e) :: FromOutside(e)
  }

  // When only the outside could act, every submission has returned and, after a close, the
  // coordinator and the closer have finished.
  lemma QuietMeansAnswered(s: System)
    requires Invariant(s) && Quiet(s)
    ensures s.queue == [] && s.answered == s.appended
    ensures forall id <- s.subs :: s.subs[id] == Answered || s.subs[id] == Refused
    ensures s.closed ==> s.worker == Exited && s.closer == ClosedDown
  {
    assert s.mutex == Nobody by { QuietMutex(s); }
    QuietWorker(s);
    forall id <- s.subs ensures s.subs[id] == Answered || s.subs[id] == Refused {
      assert !Enabled(s, Lock(id)) && !Enabled(s, Signal(id)) && !Enabled(s, Receive(id));
    }
    assert !Enabled(s, CloseReturn) && !Enabled(s, CloseSignal);
  }

  lemma QuietMutex(s: System)
    requires Invariant(s) && Quiet(s)
    ensures s.mutex == Nobody
  {
    var holder := if s.mutex.Submitter? then s.mutex.id else 0;
    assert !Enabled(s, Recheck(holder)) && !Enabled(s, Unlock(holder));
    assert !Enabled(s, WorkerLook) && !Enabled(s, WorkerLoadClosed) && !Enabled(s, WorkerUnlock);
  }

  lemma QuietWorker(s: System)
    requires Invariant(s) && Quiet(s) && s.mutex == Nobody
    ensures s.queue == [] && s.answered == s.appended
    ensures s.closed ==> s.worker == Exited
  {
    if Inflight(s.worker) != [] { NextUnanswered(s); }
    assert !Enabled(s, WorkerAnswer) && !Enabled(s, WorkerLock) && !Enabled(s, TakeWake) && !Enabled(s, CloseSignal);
    var last := if s.queue != [] then s.queue[|s.queue| - 1] else 0;
    assert !Enabled(s, Unlock(last)) && !Enabled(s, Signal(last));
  }

  // No wake-up is lost. However the steps interleave, a run of `inner` steps from a reachable state
  // ends after at most Work steps, and it can only end with every request answered.
  lemma {:induction false} EveryRequestIsAnswered(single: bool, es: seq<Event>, inner: seq<Event>)
    requires AllEnabled(Run(Initial(single), es), inner) && forall e <- inner :: !FromOutside(e)
    ensures var s, t := Run(Initial(single), es), Run(Initial(single), es + inner);
            && |inner| <= Work(s) - Work(t) <= Work(s)
            && (Quiet(t) ==> t.answered == t.appended && (t.closed ==> t.worker == Exited && t.closer == ClosedDown)
                             && forall id <- t.subs :: t.subs[id] == Answered || t.subs[id] == Refused)
  {
    var s := Run(Initial(single), es);
    RunSplit(Initial(single), es, inner);
    RunKeepsInvariant(single, es + inner);
    InnerRunWorks(s, inner);
    WorkNonNegative(Run(s, inner));
    if Quiet(Run(s, inner)) { QuietMeansAnswered(Run(s, inner)); }
  }

  predicate AllEnabled(s: System, es: seq<Event>)
  {
    es == [] || (AllEnabled(s, es[..|es| - 1]) && Enabled(Run(s, es[..|es| - 1]), es[|es| - 1]))
  }

  lemma {:induction false} InnerRunWorks(s: System, inner: seq<Event>)
    requires AllEnabled(s, inner) && forall e <- inner :: !FromOutside(e)
    ensures |inner| <= Work(s) - Work(Run(s, inner))
  {
    if inner != [] {
      var front, e := inner[..|inner| - 1], inner[|inner| - 1];
      InnerRunWorks(s, front);
      assert e in inner;
      if OfSubmission(e) { SubmissionStepWorks(Run(s, front), e); } else { OtherStepWorks(Run(s, front), e); }
    }
  }
}
