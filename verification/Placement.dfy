/**
 Placement of transaction agents on scheduler workers: workers run rounds over their own queues, a
 transport carries envelopes between rounds, and a killed worker's agents move to live ones. The
 answers of the participants' databases are choices.
 */
module Placement {
  import opened Bytes

  datatype Phase =
    | Initial | OfferReceiver | AwaitAccept | CommitSender | CommitReceiver
    | AwaitAcknowledge | Reconcile | Done | Rejected | Expired

  predicate Terminal(p: Phase) { p == Done || p == Rejected || p == Expired }

  predicate Awaiting(p: Phase) { p == AwaitAccept || p == AwaitAcknowledge }

  datatype Kind = Offer | Accept | Reject | Commit | Acknowledge

  type Id = nat

  datatype Agent = Agent(phase: Phase, generation: nat)

  // What a worker has to do: step an agent, or give it an envelope addressed to a generation of it.
  datatype Item = Plain(id: Id) | Envelope(id: Id, generation: nat, kind: Kind)

  // `items` is what is left of the current round, `queue` what waits for the next one, and `queued`
  // the agents with a plain item in the queue.
  datatype Worker = Worker(alive: bool, queue: seq<Item>, queued: set<Id>, agents: map<Id, Agent>, items: seq<Item>)

  // An envelope on its way, addressed to the worker and generation its sender had.
  datatype Sent = Sent(worker: nat, generation: nat, id: Id, kind: Kind)

  datatype Sys = Sys(workers: seq<Worker>, placement: map<Id, nat>, transport: seq<Sent>, finished: set<Id>,
                     created: set<Id>, running: bool, stale: bool)

  // ------------------------------------------------------------------------ placing

  // The least loaded live worker, the first of equals.
  function Best(ws: seq<Worker>): (b: Option<nat>)
    ensures b.Some? ==> b.value < |ws|
  {
    if ws == [] then None
    else
      var front, n := Best(ws[..|ws| - 1]), |ws| - 1;
      if ws[n].alive && (front.None? || |ws[n].agents| < |ws[front.value].agents|) then Some(n) else front
  }

  lemma {:induction false} BestIsLeastLoaded(ws: seq<Worker>)
    ensures Best(ws).None? <==> forall i | 0 <= i < |ws| :: !ws[i].alive
    ensures Best(ws).Some? ==>
              var b := Best(ws).value;
              && b < |ws| && ws[b].alive
                 && (forall i | 0 <= i < |ws| && ws[i].alive :: |ws[b].agents| <= |ws[i].agents|)
              && (forall i | 0 <= i < b && ws[i].alive :: |ws[b].agents| < |ws[i].agents|)
  {
    if ws != [] {
      var front := ws[..|ws| - 1];
      BestIsLeastLoaded(front);
      assert forall i | 0 <= i < |front| :: front[i] == ws[i];
    }
  }

  function Enqueue(w: Worker, id: Id): Worker
  {
    if !w.alive || id in w.queued then w else w.(queue := w.queue + [Plain(id)], queued := w.queued + {id})
  }

  function Retarget(ts: seq<Sent>, id: Id, worker: nat, generation: nat): seq<Sent>
  {
    seq(|ts|, i requires 0 <= i < |ts| => if ts[i].id == id then ts[i].(worker := worker, generation := generation)
        else ts[i])
  }

  // Gives an agent, with a new generation, to the least loaded live worker.
  function Assign(s: Sys, id: Id, a: Agent): Sys
  {
    var best := Best(s.workers);
    if best.None? then s
    else
      var b := best.value;
      var w := s.workers[b];
      s.(workers := s.workers[b := Enqueue(w.(agents := w.agents[id := a.(generation := a.generation + 1)]), id)],
         placement := s.placement[id := b], transport := Retarget(s.transport, id, b, a.generation + 1))
  }

  function AssignAll(s: Sys, ids: seq<Id>, agents: map<Id, Agent>): Sys
    requires forall id <- ids :: id in agents
  {
    if ids == [] then s else Assign(AssignAll(s, ids[..|ids| - 1], agents), ids[|ids| - 1], agents[ids[|ids| - 1]])
  }

  function Bury(s: Sys, w: nat): Sys
    requires w < |s.workers|
  {
    s.(workers := s.workers[w := Worker(false, [], {}, map[], [])], placement := s.placement - s.workers[w].agents.Keys)
  }

  // ------------------------------------------------------------------------ stepping

  // The copies of a message that the transport does not drop.
  function Send(s: Sys, w: nat, a: Agent, id: Id, kind: Kind, copies: nat): Sys
  {
    s.(transport := s.transport + seq(copies, _ => Sent(w, a.generation, id, kind)))
  }

  function SetPhase(s: Sys, w: nat, id: Id, p: Phase): Sys
    requires w < |s.workers| && id in s.workers[w].agents
  {
    var worker := s.workers[w];
    s.(workers := s.workers[w := worker.(agents := worker.agents[id := worker.agents[id].(phase := p)])])
  }

  function Wake(s: Sys, w: nat, id: Id, p: Phase): Sys
    requires w < |s.workers| && id in s.workers[w].agents
  {
    var s' := SetPhase(s, w, id, p);
    s'.(workers := s'.workers[w := Enqueue(s'.workers[w], id)])
  }

  function Finish(s: Sys, w: nat, id: Id): Sys
    requires w < |s.workers|
  {
    if id in s.placement && s.placement[id] == w then
      s.(workers := s.workers[w := s.workers[w].(agents := s.workers[w].agents - {id})],
          placement := s.placement - {id}, finished := s.finished + {id})
    else s
  }

  // Whether a step may lead from one phase to another, and the message it sends.
  predicate Leads(from: Phase, to: Phase)
  {
    match from
    case Initial => to == Rejected || to == OfferReceiver
    case OfferReceiver => to == AwaitAccept
    case CommitSender => to == Reconcile || to == CommitReceiver
    case CommitReceiver => to == AwaitAcknowledge
    case Reconcile => to != Initial && to != AwaitAccept && to != Reconcile
    case _ => to == from
  }

  function Message(from: Phase): Kind
  {
    if from == OfferReceiver then Offer else if from == CommitReceiver then Commit else Acknowledge
  }

  predicate Sends(from: Phase, to: Phase)
  {
    from == OfferReceiver || from == CommitReceiver || (from == Reconcile && to == AwaitAcknowledge)
  }

  function StepAgent(s: Sys, w: nat, id: Id, to: Phase, copies: nat): Sys
    requires w < |s.workers| && id in s.workers[w].agents
  {
    var a := s.workers[w].agents[id];
    var sent := if Sends(a.phase, to) then Send(s, w, a, id, Message(a.phase), copies) else s;
    if Terminal(to) then Finish(sent, w, id) else if Awaiting(to) then SetPhase(sent, w, id, to)
        else Wake(sent, w, id, to)
  }

  // What an envelope does to its agent; `works` is the participant's answer.
  function Deliver(s: Sys, w: nat, id: Id, kind: Kind, works: bool, copies: nat): Sys
    requires w < |s.workers| && id in s.workers[w].agents
  {
    var a := s.workers[w].agents[id];
    match kind
    case Offer => Send(s, w, a, id, if works then Accept else Reject, copies)
    case Accept => if a.phase == AwaitAccept then Wake(s, w, id, CommitSender) else s
    case Reject => Finish(s, w, id)
    case Commit => if works then Send(s, w, a, id, Acknowledge, copies) else s
    case Acknowledge => if works then Finish(s, w, id) else s
  }

  function RunItem(s: Sys, w: nat, to: Phase, works: bool, copies: nat): Sys
    requires w < |s.workers| && s.workers[w].items != []
  {
    var worker := s.workers[w];
    var item, s' := worker.items[0], s.(workers := s.workers[w := worker.(items := worker.items[1..])]);
    if item.id !in worker.agents then s'
    else
      match item
      case Plain(id) => StepAgent(s', w, id, to, copies)
      case Envelope(id, generation, kind) =>
        if generation != worker.agents[id].generation then s'.(stale := true)
            else Deliver(s', w, id, kind, works, copies)
  }

  function StartRound(w: Worker): Worker
  {
    if w.alive then w.(items := w.queue, queue := [], queued := {}) else w
  }

  // The transport empties into the queues of the workers its envelopes are addressed to.
  function DrainOne(ws: seq<Worker>, t: Sent): seq<Worker>
  {
    if t.worker < |ws|
        then ws[t.worker := ws[t.worker].(queue := ws[t.worker].queue + [Envelope(t.id, t.generation, t.kind)])] else ws
  }

  function DrainAll(ws: seq<Worker>, ts: seq<Sent>): seq<Worker>
  {
    if ts == [] then ws else DrainOne(DrainAll(ws, ts[..|ts| - 1]), ts[|ts| - 1])
  }

  datatype Event =
    | Create(id: Id)
    | Kill(w: nat, ids: seq<Id>)
    | Restart(id: Id)
    | BeginRound
    | Run(w: nat, to: Phase, works: bool, copies: nat)
    | EndRound(order: seq<Sent>)
    | Deadline(id: Id, expired: bool)

  predicate Idle(s: Sys) { !s.running }

  // A step of the first item's agent may lead to the phase.
  predicate MayStep(w: Worker, to: Phase)
    requires w.items != []
  {
    w.items[0].Plain? && w.items[0].id in w.agents ==> Leads(w.agents[w.items[0].id].phase, to)
  }

  predicate OtherLive(s: Sys, w: nat)
  {
    exists v | 0 <= v < |s.workers| :: v != w && s.workers[v].alive
  }

  predicate Placed(s: Sys, id: Id)
  {
    id in s.placement && s.placement[id] < |s.workers| && id in s.workers[s.placement[id]].agents
  }

  ghost predicate Enabled(s: Sys, e: Event)
  {
    match e
    case Create(id) => Idle(s) && id !in s.created && Best(s.workers).Some?
    case Kill(w, ids) =>
      && Idle(s) && w < |s.workers| && s.workers[w].alive && OtherLive(s, w)
      && (forall i, j | 0 <= i < j < |ids| :: ids[i] != ids[j])
         && (forall id :: id in ids <==> id in s.workers[w].agents)
    case Restart(id) => Idle(s) && Placed(s, id)
    case BeginRound => Idle(s)
    case Run(w, to, _, _) => s.running && w < |s.workers| && s.workers[w].items != [] && MayStep(s.workers[w], to)
    case EndRound(order) =>
        s.running && (forall w <- s.workers :: w.items == []) && multiset(order) == multiset(s.transport)
    case Deadline(id, _) => Idle(s) && Placed(s, id) && Awaiting(s.workers[s.placement[id]].agents[id].phase)
  }

  ghost function Do(s: Sys, e: Event): Sys
    requires Enabled(s, e)
  {
    match e
    case Create(id) => Assign(s.(created := s.created + {id}), id, Agent(Initial, 0))
    case Kill(w, ids) => AssignAll(Bury(s, w), ids, s.workers[w].agents)
    case Restart(id) => Wake(s, s.placement[id], id, Reconcile)
    case BeginRound =>
        s.(running := true, workers := seq(|s.workers|, i requires 0 <= i < |s.workers| => StartRound(s.workers[i])))
    case Run(w, to, works, copies) => RunItem(s, w, to, works, copies)
    case EndRound(order) => s.(running := false, workers := DrainAll(s.workers, order), transport := [])
    case Deadline(id, expired) =>
      var w := s.placement[id];
      var p := s.workers[w].agents[id].phase;
      Wake(s, w, id, if expired then Reconcile else if p == AwaitAccept then OfferReceiver else CommitReceiver)
  }

  ghost function Execute(n: nat, es: seq<Event>): Sys
  {
    if es == [] then Sys(seq(n, _ => Worker(true, [], {}, map[], [])), map[], [], {}, {}, false, false)
    else var s := Execute(n, es[..|es| - 1]); if Enabled(s, es[|es| - 1]) then Do(s, es[|es| - 1]) else s
  }

  // ----------------------------------------------------------------------- invariant

  // An item is a step, or an envelope for an agent of this worker in its current generation - or
  // for one that has finished.
  predicate ItemOk(w: Worker, finished: set<Id>, item: Item)
  {
    item.Envelope? ==> item.id in finished || (item.id in w.agents && w.agents[item.id].generation == item.generation)
  }

  ghost predicate WorkerOk(w: Worker, finished: set<Id>, running: bool)
  {
    && (forall item <- w.queue :: ItemOk(w, finished, item)) && (forall item <- w.items :: ItemOk(w, finished, item))
    && (forall id <- w.queued :: Plain(id) in w.queue)
    && (!w.alive ==> w.queue == [] && w.items == [] && w.queued == {} && w.agents == map[])
    && (!running ==> w.items == [])
  }

  // A worker knows that it has to step the agent.
  predicate Scheduled(w: Worker, id: Id)
  {
    id in w.queued || Plain(id) in w.items
  }

  // A placed agent is held by the live worker it is placed on, and - unless its own item is just
  // being worked on - either waits for an envelope or is scheduled.
  ghost predicate AgentOk(s: Sys, id: Id, exempt: Option<Id>)
  {
    && Placed(s, id) && s.workers[s.placement[id]].alive
    && var w := s.workers[s.placement[id]];
       !Terminal(w.agents[id].phase) && (exempt == Some(id) || Awaiting(w.agents[id].phase) || Scheduled(w, id))
  }

  predicate SentOk(s: Sys, t: Sent)
  {
    && s.running && t.worker < |s.workers| && s.workers[t.worker].alive
    && (t.id in s.finished
       || (Placed(s, t.id) && s.placement[t.id] == t.worker
       && s.workers[t.worker].agents[t.id].generation == t.generation))
  }

  ghost predicate Alone(s: Sys)
  {
    forall w, id | 0 <= w < |s.workers| && id in s.workers[w].agents :: id in s.placement && s.placement[id] == w
  }

  ghost predicate Known(s: Sys, lost: set<Id>)
  {
    && (forall id <- s.placement :: id !in s.finished && id !in lost) && lost !! s.finished
    && s.created == s.placement.Keys + s.finished + lost
  }

  // `lost` are agents of a worker just killed that have no new place yet.
  ghost predicate Invariant(s: Sys, exempt: Option<Id>, lost: set<Id>)
  {
    && (forall w <- s.workers :: WorkerOk(w, s.finished, s.running))
    && (forall id <- s.placement :: AgentOk(s, id, exempt))
    && Alone(s) && (forall t <- s.transport :: SentOk(s, t)) && Known(s, lost) && !s.stale
  }

  // ------------------------------------------------------------------- single updates

  lemma OneWorker(ws: seq<Worker>, b: nat, w: Worker, finished: set<Id>, running: bool)
    requires b < |ws| && (forall x <- ws :: WorkerOk(x, finished, running)) && WorkerOk(w, finished, running)
    ensures forall x <- ws[b := w] :: WorkerOk(x, finished, running)
  {
    forall x <- ws[b := w] ensures WorkerOk(x, finished,
        running) { if x in ws { assert WorkerOk(x, finished, running); } }
  }

  lemma WeakenExempt(s: Sys, id: Id)
    requires Invariant(s, None, {})
    ensures Invariant(s, Some(id), {})
  {
    forall x <- s.placement ensures AgentOk(s, x, Some(id)) { assert AgentOk(s, x, None); }
  }

  lemma SetPhaseKeeps(s: Sys, w: nat, id: Id, p: Phase)
    requires Invariant(s, Some(id), {}) && w < |s.workers| && id in s.workers[w].agents && !Terminal(p)
    ensures Invariant(SetPhase(s, w, id, p), Some(id), {})
    ensures Awaiting(p) ==> Invariant(SetPhase(s, w, id, p), None, {})
  {
    var s' := SetPhase(s, w, id, p);
    forall x <- s'.workers ensures WorkerOk(x, s'.finished, s'.running) {
      if x == s'.workers[w] { assert WorkerOk(s.workers[w], s.finished, s.running); }
    }
    forall x <- s'.placement ensures AgentOk(s', x, Some(id))
        && (Awaiting(p) ==> AgentOk(s', x, None)) { assert AgentOk(s, x, Some(id)); }
    forall t <- s'.transport ensures SentOk(s', t) { assert SentOk(s, t); }
  }

  lemma EnqueueKeeps(s: Sys, w: nat, id: Id)
    requires Invariant(s, Some(id), {}) && w < |s.workers| && id in s.workers[w].agents
    ensures Invariant(s.(workers := s.workers[w := Enqueue(s.workers[w], id)]), None, {})
  {
    var s' := s.(workers := s.workers[w := Enqueue(s.workers[w], id)]);
    assert AgentOk(s, id, Some(id));
    forall x <- s'.workers ensures WorkerOk(x, s'.finished, s'.running) {
      if x == s'.workers[w] { assert WorkerOk(s.workers[w], s.finished, s.running); }
    }
    forall x <- s'.placement ensures AgentOk(s', x, None) { assert AgentOk(s, x, Some(id)); }
    forall t <- s'.transport ensures SentOk(s', t) { assert SentOk(s, t); }
  }

  lemma WakeKeeps(s: Sys, w: nat, id: Id, p: Phase)
    requires Invariant(s, Some(id), {}) && w < |s.workers| && id in s.workers[w].agents && !Terminal(p)
    ensures Invariant(Wake(s, w, id, p), None, {})
  {
    SetPhaseKeeps(s, w, id, p);
    EnqueueKeeps(SetPhase(s, w, id, p), w, id);
  }

  lemma FinishKeeps(s: Sys, w: nat, id: Id)
    requires Invariant(s, Some(id), {}) && w < |s.workers| && id in s.workers[w].agents
    ensures Invariant(Finish(s, w, id), None, {})
  {
    var s' := Finish(s, w, id);
    assert AgentOk(s, id, Some(id));
    forall x <- s'.workers ensures WorkerOk(x, s'.finished, s'.running) {
      if x == s'.workers[w] { assert WorkerOk(s.workers[w], s.finished, s.running); }
          else { assert WorkerOk(x, s.finished, s.running); }
    }
    forall x <- s'.placement ensures AgentOk(s', x, None) { assert AgentOk(s, x, Some(id)); }
    forall t <- s'.transport ensures SentOk(s', t) { assert SentOk(s, t); }
  }

  lemma SendKeeps(s: Sys, w: nat, id: Id, kind: Kind, copies: nat, exempt: Option<Id>)
    requires Invariant(s, exempt, {}) && s.running && w < |s.workers| && id in s.workers[w].agents
    ensures Invariant(Send(s, w, s.workers[w].agents[id], id, kind, copies), exempt, {})
  {
    var a := s.workers[w].agents[id];
    var s' := Send(s, w, a, id, kind, copies);
    assert AgentOk(s, id, exempt);
    forall x <- s'.placement ensures AgentOk(s', x, exempt) { assert AgentOk(s, x, exempt); }
    forall t <- s'.transport ensures SentOk(s', t) {
      if t in s.transport { assert SentOk(s, t); } else { assert t == Sent(w, a.generation, id, kind); }
    }
  }

  // --------------------------------------------------------------------- whole events

  lemma ConsumeKeeps(s: Sys, w: nat)
    requires Invariant(s, None, {}) && w < |s.workers| && s.workers[w].items != []
    ensures var item := s.workers[w].items[0];
            var s' := s.(workers := s.workers[w := s.workers[w].(items := s.workers[w].items[1..])]);
            Invariant(s', Some(item.id), {})
                && (item.Envelope? || item.id !in s.workers[w].agents ==> Invariant(s', None, {}))
  {
    var worker := s.workers[w];
    var item, s' := worker.items[0], s.(workers := s.workers[w := worker.(items := worker.items[1..])]);
    assert worker.items == [item] + worker.items[1..];
    assert WorkerOk(worker, s.finished, s.running);
    assert WorkerOk(s'.workers[w], s.finished, s.running) by {
      forall x <- worker.items[1..] ensures ItemOk(s'.workers[w], s.finished,
          x) { assert ItemOk(worker, s.finished, x); }
    }
    forall x <- s'.placement
      ensures AgentOk(s', x, Some(item.id)) && (item.Envelope? || item.id !in worker.agents ==> AgentOk(s', x, None))
    {
      assert AgentOk(s, x, None);
    }
    forall t <- s'.transport ensures SentOk(s', t) { assert SentOk(s, t); }
  }

  lemma StepKeeps(s: Sys, w: nat, id: Id, to: Phase, copies: nat)
    requires Invariant(s, Some(id), {}) && s.running && w < |s.workers| && id in s.workers[w].agents
             && Leads(s.workers[w].agents[id].phase, to)
    ensures Invariant(StepAgent(s, w, id, to, copies), None, {})
  {
    var a := s.workers[w].agents[id];
    var sent := s;
    if Sends(a.phase, to) {
      SendKeeps(s, w, id, Message(a.phase), copies, Some(id));
      sent := Send(s, w, a, id, Message(a.phase), copies);
    }
    if Terminal(to) { FinishKeeps(sent, w, id); } else if Awaiting(to) { SetPhaseKeeps(sent, w, id, to); }
        else { WakeKeeps(sent, w, id, to); }
  }

  lemma DeliverKeeps(s: Sys, w: nat, id: Id, kind: Kind, works: bool, copies: nat)
    requires Invariant(s, None, {}) && s.running && w < |s.workers| && id in s.workers[w].agents
    ensures Invariant(Deliver(s, w, id, kind, works, copies), None, {})
  {
    match kind
    case Offer => SendKeeps(s, w, id, if works then Accept else Reject, copies, None);
    case Accept =>
      WeakenExempt(s, id);
      if s.workers[w].agents[id].phase == AwaitAccept { WakeKeeps(s, w, id, CommitSender); }
    case Reject =>
      WeakenExempt(s, id);
      FinishKeeps(s, w, id);
    case Commit => if works { SendKeeps(s, w, id, Acknowledge, copies, None); }
    case Acknowledge =>
      WeakenExempt(s, id);
      if works { FinishKeeps(s, w, id); }
  }

  // No envelope is ever delivered to another generation of its agent.
  lemma NeverStale(s: Sys, w: nat)
    requires Invariant(s, None, {}) && w < |s.workers| && s.workers[w].items != []
    ensures var item := s.workers[w].items[0];
            item.Envelope? && item.id in s.workers[w].agents ==>
                  item.generation == s.workers[w].agents[item.id].generation
  {
    var worker := s.workers[w];
    assert worker.items[0] in worker.items && WorkerOk(worker, s.finished, s.running);
    assert ItemOk(worker, s.finished, worker.items[0]);
  }

  lemma RunKeeps(s: Sys, w: nat, to: Phase, works: bool, copies: nat)
    requires Invariant(s, None, {}) && s.running && w < |s.workers| && s.workers[w].items != []
             && MayStep(s.workers[w], to)
    ensures Invariant(RunItem(s, w, to, works, copies), None, {})
  {
    var worker := s.workers[w];
    var item, s' := worker.items[0], s.(workers := s.workers[w := worker.(items := worker.items[1..])]);
    ConsumeKeeps(s, w);
    NeverStale(s, w);
    if item.id in worker.agents {
      match item
      case Plain(id) => StepKeeps(s', w, id, to, copies);
      case Envelope(id, generation, kind) => DeliverKeeps(s', w, id, kind, works, copies);
    }
  }

  lemma BeginKeeps(s: Sys)
    requires Invariant(s, None, {}) && Idle(s)
    ensures Invariant(Do(s, BeginRound), None, {})
  {
    var s' := Do(s, BeginRound);
    forall x <- s'.workers ensures WorkerOk(x, s'.finished, s'.running) {
      var i :| 0 <= i < |s'.workers| && s'.workers[i] == x;
      assert WorkerOk(s.workers[i], s.finished, s.running);
    }
    forall x <- s'.placement ensures AgentOk(s', x, None) {
      assert AgentOk(s, x, None);
      assert WorkerOk(s.workers[s.placement[x]], s.finished, s.running);
    }
    NothingSent(s, {});
  }

  // What draining leaves of a worker: only its queue has grown, by good items.
  ghost predicate Drained(before: Worker, after: Worker, finished: set<Id>)
  {
    && after == before.(queue := after.queue) && before.queue <= after.queue && (!before.alive ==> after == before)
    && forall item <- after.queue :: item in before.queue || ItemOk(before, finished, item)
  }

  lemma {:induction false} DrainGrows(s: Sys, ts: seq<Sent>)
    requires Invariant(s, None, {}) && forall t <- ts :: SentOk(s, t)
    ensures |DrainAll(s.workers, ts)| == |s.workers|
    ensures forall i | 0 <= i < |s.workers| :: Drained(s.workers[i], DrainAll(s.workers, ts)[i], s.finished)
  {
    if ts != [] {
      var t := ts[|ts| - 1];
      assert t in ts && forall x <- ts[..|ts| - 1] :: x in ts;
      DrainGrows(s, ts[..|ts| - 1]);
      assert SentOk(s, t);
    }
  }

  lemma EndKeeps(s: Sys, order: seq<Sent>)
    requires Invariant(s, None, {}) && Enabled(s, EndRound(order))
    ensures Invariant(Do(s, EndRound(order)), None, {})
  {
    var s' := Do(s, EndRound(order));
    forall t <- order ensures SentOk(s, t) { assert t in multiset(order); assert t in s.transport; }
    DrainGrows(s, order);
    forall x <- s'.workers ensures WorkerOk(x, s'.finished, s'.running) {
      var i :| 0 <= i < |s'.workers| && s'.workers[i] == x;
      assert WorkerOk(s.workers[i], s.finished, s.running) && Drained(s.workers[i], x, s.finished);
    }
    forall x <- s'.placement ensures AgentOk(s', x, None) {
      assert AgentOk(s, x, None) && Drained(s.workers[s.placement[x]], s'.workers[s.placement[x]], s.finished);
    }
  }

  lemma NothingSent(s: Sys, lost: set<Id>)
    requires Invariant(s, None, lost) && Idle(s)
    ensures s.transport == []
  {
    assert |s.transport| > 0 ==> SentOk(s, s.transport[0]);
  }

  // A worker that takes over an agent: none of its envelopes is for that agent.
  lemma AdoptKeeps(w: Worker, finished: set<Id>, running: bool, id: Id, a: Agent)
    requires WorkerOk(w, finished, running) && w.alive && id !in finished && id !in w.agents
    ensures var w' := Enqueue(w.(agents := w.agents[id := a]), id); WorkerOk(w', finished, running) && Scheduled(w', id)
  {
    var w' := Enqueue(w.(agents := w.agents[id := a]), id);
    forall item <- w'.queue ensures ItemOk(w', finished,
        item) { if item in w.queue { assert ItemOk(w, finished, item); } }
    forall item <- w'.items ensures ItemOk(w', finished, item) { assert ItemOk(w, finished, item); }
  }

  lemma AssignAgents(s: Sys, s': Sys, b: nat, id: Id, a: Agent)
    requires b < |s.workers| && s.workers[b].alive && id !in s.placement && !Terminal(a.phase)
             && forall x <- s.placement :: AgentOk(s, x, None)
    requires s'.placement == s.placement[id := b]
    requires s'.workers == s.workers[b := Enqueue(s.workers[b].(agents := s.workers[b].agents[id := a]), id)]
             && Scheduled(s'.workers[b], id)
    ensures forall x <- s'.placement :: AgentOk(s', x, None)
  {
    forall x <- s'.placement ensures AgentOk(s', x, None) {
      if x != id { assert AgentOk(s, x, None); }
    }
  }

  lemma AssignKnown(s: Sys, s': Sys, b: nat, id: Id, lost: set<Id>)
    requires Known(s, lost) && id in lost && s'.placement == s.placement[id := b] && s'.finished == s.finished
             && s'.created == s.created
    ensures Known(s', lost - {id})
  {
    assert s'.placement.Keys + s'.finished + (lost - {id}) == s.placement.Keys + s.finished + lost;
  }

  lemma AssignAlone(s: Sys, s': Sys, b: nat, id: Id, a: Agent)
    requires Alone(s) && b < |s.workers| && id !in s.placement && s'.placement == s.placement[id := b]
    requires s'.workers == s.workers[b := Enqueue(s.workers[b].(agents := s.workers[b].agents[id := a]), id)]
    ensures Alone(s')
  {}

  lemma AssignShape(s: Sys, id: Id, a: Agent) returns (s': Sys, b: nat, next: Agent)
    requires Best(s.workers).Some? && s.transport == []
    ensures s' == Assign(s, id, a) && b < |s.workers| && s.workers[b].alive && next.phase == a.phase
    ensures s' == s.(placement := s.placement[id := b],
                     workers := s.workers[b := Enqueue(s.workers[b].(agents := s.workers[b].agents[id := next]), id)])
    ensures s'.placement.Keys == s.placement.Keys + {id} && SameLife(s.workers, s'.workers)
  {
    BestIsLeastLoaded(s.workers);
    s', b, next := Assign(s, id, a), Best(s.workers).value, a.(generation := a.generation + 1);
  }

  lemma AssignKeeps(s: Sys, id: Id, a: Agent, lost: set<Id>) returns (s': Sys)
    requires Invariant(s, None, lost) && Idle(s) && id in lost && !Terminal(a.phase) && Best(s.workers).Some?
    ensures s' == Assign(s, id, a) && Invariant(s', None, lost - {id}) && Idle(s')
    ensures s'.placement.Keys == s.placement.Keys + {id} && SameLife(s.workers, s'.workers)
  {
    NothingSent(s, lost);
    var b, next;
    s', b, next := AssignShape(s, id, a);
    AdoptedKeeps(s, s', b, id, next, lost);
  }

  lemma AdoptedKeeps(s: Sys, s': Sys, b: nat, id: Id, next: Agent, lost: set<Id>)
    requires Invariant(s, None, lost) && Idle(s) && id in lost && !Terminal(next.phase) && s.transport == []
    requires b < |s.workers| && s.workers[b].alive
    requires s' == s.(placement := s.placement[id := b],
                      workers := s.workers[b := Enqueue(s.workers[b].(agents := s.workers[b].agents[id := next]), id)])
    ensures Invariant(s', None, lost - {id})
  {
    assert WorkerOk(s.workers[b], s.finished, s.running) && id !in s.placement && id !in s.finished;
    AdoptKeeps(s.workers[b], s.finished, s.running, id, next);
    OneWorker(s.workers, b, s'.workers[b], s.finished, s.running);
    AssignAgents(s, s', b, id, next);
    AssignKnown(s, s', b, id, lost);
    AssignAlone(s, s', b, id, next);
  }

  ghost predicate SameLife(a: seq<Worker>, b: seq<Worker>)
  {
    |a| == |b| && forall i | 0 <= i < |a| :: a[i].alive == b[i].alive
  }

  lemma BuryKeeps(s: Sys, w: nat)
    requires Invariant(s, None, {}) && Idle(s) && w < |s.workers|
    ensures Invariant(Bury(s, w), None, s.workers[w].agents.Keys) && Idle(Bury(s, w))
  {
    var s' := Bury(s, w);
    NothingSent(s, {});
    BuryAgents(s, w);
    OneWorker(s.workers, w, s'.workers[w], s.finished, s.running);
  }

  lemma BuryAgents(s: Sys, w: nat)
    requires w < |s.workers| && Alone(s) && forall x <- s.placement :: AgentOk(s, x, None)
    ensures forall x <- Bury(s, w).placement :: AgentOk(Bury(s, w), x, None)
  {
    var s' := Bury(s, w);
    forall x <- s'.placement ensures AgentOk(s', x, None) { assert AgentOk(s, x, None); }
  }

  function Members(ids: seq<Id>): set<Id>
  {
    set id | id in ids
  }

  lemma MembersSnoc(ids: seq<Id>, lost: set<Id>)
    requires ids != []
    ensures Members(ids) == Members(ids[..|ids| - 1]) + {ids[|ids| - 1]}
    ensures lost - Members(ids[..|ids| - 1]) - {ids[|ids| - 1]} == lost - Members(ids)
  {
    assert ids == ids[..|ids| - 1] + [ids[|ids| - 1]];
  }

  lemma StillLive(a: seq<Worker>, b: seq<Worker>)
    requires SameLife(a, b) && Best(a).Some?
    ensures Best(b).Some?
  {
    BestIsLeastLoaded(a);
    BestIsLeastLoaded(b);
  }

  lemma {:induction false} AssignAllKeeps(s: Sys, ids: seq<Id>, agents: map<Id, Agent>, lost: set<Id>) returns (s': Sys)
    requires Invariant(s, None, lost) && Idle(s) && Best(s.workers).Some?
    requires (forall id <- ids :: id in agents && id in lost && !Terminal(agents[id].phase))
             && forall i, j | 0 <= i < j < |ids| :: ids[i] != ids[j]
    ensures s' == AssignAll(s, ids, agents) && Invariant(s', None, lost - Members(ids)) && Idle(s')
            && SameLife(s.workers, s'.workers)
    ensures s'.placement.Keys == s.placement.Keys + Members(ids)
  {
    if ids == [] {
      s' := s;
      assert lost - Members(ids) == lost && s.placement.Keys + Members(ids) == s.placement.Keys;
    } else {
      var n := |ids| - 1;
      var front, id := ids[..n], ids[n];
      assert id in ids && (forall x <- front :: x in ids) && id !in front;
      var mid := AssignAllKeeps(s, front, agents, lost);
      StillLive(s.workers, mid.workers);
      s' := AssignKeeps(mid, id, agents[id], lost - Members(front));
      MembersSnoc(ids, lost);
    }
  }

  lemma SurvivorIsBest(s: Sys, w: nat)
    requires w < |s.workers| && OtherLive(s, w)
    ensures Best(Bury(s, w).workers).Some?
  {
    var v :| 0 <= v < |s.workers| && v != w && s.workers[v].alive;
    assert Bury(s, w).workers[v].alive;
    BestIsLeastLoaded(Bury(s, w).workers);
  }

  lemma AgentsRunning(s: Sys, w: nat, id: Id)
    requires Invariant(s, None, {}) && w < |s.workers| && id in s.workers[w].agents
    ensures !Terminal(s.workers[w].agents[id].phase) && id in s.placement
  {
    assert AgentOk(s, id, None);
  }

  lemma KillKeeps(s: Sys, w: nat, ids: seq<Id>) returns (s': Sys)
    requires Invariant(s, None, {}) && Enabled(s, Kill(w, ids))
    ensures s' == Do(s, Kill(w, ids)) && Invariant(s', None, {}) && s'.placement.Keys == s.placement.Keys
  {
    var agents := s.workers[w].agents;
    forall id <- agents ensures !Terminal(agents[id].phase) && id in s.placement { AgentsRunning(s, w, id); }
    BuryKeeps(s, w);
    SurvivorIsBest(s, w);
    s' := AssignAllKeeps(Bury(s, w), ids, agents, agents.Keys);
    EveryoneMoved(agents, ids, s.placement);
  }

  lemma EveryoneMoved(agents: map<Id, Agent>, ids: seq<Id>, placement: map<Id, nat>)
    requires (forall id :: id in ids <==> id in agents) && forall id <- agents :: id in placement
    ensures agents.Keys - Members(ids) == {} && (placement - agents.Keys).Keys + Members(ids) == placement.Keys
  {}

  lemma CreateKnown(s: Sys, id: Id)
    requires Invariant(s, None, {}) && Idle(s) && id !in s.created
    ensures Invariant(s.(created := s.created + {id}), None, {id})
  {
    var s' := s.(created := s.created + {id});
    forall x <- s'.placement ensures AgentOk(s', x, None) { assert AgentOk(s, x, None); }
    NothingSent(s, {});
  }

  lemma CreateKeeps(s: Sys, id: Id)
    requires Invariant(s, None, {}) && Enabled(s, Create(id))
    ensures Invariant(Do(s, Create(id)), None, {})
  {
    CreateKnown(s, id);
    var s' := AssignKeeps(s.(created := s.created + {id}), id, Agent(Initial, 0), {id});
    assert {id} - {id} == {};
  }

  lemma {:induction false} RunKeepsInvariant(n: nat, es: seq<Event>)
    ensures Invariant(Execute(n, es), None, {})
  {
    if es != [] {
      var s, e := Execute(n, es[..|es| - 1]), es[|es| - 1];
      RunKeepsInvariant(n, es[..|es| - 1]);
      if Enabled(s, e) {
        match e
        case Create(id) => CreateKeeps(s, id);
        case Kill(w, ids) => var s' := KillKeeps(s, w, ids);
        case Restart(id) => { WeakenExempt(s, id); WakeKeeps(s, s.placement[id], id, Reconcile); }
        case BeginRound => BeginKeeps(s);
        case Run(w, to, works, copies) => RunKeeps(s, w, to, works, copies);
        case EndRound(order) => EndKeeps(s, order);
        case Deadline(id, expired) => {
          WeakenExempt(s, id);
          var p := s.workers[s.placement[id]].agents[id].phase;
          WakeKeeps(s, s.placement[id], id, if expired then Reconcile else if p == AwaitAccept then OfferReceiver
              else CommitReceiver);
        }
      }
    }
  }

  // At every round barrier of every run - whatever was dropped, duplicated and reordered, and
  // whichever workers were killed while another lived - each unfinished agent is held by exactly one
  // worker, a live one, the one the placement names; it waits for an envelope or has a step queued;
  // and every queued envelope is for the current generation of an agent of its worker, or for one
  // that has finished.
  lemma PlacedAtEveryBarrier(n: nat, es: seq<Event>, id: Id)
    requires var s := Execute(n, es); Idle(s) && id in s.created && id !in s.finished
    ensures var s := Execute(n, es);
            && Placed(s, id)
            && (forall w | 0 <= w < |s.workers| :: id in s.workers[w].agents <==> w == s.placement[id])
            && var w := s.workers[s.placement[id]];
               && w.alive && !Terminal(w.agents[id].phase) && (Awaiting(w.agents[id].phase) || Plain(id) in w.queue)
               && forall item <- w.queue | item.Envelope? && item.id == id :: item.generation == w.agents[id].generation
  {
    RunKeepsInvariant(n, es);
    var s := Execute(n, es);
    assert AgentOk(s, id, None);
    var w := s.workers[s.placement[id]];
    assert WorkerOk(w, s.finished, s.running);
    assert forall item <- w.queue :: ItemOk(w, s.finished, item);
  }

  // The error for a stale generation is never reported.
  lemma StaleUnreachable(n: nat, es: seq<Event>)
    ensures !Execute(n, es).stale
  {
    RunKeepsInvariant(n, es);
  }

  // A kill that leaves a live worker loses no agent.
  lemma KillLosesNothing(n: nat, es: seq<Event>, w: nat, ids: seq<Id>)
    requires Enabled(Execute(n, es), Kill(w, ids))
    ensures var s, s' := Execute(n, es), Do(Execute(n, es), Kill(w, ids));
              s'.placement.Keys == s.placement.Keys && s'.finished == s.finished
  {
    RunKeepsInvariant(n, es);
    var s' := KillKeeps(Execute(n, es), w, ids);
    FinishedKept(Bury(Execute(n, es), w), ids, Execute(n, es).workers[w].agents);
  }

  lemma {:induction false} FinishedKept(s: Sys, ids: seq<Id>, agents: map<Id, Agent>)
    requires forall id <- ids :: id in agents
    ensures AssignAll(s, ids, agents).finished == s.finished
  {
    if ids != [] { FinishedKept(s, ids[..|ids| - 1], agents); }
  }
}
