/**
 The scheduler's workers, coordinator and transport as objects that are updated in place. Each
 method is proved to have exactly the effect that the placement steps give it.
 */
module PlacementScheduler {
  import opened Bytes
  import opened Placement

  class SchedulerWorker {
    var alive: bool
    var queue: seq<Item>
    var queued: set<Id>
    var agents: map<Id, Agent>
    var items: seq<Item>

    function Value(): Worker
      reads this
    {
      Worker(alive, queue, queued, agents, items)
    }

    constructor ()
      ensures Value() == Worker(true, [], {}, map[], [])
    {
      alive, queue, queued, agents, items := true, [], {}, map[], [];
    }

    method EnqueueStep(id: Id)
      modifies this`queue, this`queued
      ensures Value() == Enqueue(old(Value()), id)
    {
      if !alive || id in queued {
        return;
      }
      queue := queue + [Plain(id)];
      queued := queued + {id};
    }

    method EnqueueEnvelope(t: Sent)
      modifies this`queue
      ensures Value() == old(Value()).(queue := old(queue) + [Envelope(t.id, t.generation, t.kind)])
    {
      queue := queue + [Envelope(t.id, t.generation, t.kind)];
    }

    method Adopt(id: Id, a: Agent)
      modifies this`queue, this`queued, this`agents
      ensures Value() == Enqueue(old(Value()).(agents := old(agents)[id := a]), id)
    {
      agents := agents[id := a];
      EnqueueStep(id);
    }

    // Takes the queue for the round and forgets, item by item, whose steps are in it.
    method TakeRound()
      requires forall id <- queued :: Plain(id) in queue
      modifies this
      ensures Value() == StartRound(old(Value()))
    {
      if !alive {
        return;
      }
      items, queue := queue, [];
      for i := 0 to |items|
        invariant items == old(queue) && queue == [] && alive == old(alive) && agents == old(agents)
        invariant forall id <- queued :: Plain(id) in items[i..]
      {
        assert items[i..] == [items[i]] + items[i + 1..];
        if items[i].Plain? {
          queued := queued - {items[i].id};
        }
      }
      assert queued == {};
    }

    method Die()
      modifies this
      ensures Value() == Worker(false, [], {}, map[], [])
    {
      alive, queue, queued, agents, items := false, [], {}, map[], [];
    }
  }

  class Transport {
    var queue: seq<Sent>

    constructor ()
      ensures queue == []
    {
      queue := [];
    }

    // Readdresses the envelopes of a migrated agent, one by one.
    method RetargetAll(id: Id, worker: nat, generation: nat)
      modifies this
      ensures queue == Retarget(old(queue), id, worker, generation)
    {
      for i := 0 to |queue|
        invariant |queue| == |old(queue)|
        invariant forall k | 0 <= k < i :: queue[k] == Retarget(old(queue), id, worker, generation)[k]
        invariant forall k | i <= k < |queue| :: queue[k] == old(queue)[k]
      {
        if queue[i].id == id {
          queue := queue[i := queue[i].(worker := worker, generation := generation)];
        }
      }
    }
  }

  class SchedulerCoordinator {
    const workers: seq<SchedulerWorker>
    const transport: Transport
    var placement: map<Id, nat>

    ghost predicate Valid()
    {
      forall i, j | 0 <= i < j < |workers| :: workers[i] != workers[j]
    }

    ghost function Workers(): (ws: seq<Worker>)
      reads workers
      ensures |ws| == |workers| && forall i | 0 <= i < |ws| :: ws[i] == workers[i].Value()
    {
      seq(|workers|, i requires 0 <= i < |workers| reads workers => workers[i].Value())
    }

    // The coordinator's part of the system state, in a system that is otherwise `rest`.
    ghost function State(rest: Sys): Sys
      reads this, workers, transport
    {
      rest.(workers := Workers(), placement := placement, transport := transport.queue)
    }

    constructor (workers: seq<SchedulerWorker>, transport: Transport)
      requires forall i, j | 0 <= i < j < |workers| :: workers[i] != workers[j]
      ensures this.workers == workers && this.transport == transport && Valid() && placement == map[]
    {
      this.workers, this.transport, placement := workers, transport, map[];
    }

    method LeastLoaded() returns (best: Option<nat>)
      ensures best == Best(Workers())
    {
      ghost var ws := Workers();
      best := None;
      for i := 0 to |workers|
        invariant best == Best(ws[..i]) && (best.Some? ==> best.value < i)
      {
        assert ws[..i + 1][..i] == ws[..i];
        assert best.Some? ==> ws[..i + 1][best.value] == workers[best.value].Value();
        if workers[i].alive && (best.None? || |workers[i].agents| < |workers[best.value].agents|) {
          best := Some(i);
        }
      }
      assert ws[..|ws|] == ws;
    }

    method AssignAgent(id: Id, a: Agent, ghost rest: Sys) returns (placed: Option<nat>)
      requires Valid()
      modifies this, workers
      ensures placed == Best(old(Workers())) && transport.queue == old(transport.queue)
      ensures var s := Assign(old(State(rest)), id, a); Workers() == s.workers && placement == s.placement
    {
      placed := LeastLoaded();
      if placed.None? {
        return;
      }
      var w := workers[placed.value];
      w.Adopt(id, a.(generation := a.generation + 1));
      placement := placement[id := placed.value];
      assert Workers() == old(Workers())[placed.value := w.Value()];
    }

    // An agent restored from its checkpoint gets a new place, and its envelopes follow it.
    method Migrate(id: Id, a: Agent, ghost rest: Sys) returns (ok: bool)
      requires Valid()
      modifies this, workers, transport
      ensures ok == Best(old(Workers())).Some?
      ensures State(rest) == Assign(old(State(rest)), id, a)
    {
      var placed := AssignAgent(id, a, rest);
      if placed.None? {
        return false;
      }
      transport.RetargetAll(id, placed.value, a.generation + 1);
      return true;
    }

    method Bury(w: nat, ghost rest: Sys)
      requires Valid() && w < |workers|
      modifies this, workers
      ensures State(rest) == Placement.Bury(old(State(rest)), w)
    {
      placement := placement - workers[w].agents.Keys;
      workers[w].Die();
      assert Workers() == old(Workers())[w := Worker(false, [], {}, map[], [])];
    }

    // Kills a worker and moves its agents, named by `ids`, to live ones. Without a live worker the
    // first agent that finds none is reported.
    method KillWorker(w: nat, ids: seq<Id>, ghost rest: Sys) returns (ok: bool)
      requires Valid() && (w < |workers| ==> forall id :: id in ids <==> id in workers[w].agents)
      modifies this, workers, transport
      ensures w >= |workers| || !old(workers[w].alive) ==> ok && State(rest) == old(State(rest))
      ensures w < |workers| && old(workers[w].alive) && ok ==>
                State(rest) == AssignAll(Placement.Bury(old(State(rest)), w), ids, old(workers[w].agents))
      ensures !ok ==> Best(Workers()).None?
    {
      if w >= |workers| || !workers[w].alive {
        return true;
      }
      var agents := workers[w].agents;
      Bury(w, rest);
      ghost var buried := State(rest);
      assert ids[..0] == [];
      for i := 0 to |ids|
        invariant Valid() && State(rest) == AssignAll(buried, ids[..i], agents)
      {
        assert ids[..i + 1][..i] == ids[..i];
        var moved := Migrate(ids[i], agents[ids[i]], rest);
        if !moved {
          return false;
        }
      }
      assert ids[..|ids|] == ids;
      return true;
    }

    method Complete(w: nat, id: Id, ghost rest: Sys) returns (ghost finished: set<Id>)
      requires Valid() && w < |workers|
      modifies this, workers
      ensures State(rest.(finished := finished)) == Finish(old(State(rest)), w, id)
    {
      finished := rest.finished;
      if id !in placement || placement[id] != w {
        return;
      }
      workers[w].agents := workers[w].agents - {id};
      placement := placement - {id};
      finished := finished + {id};
      assert Workers() == old(Workers())[w := workers[w].Value()];
    }

    method StartRounds()
      requires Valid() && forall w <- workers, id <- w.queued :: Plain(id) in w.queue
      modifies workers
      ensures |Workers()| == |old(Workers())| && forall i | 0 <= i < |workers| ::
                Workers()[i] == StartRound(old(Workers())[i])
    {
      for i := 0 to |workers|
        invariant forall k | 0 <= k < i :: workers[k].Value() == StartRound(old(workers[k].Value()))
        invariant forall k | i <= k < |workers| :: workers[k].Value() == old(workers[k].Value())
      {
        workers[i].TakeRound();
      }
    }

    // Delivers what the transport held, in the order it chose, to the workers it is addressed to.
    method Deliver(events: seq<Sent>) returns (ok: bool)
      requires Valid()
      modifies workers
      ensures ok <==> forall t <- events :: t.worker < |workers|
      ensures ok ==> Workers() == DrainAll(old(Workers()), events)
    {
      assert events[..0] == [];
      for i := 0 to |events|
        invariant Workers() == DrainAll(old(Workers()), events[..i])
        invariant forall k | 0 <= k < i :: events[k].worker < |workers|
      {
        assert events[..i + 1][..i] == events[..i];
        ghost var before := Workers();
        var t := events[i];
        if t.worker >= |workers| {
          return false;
        }
        workers[t.worker].EnqueueEnvelope(t);
        assert Workers() == DrainOne(before, t);
      }
      assert events[..|events|] == events;
      ok := true;
    }
  }
}
