/**
 The key lists of datasets over whole runs of the keyed store: built when the store is opened, kept
 up with every record a group commits, and at every moment what a rebuild would give.
 */
module QueryRuns {
  import opened Bytes
  import opened KeyedRecords
  import opened KeyedCommit
  import opened KeyedRuns
  import opened QueryIndex

  function UpkeepRecords(keys: seq<Bytes>, dataset: nat, rs: seq<Record>): seq<Bytes>
  {
    if rs == [] then keys else UpkeepRecord(UpkeepRecords(keys, dataset, rs[..|rs| - 1]), dataset, rs[|rs| - 1])
  }

  lemma RebuiltIs(records: Records, dataset: nat)
    ensures ListOk(Rebuilt(records, dataset), records, dataset)
  {
    ListIsRebuilt(Rebuilt(records, dataset), records, dataset);
  }

  // Upkeep over one mutation gives the list of the records after it.
  lemma MutationUpkeep(records: Records, dataset: nat, m: Mutation)
    ensures Upkeep(Rebuilt(records, dataset), dataset, m) == Rebuilt(ApplyMutation(records, m), dataset)
  {
    var keys, after := Rebuilt(records, dataset), ApplyMutation(records, m);
    RebuiltIs(records, dataset);
    if m.delete { KeysAfterDelete(records, m.key, dataset); } else { KeysAfterPut(records, m.key, m.value, dataset); }
    if DatasetOf(m.key) == Some(dataset) { UpdatedIs(keys, m.key[9..], m.delete); }
    ListIsRebuilt(Upkeep(keys, dataset, m), after, dataset);
  }

  lemma {:induction false} MutationsUpkeep(records: Records, dataset: nat, ms: seq<Mutation>)
    ensures UpkeepAll(Rebuilt(records, dataset), dataset, ms) == Rebuilt(ApplyMutations(records, ms), dataset)
  {
    if ms != [] {
      MutationsUpkeep(records, dataset, ms[..|ms| - 1]);
      MutationUpkeep(ApplyMutations(records, ms[..|ms| - 1]), dataset, ms[|ms| - 1]);
    }
  }

  // Upkeep over one record gives the list of the records after it.
  lemma RecordUpkeep(o: Options, s: State, dataset: nat, r: Record)
    ensures UpkeepRecord(Rebuilt(s.records, dataset), dataset, r) == Rebuilt(Apply(o, s, r).records, dataset)
  {
    MutationsUpkeep(s.records, dataset, r.mutations);
  }

  // The records a group appends, from the list before it, give the list of what it leaves in memory.
  ghost predicate KeepsUp(s: State, dataset: nat, g: Group)
  {
    UpkeepRecords(Rebuilt(s.records, dataset), dataset, g.appended) == Rebuilt(g.state.records, dataset)
  }

  lemma StepKeepsUp(o: Options, c: Codec, plan: Plan, shared: bool, s: State, g: Group, q: Request, dataset: nat)
    requires KeepsUp(s, dataset, g) && !Step(o, c, plan, shared, g, q).failed
    ensures KeepsUp(s, dataset, Step(o, c, plan, shared, g, q))
  {
    var g', e := Step(o, c, plan, shared, g, q), Execute(o, c, g.state, q);
    if g'.appended != g.appended {
      assert g'.appended == g.appended + [e.record] && g'.appended[..|g'.appended| - 1] == g.appended;
      RecordUpkeep(o, g.state, dataset, e.record);
    }
  }

  lemma {:induction false} StepsKeepUp(o: Options, c: Codec, plan: Plan, shared: bool, s: State, qs: seq<Request>,
      dataset: nat)
    requires !Steps(o, c, plan, shared, s, qs).failed
    ensures KeepsUp(s, dataset, Steps(o, c, plan, shared, s, qs))
  {
    if qs != [] {
      var front := Steps(o, c, plan, shared, s, qs[..|qs| - 1]);
      StepExtends(o, c, plan, shared, front, qs[|qs| - 1]);
      StepsKeepUp(o, c, plan, shared, s, qs[..|qs| - 1], dataset);
      StepKeepsUp(o, c, plan, shared, s, front, qs[|qs| - 1], dataset);
    }
  }

  lemma GroupKeepsUp(o: Options, c: Codec, y: Sys, e: Event, dataset: nat)
    requires e.CommitGroup? && !Next(o, c, y, e).poisoned
    ensures var y' := Next(o, c, y, e);
            && !y.poisoned && y.history <= y'.history
            && UpkeepRecords(Rebuilt(y.state.records, dataset), dataset, y'.history[|y.history|..])
            == Rebuilt(y'.state.records, dataset)
  {
    var y' := Next(o, c, y, e);
    if y' != y {
      var g := Steps(o, c, e.plan, |e.requests| > 1, y.state, e.requests);
      StepsKeepUp(o, c, e.plan, |e.requests| > 1, y.state, e.requests, dataset);
      assert y'.history[|y.history|..] == g.appended;
    } else {
      assert y.history[|y.history|..] == [];
    }
  }

  // The list a running store keeps: rebuilt when it is opened, and kept up with what each group
  // adds to the history.
  ghost function Kept(o: Options, c: Codec, es: seq<Event>, dataset: nat): seq<Bytes>
  {
    if es == [] then []
    else
      var front, e := es[..|es| - 1], es[|es| - 1];
      var y, y', keys := Run(o, c, front), Run(o, c, es), Kept(o, c, front, dataset);
      match e
      case Reopen => if y'.poisoned then keys else Rebuilt(y'.state.records, dataset)
      case CommitGroup(_, _) => if |y.history| > |y'.history| then keys
          else UpkeepRecords(keys, dataset, y'.history[|y.history|..])
      case _ => keys
  }

  /** After any run, whatever was committed, crashed and reopened, the lists of a store that is open are
      strictly ascending and hold exactly the keys of its live records. */
  lemma {:induction false} KeptIsRebuilt(o: Options, c: Codec, es: seq<Event>, dataset: nat)
    requires !Run(o, c, es).poisoned
    ensures Kept(o, c, es, dataset) == Rebuilt(Run(o, c, es).state.records, dataset)
    ensures ListOk(Kept(o, c, es, dataset), Run(o, c, es).state.records, dataset)
    decreases |es|
  {
    RebuiltIs(Run(o, c, es).state.records, dataset);
    if es == [] {
      ListIsRebuilt([], map[], dataset);
    } else {
      var front, e := es[..|es| - 1], es[|es| - 1];
      match e
      case Reopen =>
      case Crash(_, _, _) =>
        CrashCloses(o, c, Run(o, c, front), e);
        KeptIsRebuilt(o, c, front, dataset);
      case TakeSnapshot(_) =>
        SnapshotShowsSame(o, c, Run(o, c, front), e);
        KeptIsRebuilt(o, c, front, dataset);
      case CommitGroup(_, _) =>
        GroupKeepsUp(o, c, Run(o, c, front), e, dataset);
        KeptIsRebuilt(o, c, front, dataset);
    }
  }

  lemma CrashCloses(o: Options, c: Codec, y: Sys, e: Event)
    requires e.Crash? && !Next(o, c, y, e).poisoned
    ensures Next(o, c, y, e) == y && !y.poisoned
  {}

  lemma SnapshotShowsSame(o: Options, c: Codec, y: Sys, e: Event)
    requires e.TakeSnapshot? && !Next(o, c, y, e).poisoned
    ensures !y.poisoned && Next(o, c, y, e).state == y.state
  {}
}
