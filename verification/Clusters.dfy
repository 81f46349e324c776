/** The running pipeline as an object: one party's own steps, and whatever everybody else does in between. */
module Clusters {
  import opened Domain
  import opened BookingDb
  import opened RelayLog
  import opened Delivery
  import opened Pipeline

  // The step is one of the ProcessBatch call `r` itself. Its writes are not: the writer may repeat them at will.
  predicate OfCall(step: Step, r: nat) {
    && step.OnRelay?
    && match step.relayStep
       case Select(q, _) => q == r
       case Finish(q) => q == r
       case Release(q) => q == r
       case Write(_, _, _) => false
  }

  ghost predicate OthersRun(cfg: Config, s: State, s': State, r: nat)
    requires cfg.Valid()
  {
    exists steps :: Traces(cfg, s, steps, s') && NoneOfCall(steps, r)
  }

  ghost predicate NoneOfCall(steps: seq<Step>, r: nat) {
    forall i :: 0 <= i < |steps| ==> !OfCall(steps[i], r)
  }

  // The batch keeps its rows and its lock; more of its partitions may have been written.
  ghost predicate BatchKept(batches: map<nat, Batch>, batches': map<nat, Batch>, r: nat) {
    && (r in batches <==> r in batches')
    && (r in batches ==> batches'[r] == batches[r].(written := batches'[r].written)
                         && batches[r].written <= batches'[r].written)
  }

  lemma StepKeepsBatch(cfg: Config, s: State, step: Step, r: nat)
    requires cfg.Valid() && CanStep(cfg, s, step) && !OfCall(step, r)
    ensures BatchKept(s.relay.batches, Next(cfg, s, step).relay.batches, r)
  {
  }

  lemma {:induction false} RunKeepsBatch(cfg: Config, s: State, steps: seq<Step>, s': State, r: nat)
    requires cfg.Valid() && Traces(cfg, s, steps, s') && NoneOfCall(steps, r)
    ensures BatchKept(s.relay.batches, s'.relay.batches, r)
    decreases |steps|
  {
    if steps != [] {
      StepKeepsBatch(cfg, s, steps[0], r);
      RunKeepsBatch(cfg, Next(cfg, s, steps[0]), steps[1..], s', r);
    }
  }

  // Some run leads from `s` to `s'`; of relay steps only, if nobody else takes part.
  ghost predicate Ran(cfg: Config, s: State, s': State, alone: bool)
    requires cfg.Valid()
  {
    exists steps :: Traces(cfg, s, steps, s') && (alone ==> OnlyRelays(steps))
  }

  ghost predicate OnlyRelays(steps: seq<Step>) {
    forall i :: 0 <= i < |steps| ==> steps[i].OnRelay?
  }

  lemma RanNothing(cfg: Config, s: State, alone: bool)
    requires cfg.Valid()
    ensures Ran(cfg, s, s, alone)
  {
    assert Traces(cfg, s, [], s) && OnlyRelays([]);
  }

  lemma RanStep(cfg: Config, s: State, step: Step, alone: bool)
    requires cfg.Valid() && CanStep(cfg, s, step) && (alone ==> step.OnRelay?)
    ensures Ran(cfg, s, Next(cfg, s, step), alone)
  {
    assert [step][1..] == [];
    assert Traces(cfg, s, [step], Next(cfg, s, step));
    assert alone ==> OnlyRelays([step]);
  }

  lemma RanOn(cfg: Config, s: State, mid: State, s': State, alone: bool)
    requires cfg.Valid() && Ran(cfg, s, mid, alone) && Ran(cfg, mid, s', alone)
    ensures Ran(cfg, s, s', alone)
  {
    var steps :| Traces(cfg, s, steps, mid) && (alone ==> OnlyRelays(steps));
    var more :| Traces(cfg, mid, more, s') && (alone ==> OnlyRelays(more));
    TracesCompose(cfg, s, steps, mid, more, s');
    assert alone ==> OnlyRelays(steps + more);
  }

  // So nothing goes backwards.
  lemma RanProgresses(cfg: Config, s: State, s': State, alone: bool)
    requires cfg.Valid() && ReachableState(cfg, s) && Ran(cfg, s, s', alone)
    ensures ReachableState(cfg, s') && Progress(s, s')
  {
    var steps :| Traces(cfg, s, steps, s');
    RunsStayReachable(cfg, s, steps, s');
    ReachableInv(cfg, s);
    RunsKeepInv(cfg, s, steps, s');
  }

  // Whatever everybody else does, the state stays reachable, nothing goes backwards and the batch is kept.
  lemma OthersAreSafe(cfg: Config, s: State, s': State, r: nat)
    requires cfg.Valid() && ReachableState(cfg, s) && OthersRun(cfg, s, s', r)
    ensures ReachableState(cfg, s') && Progress(s, s')
    ensures BatchKept(s.relay.batches, s'.relay.batches, r)
  {
    var steps :| Traces(cfg, s, steps, s') && NoneOfCall(steps, r);
    RunsStayReachable(cfg, s, steps, s');
    ReachableInv(cfg, s);
    RunsKeepInv(cfg, s, steps, s');
    RunKeepsBatch(cfg, s, steps, s', r);
  }

  class Cluster {
    const cfg: Config
    var s: State
    // The batches whose mark has been committed.
    ghost var finished: set<nat>

    constructor (cfg: Config)
      requires cfg.Valid()
      ensures Valid() && this.cfg == cfg && s == Init(cfg) && finished == {}
    {
      this.cfg := cfg;
      this.s := Init(cfg);
      this.finished := {};
      new;
      assert Traces(cfg, Init(cfg), [], s);
    }

    ghost predicate Valid()
      reads this
    {
      cfg.Valid() && ReachableState(cfg, s)
    }

    method Do(step: Step)
      requires Valid() && CanStep(cfg, s, step)
      modifies this
      ensures Valid() && s == Next(cfg, old(s), step)
      ensures Ran(cfg, old(s), s, false) && (step.OnRelay? ==> Ran(cfg, old(s), s, true))
      ensures finished == if step.OnRelay? && step.relayStep.Finish? then old(finished) + {step.relayStep.r}
                          else old(finished)
    {
      NextIsReachable(cfg, s, step);
      RanStep(cfg, s, step, false);
      RanStep(cfg, s, step, step.OnRelay?);
      s := Next(cfg, s, step);
      finished := if step.OnRelay? && step.relayStep.Finish? then finished + {step.relayStep.r} else finished;
    }

    // Anything everybody else can do while call `r` pauses; nothing if the caller is alone.
    method Havoc(ghost r: nat, ghost alone: bool)
      requires cfg.Valid()
      modifies this
      ensures OthersRun(cfg, old(s), s, r) && (alone ==> s == old(s))
      ensures r in finished <==> r in old(finished)
    {
      assert Traces(cfg, s, [], s) && NoneOfCall([], r);
    }

    method Others(ghost r: nat, ghost alone: bool)
      requires Valid()
      modifies this
      ensures Valid() && Ran(cfg, old(s), s, alone) && (alone ==> s == old(s))
      ensures OthersRun(cfg, old(s), s, r)
      ensures BatchKept(old(s.relay.batches), s.relay.batches, r)
      ensures r in finished <==> r in old(finished)
    {
      Havoc(r, alone);
      OthersAreSafe(cfg, old(s), s, r);
      RanNothing(cfg, old(s), true);
    }

    method HavocAll(ghost alone: bool)
      requires cfg.Valid()
      modifies this
      ensures Ran(cfg, old(s), s, alone) && (alone ==> s == old(s))
    {
      RanNothing(cfg, s, alone);
    }

    // The same between two calls: anyone may take any steps.
    method Anyone(ghost alone: bool)
      requires Valid()
      modifies this
      ensures Valid() && Ran(cfg, old(s), s, alone) && (alone ==> s == old(s))
    {
      HavocAll(alone);
      RanProgresses(cfg, old(s), s, alone);
    }
  }
}
