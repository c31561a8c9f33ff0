/** Dependency safety: nothing runs before everything it directly depends on is
    over, and nothing at all upstream is pending unless a skip cut it off. */
module Dependencies {
  import opened Types
  import opened Gate
  import opened Driver
  import opened Machine
  import opened Interference
  import opened LogHistory

  /** Phases a job reaches only through passed gates. */
  predicate PastGates(phase: JobPhase) {
    phase.Ready? || phase.Running? || phase.Failed? || phase.Retrying? || phase.Succeeded? || phase.Deadlettered?
  }

  predicate UpstreamsOver(graph: Graph, s: State, id: JobId) {
    forall u | u in graph.Predecessors(id) :: s.PhaseOf(u).Terminal()
  }

  /** Every job past its gates has all its direct predecessors over, and so has a
      job whose gates have just let it through. */
  ghost predicate Ordered(env: Env, m: Mach) {
    && (forall id :: PastGates(m.s.PhaseOf(id)) ==> UpstreamsOver(env.graph, m.s, id))
    && (m.pc.Armed? && m.pc.signal.EvaluateGates? && AfterGates(m.pc.signal.aggregate).Ready? ==>
          UpstreamsOver(env.graph, m.s, m.pc.id))
  }

  /** The implicit gate is part of every verdict. */
  lemma VerdictNeedsUpstreams(env: Env, s: State, id: JobId)
    requires AfterGates(GateVerdict(env, s, id)).Ready?
    ensures UpstreamsOver(env.graph, s, id)
  {
    var outcomes := [UpstreamVerdict(env.graph.Predecessors(id), s.phases)] + KindOutcomes(env, s, id);
    AggregateMeaning(outcomes);
    assert outcomes[0] in outcomes;
  }

  /** Without an operator, a job that is over stays over. */
  lemma TerminalStays(env: Env, m: Mach, step: Step, id: JobId)
    requires Remembers(m) && Next(env, m, step).Some? && !step.FromOperator()
    requires m.s.PhaseOf(id).Terminal()
    ensures Next(env, m, step).value.s.PhaseOf(id) == m.s.PhaseOf(id)
  {
    StepEffect(env, m, step);
  }

  lemma OrderedKept(env: Env, m: Mach, step: Step)
    requires Remembers(m) && Ordered(env, m)
    requires Next(env, m, step).Some? && !step.FromOperator()
    ensures Ordered(env, Next(env, m, step).value)
  {
    var m' := Next(env, m, step).value;
    StepEffect(env, m, step);
    forall id | UpstreamsOver(env.graph, m.s, id) ensures UpstreamsOver(env.graph, m'.s, id) {
      forall u | u in env.graph.Predecessors(id) ensures m'.s.PhaseOf(u).Terminal() {
        TerminalStays(env, m, step, u);
      }
    }
    if step.Choose? && m'.pc.Armed? && m'.pc.signal.EvaluateGates? && AfterGates(m'.pc.signal.aggregate).Ready? {
      VerdictNeedsUpstreams(env, m.s, m.pc.id);
      assert UpstreamsOver(env.graph, m'.s, m'.pc.id);
    }
    forall id | PastGates(m'.s.PhaseOf(id)) ensures UpstreamsOver(env.graph, m'.s, id) {
      assert UpstreamsOver(env.graph, m.s, id);
    }
  }

  predicate NoOperator(steps: seq<Step>) {
    forall i | 0 <= i < |steps| :: !steps[i].FromOperator()
  }

  lemma {:induction false} RunOrdered(env: Env, m: Mach, steps: seq<Step>)
    requires Remembers(m) && Ordered(env, m) && Run(env, m, steps).Some? && NoOperator(steps)
    ensures Ordered(env, Run(env, m, steps).value)
    decreases |steps|
  {
    if steps != [] {
      RememberingStep(env, m, steps);
      OrderedKept(env, m, steps[0]);
      RunOrdered(env, Next(env, m, steps[0]).value, steps[1..]);
    }
  }

  /** Over every run without operator moves from a fresh scheduler, a job past its
      gates has all its direct predecessors over. */
  lemma DependencySafety(env: Env, s0: State, steps: seq<Step>, id: JobId)
    requires Fresh(s0) && Run(env, Mach(s0, Idle), steps).Some? && NoOperator(steps)
    ensures var s := Run(env, Mach(s0, Idle), steps).value.s;
            PastGates(s.PhaseOf(id)) ==> UpstreamsOver(env.graph, s, id)
  {
    RunOrdered(env, Mach(s0, Idle), steps);
  }

  /** `chain` follows edges of the graph downwards. */
  predicate IsChain(graph: Graph, chain: seq<JobId>) {
    forall i | 0 <= i < |chain| - 1 :: (chain[i], chain[i + 1]) in graph.edges
  }

  /** The lift to all ancestors: along a chain of dependencies on which nothing
      between the ends was skipped, the far end is over too. */
  lemma {:induction false} AncestorsOver(env: Env, m: Mach, chain: seq<JobId>)
    requires Ordered(env, m)
    requires |chain| >= 2 && IsChain(env.graph, chain)
    requires PastGates(m.s.PhaseOf(chain[|chain| - 1]))
    requires forall i | 0 < i < |chain| - 1 :: !m.s.PhaseOf(chain[i]).Skipped?
    ensures m.s.PhaseOf(chain[0]).Terminal()
    decreases |chain|
  {
    var last := |chain| - 1;
    assert (chain[last - 1], chain[last]) in env.graph.edges;
    assert chain[last - 1] in env.graph.Predecessors(chain[last]);
    if |chain| > 2 {
      AncestorsOver(env, m, chain[..last]);
    }
  }

  lemma AncestorSafety(env: Env, s0: State, steps: seq<Step>, chain: seq<JobId>)
    requires Fresh(s0) && Run(env, Mach(s0, Idle), steps).Some? && NoOperator(steps)
    requires |chain| >= 2 && IsChain(env.graph, chain)
    ensures var s := Run(env, Mach(s0, Idle), steps).value.s;
            PastGates(s.PhaseOf(chain[|chain| - 1]))
            && (forall i | 0 < i < |chain| - 1 :: !s.PhaseOf(chain[i]).Skipped?) ==>
              s.PhaseOf(chain[0]).Terminal()
  {
    RunOrdered(env, Mach(s0, Idle), steps);
    var m := Run(env, Mach(s0, Idle), steps).value;
    if PastGates(m.s.PhaseOf(chain[|chain| - 1]))
       && forall i | 0 < i < |chain| - 1 :: !m.s.PhaseOf(chain[i]).Skipped? {
      AncestorsOver(env, m, chain);
    }
  }
}
