/** The verdict on a job, said of the gates themselves: each gate of the job's kind is
    asked, and so is the implicit one. */
module Verdicts {
  import opened Types
  import opened Gate
  import opened Driver

  predicate Over(s: State, id: JobId) {
    id in s.phases && (s.phases[id].Succeeded? || s.phases[id].Skipped? || s.phases[id].Deadlettered?)
  }

  lemma KindOutcomesAre(env: Env, s: State, id: JobId)
    ensures |KindOutcomes(env, s, id)| == |env.GatesOf(id)|
    ensures forall i | 0 <= i < |env.GatesOf(id)| :: KindOutcomes(env, s, id)[i] == env.GatesOf(id)[i](id, s.phases, s.now)
  {
  }

  lemma UpstreamsAre(env: Env, s: State, id: JobId)
    ensures var edges, verdict := env.graph.edges, UpstreamVerdict(env.graph.Predecessors(id), s.phases);
            && (verdict.NoClaim? <==> forall u :: (u, id) !in edges)
            && (verdict.Wait? <==> exists u :: (u, id) in edges && !Over(s, u))
            && !verdict.Skip?
  {
    var ups := env.graph.Predecessors(id);
    forall u ensures u in ups <==> (u, id) in env.graph.edges {}
    if ups != {} {
      var u :| u in ups;
      assert (u, id) in env.graph.edges;
    }
  }

  /** A skip of any gate decides. Otherwise the job waits
      exactly where a gate waits or a predecessor is not over; it is let through on a
      claim exactly where some gate passes or there is a predecessor; and without any
      claim where there is neither. */
  lemma VerdictMeaning(env: Env, s: State, id: JobId)
    ensures var gates, edges := env.GatesOf(id), env.graph.edges;
            var skips := exists i :: 0 <= i < |gates| && gates[i](id, s.phases, s.now).Skip?;
            var waits := || (exists i :: 0 <= i < |gates| && gates[i](id, s.phases, s.now).Wait?)
                         || (exists u :: (u, id) in edges && !Over(s, u));
            var passes := || (exists i :: 0 <= i < |gates| && gates[i](id, s.phases, s.now).Pass?)
                          || (exists u :: (u, id) in edges);
            var verdict := GateVerdict(env, s, id);
            && (verdict.SkippedBy? <==> skips)
            && (verdict.SomeWaiting? <==> !skips && waits)
            && (verdict.AllPassed? <==> !skips && !waits && passes)
            && (verdict.Vacuous? <==> !skips && !waits && !passes)
  {
    var upstreams := UpstreamVerdict(env.graph.Predecessors(id), s.phases);
    var asked := KindOutcomes(env, s, id);
    var outcomes := [upstreams] + asked;
    UpstreamsAre(env, s, id);
    KindOutcomesAre(env, s, id);
    AggregateMeaning(outcomes);
    hide Aggregate, UpstreamVerdict, KindOutcomes, Over;
    assert GateVerdict(env, s, id) == Aggregate(outcomes);
    forall i | 0 <= i < |asked| ensures outcomes[i + 1] == env.GatesOf(id)[i](id, s.phases, s.now) {}
    forall o
      ensures o in outcomes <==>
                o == upstreams || exists i :: 0 <= i < |asked| && env.GatesOf(id)[i](id, s.phases, s.now) == o
    {
      if o in outcomes && o != upstreams {
        var k :| 0 <= k < |outcomes| && outcomes[k] == o;
        assert env.GatesOf(id)[k - 1](id, s.phases, s.now) == o;
      }
    }
  }

  /** The reason of a skip is that of the first gate that skips. */
  lemma VerdictReason(env: Env, s: State, id: JobId, i: nat)
    requires i < |env.GatesOf(id)| && env.GatesOf(id)[i](id, s.phases, s.now).Skip?
    requires forall j | 0 <= j < i :: !env.GatesOf(id)[j](id, s.phases, s.now).Skip?
    ensures GateVerdict(env, s, id) == SkippedBy(env.GatesOf(id)[i](id, s.phases, s.now).reason)
  {
    var upstreams := UpstreamVerdict(env.graph.Predecessors(id), s.phases);
    var outcomes := [upstreams] + KindOutcomes(env, s, id);
    KindOutcomesAre(env, s, id);
    UpstreamsAre(env, s, id);
    AggregateMeaning(outcomes);
    hide Aggregate, UpstreamVerdict, KindOutcomes;
    forall j | 0 <= j < i + 1 ensures !outcomes[j].Skip? {
      assert j > 0 ==> outcomes[j] == env.GatesOf(id)[j - 1](id, s.phases, s.now);
    }
    assert outcomes[i + 1].Skip?;
  }

  /** The number in a passing verdict: one for each gate that passes, and one for the
      predecessors where there are any. */
  lemma VerdictCount(env: Env, s: State, id: JobId)
    requires GateVerdict(env, s, id).AllPassed?
    ensures var passing := set i | 0 <= i < |env.GatesOf(id)| && env.GatesOf(id)[i](id, s.phases, s.now).Pass?;
            GateVerdict(env, s, id).gates == |passing| + if exists u :: (u, id) in env.graph.edges then 1 else 0
  {
    var upstreams := UpstreamVerdict(env.graph.Predecessors(id), s.phases);
    var asked := KindOutcomes(env, s, id);
    VerdictMeaning(env, s, id);
    UpstreamsAre(env, s, id);
    KindOutcomesAre(env, s, id);
    hide Aggregate, UpstreamVerdict, KindOutcomes, Over;
    AggregateMeaning([upstreams] + asked);
    PassingShifted(upstreams, asked);
    assert PassedAt(asked) == set i | 0 <= i < |env.GatesOf(id)| && env.GatesOf(id)[i](id, s.phases, s.now).Pass?;
  }

  lemma PassingShifted(first: GateOutcome, rest: seq<GateOutcome>)
    ensures |PassedAt([first] + rest)| == |PassedAt(rest)| + if first.Pass? then 1 else 0
  {
    PassesCounted([first] + rest);
    PassesCounted(rest);
  }
}
