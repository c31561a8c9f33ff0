/** Gate verdicts and their reduction to one aggregate. */
module Gate {
  import opened Types

  datatype GateOutcome = Pass | NoClaim | Wait | Skip(reason: SkipReason)

  /** The aggregate of a cohort of verdicts, by first skip, any wait, count of passes. */
  function Aggregate(outcomes: seq<GateOutcome>): GateAggregate {
    if FirstSkip(outcomes).Some? then SkippedBy(FirstSkip(outcomes).value)
    else if Wait in outcomes then SomeWaiting
    else if Passes(outcomes) == 0 then Vacuous
    else AllPassed(Passes(outcomes))
  }

  function FirstSkip(outcomes: seq<GateOutcome>): Option<SkipReason> {
    if outcomes == [] then None
    else if outcomes[0].Skip? then Some(outcomes[0].reason)
    else FirstSkip(outcomes[1..])
  }

  function Passes(outcomes: seq<GateOutcome>): nat {
    multiset(outcomes)[Pass]
  }

  /** The skip that counts is the one no other skip precedes. */
  lemma {:induction false} FirstSkipAt(outcomes: seq<GateOutcome>, i: nat)
    requires i < |outcomes| && outcomes[i].Skip?
    requires forall j | 0 <= j < i :: !outcomes[j].Skip?
    ensures FirstSkip(outcomes) == Some(outcomes[i].reason)
  {
    if i > 0 {
      FirstSkipAt(outcomes[1..], i - 1);
    }
  }

  lemma {:induction false} FirstSkipNone(outcomes: seq<GateOutcome>)
    ensures FirstSkip(outcomes) == None <==> forall o | o in outcomes :: !o.Skip?
  {
    if outcomes != [] {
      FirstSkipNone(outcomes[1..]);
      assert forall o :: o in outcomes <==> o == outcomes[0] || o in outcomes[1..];
    }
  }

  /** The positions of the passes. */
  function PassedAt(outcomes: seq<GateOutcome>): set<nat> {
    set i | 0 <= i < |outcomes| && outcomes[i].Pass?
  }

  lemma {:induction false} PassesCounted(outcomes: seq<GateOutcome>)
    ensures Passes(outcomes) == |PassedAt(outcomes)|
    decreases |outcomes|
  {
    if outcomes == [] {
      assert PassedAt(outcomes) == {};
    } else {
      var last := |outcomes| - 1;
      PassesCounted(outcomes[..last]);
      assert outcomes == outcomes[..last] + [outcomes[last]];
      assert PassedAt(outcomes) == PassedAt(outcomes[..last]) + if outcomes[last].Pass? then {last} else {};
    }
  }

  /** Worst outcome wins, a skip with the reason of the first one, and a pass is claimed
      only on the evidence of passes, of which it gives the number. */
  lemma AggregateMeaning(outcomes: seq<GateOutcome>)
    ensures Aggregate(outcomes).SkippedBy? <==> exists o :: o in outcomes && o.Skip?
    ensures forall i | 0 <= i < |outcomes| && outcomes[i].Skip? && (forall j | 0 <= j < i :: !outcomes[j].Skip?) ::
              Aggregate(outcomes) == SkippedBy(outcomes[i].reason)
    ensures Aggregate(outcomes).SomeWaiting? <==> Wait in outcomes && forall o | o in outcomes :: !o.Skip?
    ensures Aggregate(outcomes).AllPassed? <==>
            Pass in outcomes && forall o | o in outcomes :: o.Pass? || o.NoClaim?
    ensures Aggregate(outcomes).Vacuous? <==> forall o | o in outcomes :: o.NoClaim?
    ensures Aggregate(outcomes).AllPassed? ==> Aggregate(outcomes).gates == |PassedAt(outcomes)| > 0
  {
    FirstSkipNone(outcomes);
    PassesCounted(outcomes);
    assert Pass in outcomes <==> Pass in multiset(outcomes);
    forall i | 0 <= i < |outcomes| && outcomes[i].Skip? && (forall j | 0 <= j < i :: !outcomes[j].Skip?)
      ensures Aggregate(outcomes) == SkippedBy(outcomes[i].reason)
    {
      FirstSkipAt(outcomes, i);
    }
  }

  /** The reduction loop. */
  method Reduce(outcomes: seq<GateOutcome>) returns (aggregate: GateAggregate)
    ensures aggregate == Aggregate(outcomes)
  {
    var anyWait := false;
    var passed: nat := 0;
    for i := 0 to |outcomes|
      invariant FirstSkip(outcomes) == FirstSkip(outcomes[i..])
      invariant anyWait <==> Wait in outcomes[..i]
      invariant passed == Passes(outcomes[..i])
    {
      assert outcomes[i..][1..] == outcomes[i + 1..];
      assert outcomes[..i + 1] == outcomes[..i] + [outcomes[i]];
      match outcomes[i]
      case Skip(reason) => return SkippedBy(reason);
      case Wait => anyWait := true;
      case Pass => passed := passed + 1;
      case NoClaim =>
    }
    assert outcomes[..|outcomes|] == outcomes;
    if anyWait {
      return SomeWaiting;
    }
    return if passed == 0 then Vacuous else AllPassed(passed);
  }

  /** The implicit gate, as a function of the set of direct predecessors. */
  function UpstreamVerdict(upstreams: set<JobId>, phases: Phases): GateOutcome {
    if upstreams == {} then NoClaim
    else if forall u | u in upstreams :: PhaseIn(phases, u).Terminal() then Pass
    else Wait
  }

  /** The implicit gate over the predecessor list the graph hands out. */
  method AllUpstreamsTerminal(predecessors: seq<JobId>, phases: Phases) returns (verdict: GateOutcome)
    ensures verdict == UpstreamVerdict(Members(predecessors), phases)
    ensures verdict.NoClaim? <==> predecessors == []
    ensures verdict.Wait? <==>
              exists u :: u in predecessors
                && !(u in phases && (phases[u].Succeeded? || phases[u].Skipped? || phases[u].Deadlettered?))
    ensures !verdict.Skip?
  {
    var examined: nat := 0;
    for i := 0 to |predecessors|
      invariant examined == i
      invariant forall j | 0 <= j < i :: PhaseIn(phases, predecessors[j]).Terminal()
    {
      if !PhaseIn(phases, predecessors[i]).Terminal() {
        assert predecessors[i] in Members(predecessors);
        return Wait;
      }
      examined := examined + 1;
    }
    if examined == 0 {
      return NoClaim;
    }
    assert predecessors[0] in Members(predecessors);
    return Pass;
  }
}
