/** Read-only projections of the phase map: counts by phase, the published summary,
    the failure set and the jobs that need an operator. */
module Snapshot {
  import opened Types
  import opened Ordering
  import opened Dag

  function PhaseName(phase: JobPhase): string {
    match phase
    case Pending => "pending"
    case Gated => "gated"
    case Ready => "ready"
    case Running => "running"
    case Succeeded => "succeeded"
    case Failed(_) => "failed"
    case Retrying(_) => "retrying"
    case Skipped(_) => "skipped"
    case Deadlettered => "deadlettered"
    case WaitingForOperator => "waiting-for-operator"
  }

  /** The jobs of `ids` in the phase of that name. */
  function Named(phases: Phases, ids: set<JobId>, name: string): set<JobId> {
    set id | id in ids && id in phases && PhaseName(phases[id]) == name
  }

  function CountOf(counts: map<string, nat>, name: string): nat {
    if name in counts then counts[name] else 0
  }

  function Tally(phases: Phases, name: string): nat {
    |Named(phases, phases.Keys, name)|
  }

  /** One increment of the counting loop. */
  lemma NamedGrows(phases: Phases, seen: set<JobId>, id: JobId, name: string)
    requires id in phases && id !in seen
    ensures |Named(phases, seen + {id}, name)| ==
            |Named(phases, seen, name)| + if PhaseName(phases[id]) == name then 1 else 0
  {
    if PhaseName(phases[id]) == name {
      assert Named(phases, seen + {id}, name) == Named(phases, seen, name) + {id};
    } else {
      assert Named(phases, seen + {id}, name) == Named(phases, seen, name);
    }
  }

  /** The right count for every phase name, and no entry for a phase nobody is in. */
  ghost predicate Counted(phases: Phases, counts: map<string, nat>) {
    && (forall name :: CountOf(counts, name) == |Named(phases, phases.Keys, name)|)
    && (forall name | name in counts :: counts[name] > 0)
  }

  /** How many jobs are in each phase; a phase nobody is in has no entry. */
  method PhaseCounts(phases: Phases) returns (counts: map<string, nat>)
    ensures Counted(phases, counts)
  {
    counts := map[];
    var todo := phases.Keys;
    while todo != {}
      invariant todo <= phases.Keys
      invariant forall name :: CountOf(counts, name) == |Named(phases, phases.Keys - todo, name)|
      invariant forall name | name in counts :: counts[name] > 0
      decreases todo
    {
      var id :| id in todo;
      var key := PhaseName(phases[id]);
      forall name
        ensures |Named(phases, phases.Keys - (todo - {id}), name)| ==
                |Named(phases, phases.Keys - todo, name)| + if key == name then 1 else 0
      {
        NamedGrows(phases, phases.Keys - todo, id, name);
        assert phases.Keys - (todo - {id}) == phases.Keys - todo + {id};
      }
      counts := counts[key := CountOf(counts, key) + 1];
      todo := todo - {id};
    }
    assert phases.Keys - {} == phases.Keys;
  }

  datatype SnapshotSummary = SnapshotSummary(
    total: nat,
    running: nat,
    pending: nat,
    failed: nat,
    retrying: nat,
    deadlettered: nat,
    waitingForOperator: nat,
    succeeded: nat,
    skipped: nat)
  {
    predicate IsIdle() {
      running == 0 && pending == 0
    }

    function NeedsAttention(): nat {
      failed + retrying + deadlettered + waitingForOperator
    }
  }

  /** Each name is the name of one phase and of no other. */
  lemma PhaseNamesTell(phase: JobPhase)
    ensures PhaseName(phase) == "running" <==> phase.Running?
    ensures PhaseName(phase) == "pending" <==> phase.Pending?
    ensures PhaseName(phase) == "gated" <==> phase.Gated?
    ensures PhaseName(phase) == "ready" <==> phase.Ready?
    ensures PhaseName(phase) == "failed" <==> phase.Failed?
    ensures PhaseName(phase) == "retrying" <==> phase.Retrying?
    ensures PhaseName(phase) == "deadlettered" <==> phase.Deadlettered?
    ensures PhaseName(phase) == "waiting-for-operator" <==> phase.WaitingForOperator?
    ensures PhaseName(phase) == "succeeded" <==> phase.Succeeded?
    ensures PhaseName(phase) == "skipped" <==> phase.Skipped?
  {
  }

  lemma NamesTell()
    ensures forall phase :: PhaseName(phase) == "running" <==> phase.Running?
    ensures forall phase :: PhaseName(phase) == "pending" <==> phase.Pending?
    ensures forall phase :: PhaseName(phase) == "gated" <==> phase.Gated?
    ensures forall phase :: PhaseName(phase) == "ready" <==> phase.Ready?
    ensures forall phase :: PhaseName(phase) == "failed" <==> phase.Failed?
    ensures forall phase :: PhaseName(phase) == "retrying" <==> phase.Retrying?
    ensures forall phase :: PhaseName(phase) == "deadlettered" <==> phase.Deadlettered?
    ensures forall phase :: PhaseName(phase) == "waiting-for-operator" <==> phase.WaitingForOperator?
    ensures forall phase :: PhaseName(phase) == "succeeded" <==> phase.Succeeded?
    ensures forall phase :: PhaseName(phase) == "skipped" <==> phase.Skipped?
  {
    forall phase
      ensures PhaseName(phase) == "running" <==> phase.Running?
      ensures PhaseName(phase) == "pending" <==> phase.Pending?
      ensures PhaseName(phase) == "gated" <==> phase.Gated?
      ensures PhaseName(phase) == "ready" <==> phase.Ready?
      ensures PhaseName(phase) == "failed" <==> phase.Failed?
      ensures PhaseName(phase) == "retrying" <==> phase.Retrying?
      ensures PhaseName(phase) == "deadlettered" <==> phase.Deadlettered?
      ensures PhaseName(phase) == "waiting-for-operator" <==> phase.WaitingForOperator?
      ensures PhaseName(phase) == "succeeded" <==> phase.Succeeded?
      ensures PhaseName(phase) == "skipped" <==> phase.Skipped?
    {
      PhaseNamesTell(phase);
    }
  }

  function JobsWith(phases: Phases, kind: JobPhase -> bool): set<JobId> {
    set id | id in phases && kind(phases[id])
  }

  /** The tally of a name is the number of jobs in its phase. */
  lemma TallyMeans(phases: Phases, name: string, kind: JobPhase -> bool)
    requires forall phase :: PhaseName(phase) == name <==> kind(phase)
    ensures Tally(phases, name) == |JobsWith(phases, kind)|
  {
    assert Named(phases, phases.Keys, name) == JobsWith(phases, kind);
  }

  function Hit(phase: JobPhase, name: string): nat {
    if PhaseName(phase) == name then 1 else 0
  }

  lemma OneName(phase: JobPhase)
    ensures 1 == Hit(phase, "running") + Hit(phase, "pending") + Hit(phase, "gated") + Hit(phase, "ready")
                 + Hit(phase, "failed") + Hit(phase, "retrying") + Hit(phase, "deadlettered")
                 + Hit(phase, "waiting-for-operator") + Hit(phase, "succeeded") + Hit(phase, "skipped")
  {
  }

  lemma HitGrows(phases: Phases, ids: set<JobId>, id: JobId, name: string)
    requires id in ids && id in phases
    ensures |Named(phases, ids, name)| == |Named(phases, ids - {id}, name)| + Hit(phases[id], name)
  {
    NamedGrows(phases, ids - {id}, id, name);
    assert ids - {id} + {id} == ids;
  }

  /** Every job is counted under exactly one name. */
  lemma {:induction false} TalliesAddUp(phases: Phases, ids: set<JobId>)
    requires ids <= phases.Keys
    ensures |ids| ==
            |Named(phases, ids, "running")| + |Named(phases, ids, "pending")| + |Named(phases, ids, "gated")|
            + |Named(phases, ids, "ready")| + |Named(phases, ids, "failed")| + |Named(phases, ids, "retrying")|
            + |Named(phases, ids, "deadlettered")| + |Named(phases, ids, "waiting-for-operator")|
            + |Named(phases, ids, "succeeded")| + |Named(phases, ids, "skipped")|
  {
    if ids != {} {
      var id :| id in ids;
      hide Named, Hit;
      OneName(phases[id]);
      TalliesAddUp(phases, ids - {id});
      HitGrows(phases, ids, id, "running");
      HitGrows(phases, ids, id, "pending");
      HitGrows(phases, ids, id, "gated");
      HitGrows(phases, ids, id, "ready");
      HitGrows(phases, ids, id, "failed");
      HitGrows(phases, ids, id, "retrying");
      HitGrows(phases, ids, id, "deadlettered");
      HitGrows(phases, ids, id, "waiting-for-operator");
      HitGrows(phases, ids, id, "succeeded");
      HitGrows(phases, ids, id, "skipped");
    }
  }

  /** The published summary accounts for every job, and is idle exactly when no job
      is running or waiting to run. */
  method Summary(phases: Phases) returns (summary: SnapshotSummary)
    ensures summary.total == |phases|
    ensures summary.total ==
            summary.running + summary.pending + summary.NeedsAttention() + summary.succeeded + summary.skipped
    ensures summary.running == |JobsWith(phases, (p: JobPhase) => p.Running?)|
    ensures summary.pending ==
            |JobsWith(phases, (p: JobPhase) => p.Pending?)| + |JobsWith(phases, (p: JobPhase) => p.Gated?)|
            + |JobsWith(phases, (p: JobPhase) => p.Ready?)|
    ensures summary.failed == |JobsWith(phases, (p: JobPhase) => p.Failed?)|
    ensures summary.retrying == |JobsWith(phases, (p: JobPhase) => p.Retrying?)|
    ensures summary.deadlettered == |JobsWith(phases, (p: JobPhase) => p.Deadlettered?)|
    ensures summary.waitingForOperator == |JobsWith(phases, (p: JobPhase) => p.WaitingForOperator?)|
    ensures summary.succeeded == |JobsWith(phases, (p: JobPhase) => p.Succeeded?)|
    ensures summary.skipped == |JobsWith(phases, (p: JobPhase) => p.Skipped?)|
    ensures summary.IsIdle() <==> Quiet(phases)
  {
    hide Counted, CountOf, Tally, Quiet, JobsWith, PhaseName;
    var counts := PhaseCounts(phases);
    NamesTell();
    var running := Count(phases, counts, "running", (p: JobPhase) => p.Running?);
    var pending := Count(phases, counts, "pending", (p: JobPhase) => p.Pending?);
    var gated := Count(phases, counts, "gated", (p: JobPhase) => p.Gated?);
    var ready := Count(phases, counts, "ready", (p: JobPhase) => p.Ready?);
    var failed := Count(phases, counts, "failed", (p: JobPhase) => p.Failed?);
    var retrying := Count(phases, counts, "retrying", (p: JobPhase) => p.Retrying?);
    var deadlettered := Count(phases, counts, "deadlettered", (p: JobPhase) => p.Deadlettered?);
    var waiting := Count(phases, counts, "waiting-for-operator", (p: JobPhase) => p.WaitingForOperator?);
    var succeeded := Count(phases, counts, "succeeded", (p: JobPhase) => p.Succeeded?);
    var skipped := Count(phases, counts, "skipped", (p: JobPhase) => p.Skipped?);
    summary := SnapshotSummary(
      |phases|, running, pending + gated + ready, failed, retrying, deadlettered, waiting, succeeded, skipped);
    AllTallied(phases);
    IdleMeaning(phases);
  }

  method Count(phases: Phases, counts: map<string, nat>, name: string, ghost kind: JobPhase -> bool) returns (n: nat)
    requires Counted(phases, counts) && forall phase :: PhaseName(phase) == name <==> kind(phase)
    ensures n == Tally(phases, name) == |JobsWith(phases, kind)|
  {
    n := CountOf(counts, name);
    TallyMeans(phases, name, kind);
  }

  lemma AllTallied(phases: Phases)
    ensures |phases| ==
            Tally(phases, "running") + Tally(phases, "pending") + Tally(phases, "gated") + Tally(phases, "ready")
            + Tally(phases, "failed") + Tally(phases, "retrying") + Tally(phases, "deadlettered")
            + Tally(phases, "waiting-for-operator") + Tally(phases, "succeeded") + Tally(phases, "skipped")
  {
    hide Named;
    TalliesAddUp(phases, phases.Keys);
  }

  /** No job is running or on its way to run. */
  predicate Quiet(phases: Phases) {
    forall id | id in phases ::
      !phases[id].Running? && !phases[id].Pending? && !phases[id].Gated? && !phases[id].Ready?
  }

  lemma IdleMeaning(phases: Phases)
    ensures Tally(phases, "running") + Tally(phases, "pending") + Tally(phases, "gated") + Tally(phases, "ready") == 0
            <==> Quiet(phases)
  {
    forall id | id in phases ensures id in Named(phases, phases.Keys, PhaseName(phases[id])) {}
    if Quiet(phases) {
      assert Named(phases, phases.Keys, "running") == {};
      assert Named(phases, phases.Keys, "pending") == {};
      assert Named(phases, phases.Keys, "gated") == {};
      assert Named(phases, phases.Keys, "ready") == {};
    }
  }

  /** The jobs that are failing, for a reader who does not want to wait for a deadletter. */
  method FailureSet(phases: Phases) returns (failing: map<JobId, JobPhase>)
    ensures forall id :: id in failing <==>
              id in phases && (phases[id].Failed? || phases[id].Retrying? || phases[id].Deadlettered?)
    ensures forall id | id in failing :: failing[id] == phases[id]
    ensures |failing| == Tally(phases, "failed") + Tally(phases, "retrying") + Tally(phases, "deadlettered")
  {
    hide Tally;
    failing := map id | id in phases && (phases[id].Failed? || phases[id].Retrying? || phases[id].Deadlettered?)
                      :: phases[id];
    FailuresNeedAttention(phases, failing.Keys);
  }

  /** The failure set is what needs attention, except for the jobs an operator holds. */
  lemma FailuresNeedAttention(phases: Phases, failing: set<JobId>)
    requires failing == set id | id in phases
                                 && (phases[id].Failed? || phases[id].Retrying? || phases[id].Deadlettered?)
    ensures |failing| == Tally(phases, "failed") + Tally(phases, "retrying") + Tally(phases, "deadlettered")
  {
    var ids := phases.Keys;
    var failed, retrying, dead := Named(phases, ids, "failed"), Named(phases, ids, "retrying"),
                                  Named(phases, ids, "deadlettered");
    NamedMeans(phases, ids);
    assert failing == failed + retrying + dead;
  }

  lemma NamedMeans(phases: Phases, ids: set<JobId>)
    ensures forall id :: id in Named(phases, ids, "failed") <==> id in ids && id in phases && phases[id].Failed?
    ensures forall id :: id in Named(phases, ids, "retrying") <==> id in ids && id in phases && phases[id].Retrying?
    ensures forall id ::
              id in Named(phases, ids, "deadlettered") <==> id in ids && id in phases && phases[id].Deadlettered?
  {
  }

  // ----- Jobs that need an operator -----

  function UnhealedKey(id: JobId): string {
    id.kind.name + "|" + SubjectKey(id.subject)
  }

  /** How the key is spelt: kind, subject. */
  lemma UnhealedKeySpelt(scope: JobScope, kind: string, text: string)
    ensures UnhealedKey(JobId(scope, JobKindId(kind), NoSubject)) == kind + "|"
    ensures UnhealedKey(JobId(scope, JobKindId(kind), RepoSubject(text))) == kind + "|repo:" + text
    ensures UnhealedKey(JobId(scope, JobKindId(kind), OrgSubject(text))) == kind + "|org:" + text
    ensures UnhealedKey(JobId(scope, JobKindId(kind), PathSubject(text))) == kind + "|path:" + text
    ensures UnhealedKey(JobId(scope, JobKindId(kind), PinnedSubject(text))) == kind + "|pin:" + text
  {
  }

  function ByUnhealedKey(): (JobId, JobId) -> bool {
    (a, b) => LexLe(UnhealedKey(a), UnhealedKey(b))
  }

  lemma UnhealedKeyOrders()
    ensures TotalPreorder(ByUnhealedKey())
  {
    forall a: JobId, b: JobId ensures ByUnhealedKey()(a, b) || ByUnhealedKey()(b, a) {
      LexTotal(UnhealedKey(a), UnhealedKey(b));
    }
    forall a: JobId, b: JobId, c: JobId | ByUnhealedKey()(a, b) && ByUnhealedKey()(b, c)
      ensures ByUnhealedKey()(a, c)
    {
      LexTransitive(UnhealedKey(a), UnhealedKey(b), UnhealedKey(c));
    }
  }

  datatype UnhealedDrift = UnhealedDrift(jobId: JobId, phase: JobPhase)

  function JobsOf(unhealed: seq<UnhealedDrift>): seq<JobId> {
    seq(|unhealed|, i requires 0 <= i < |unhealed| => unhealed[i].jobId)
  }

  /** Exactly the jobs only an operator can move, once each, in key order, each with
      its phase. */
  ghost predicate UnhealedIn(phases: Phases, unhealed: seq<UnhealedDrift>) {
    && Distinct(JobsOf(unhealed)) && Ascending(ByUnhealedKey(), JobsOf(unhealed))
    && Members(JobsOf(unhealed)) == (set id | id in phases && phases[id].OperatorOnly())
    && forall i | 0 <= i < |unhealed| :: unhealed[i].jobId in phases && unhealed[i].phase == phases[unhealed[i].jobId]
  }

  method CollectUnhealed(phases: Phases) returns (unhealed: seq<UnhealedDrift>)
    ensures UnhealedIn(phases, unhealed)
  {
    var found: seq<JobId> := [];
    var todo := phases.Keys;
    while todo != {}
      invariant todo <= phases.Keys && Distinct(found)
      invariant forall id :: id in found <==> id in phases && id !in todo && phases[id].OperatorOnly()
      decreases todo
    {
      var id :| id in todo;
      if phases[id].OperatorOnly() {
        found := found + [id];
      }
      todo := todo - {id};
    }
    UnhealedKeyOrders();
    SortAscends(ByUnhealedKey(), found);
    var sorted := Sort(ByUnhealedKey(), found);
    DistinctReordered(found, sorted);
    forall id | id in sorted ensures id in phases && phases[id].OperatorOnly() {
      assert id in Members(sorted);
    }
    unhealed := seq(|sorted|, i requires 0 <= i < |sorted| => UnhealedDrift(sorted[i], phases[sorted[i]]));
    assert JobsOf(unhealed) == sorted;
  }
}
