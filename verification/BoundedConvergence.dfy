/** The bound itself: every tick strictly lowers what the jobs of the graph owe
    together, so a fixed number of ticks finishes all of them. */
module BoundedConvergence {
  import opened Types
  import opened Driver
  import opened Machine
  import opened Accounting
  import opened LogHistory
  import opened Dependencies
  import opened Frames
  import opened Fuel
  import opened Convergence

  // ----- One wave -----

  lemma SeedFrame(env: Env, s: State, id: JobId)
    ensures forall x :: Seed(s, id).PhaseOf(x) == s.PhaseOf(x)
    ensures Settled(env, s) ==> Settled(env, Seed(s, id))
  {
    assert Holders(Seed(s, id).phases) == Holders(s.phases);
  }

  lemma {:induction false} DriveWaveLands(env: Env, s: State, wave: seq<JobId>, id: JobId)
    requires Favourable(env) && Settled(env, s) && UpstreamsOver(env.graph, s, id)
    requires Drivable(s.PhaseOf(id)) && DeadlinePast(env, s, id)
    requires Distinct(wave) && id in wave
    ensures Landed(DriveWave(env, s, wave), id)
    decreases |wave|
  {
    hide Drive, Settled;
    var s0 := Seed(s, wave[0]);
    var s1 := Drive(env, s0, wave[0], FIRST_FUEL);
    SeedFrame(env, s, wave[0]);
    DriveFrame(env, s0, wave[0], FIRST_FUEL);
    if id == wave[0] {
      DriveLands(env, s0, id, FIRST_FUEL);
      DriveWaveFrame(env, s1, wave[1..]);
      LandedStays(s1, DriveWave(env, s1, wave[1..]), Members(wave[1..]), id);
    } else {
      DriveWaveLands(env, s1, wave[1..], id);
    }
  }

  // ----- The waves of one tick -----

  /** What the waves still to come need of the state: their upstreams are over or
      come earlier, their jobs are drivable or over, and they hold every Running job. */
  ghost predicate Fed(env: Env, s: State, waves: seq<seq<JobId>>) {
    && (forall k, id | 0 <= k < |waves| && id in waves[k] ::
          forall u | u in env.graph.Predecessors(id) :: s.PhaseOf(u).Terminal() || u in Union(waves[..k]))
    && (forall id | id in Union(waves) ::
          (s.PhaseOf(id).Terminal() || Drivable(s.PhaseOf(id))) && DeadlinePast(env, s, id))
    && Holders(s.phases) <= Union(waves)
  }

  predicate AllOver(s: State, ids: set<JobId>) {
    forall id | id in ids :: s.PhaseOf(id).Terminal()
  }

  /** A wave that is over already changes no phase, and the next waves stay fed. */
  lemma FedNext(env: Env, s: State, waves: seq<seq<JobId>>)
    requires AllDistinct(waves) && AllDisjoint(waves) && waves != []
    requires Fed(env, s, waves) && AllOver(s, Members(waves[0]))
    ensures Fed(env, RunWave(env, s, waves[0]), waves[1..])
    ensures forall id :: RunWave(env, s, waves[0]).PhaseOf(id) == s.PhaseOf(id)
  {
    hide RunWave;
    var rest, s1 := waves[1..], RunWave(env, s, waves[0]);
    UnionSplit(waves);
    RunWaveFrame(env, s, waves[0]);
    assert forall id :: s1.PhaseOf(id) == s.PhaseOf(id);
    forall k, id, u | 0 <= k < |rest| && id in rest[k] && u in env.graph.Predecessors(id)
      ensures s1.PhaseOf(u).Terminal() || u in Union(rest[..k])
    {
      var before := waves[..k + 1];
      assert rest[k] == waves[k + 1] && before[0] == waves[0] && before[1..] == rest[..k];
      UnionSplit(before);
    }
    forall id | id in Holders(s1.phases) ensures id in Union(rest) {
      assert s.PhaseOf(id).Running?;
      assert id in Holders(s.phases);
    }
  }

  /** Some job of the waves comes to owe strictly less. */
  lemma {:induction false} WavesProgress(env: Env, s: State, waves: seq<seq<JobId>>, open: JobId, end: State)
    returns (paid: JobId)
    requires Favourable(env) && Solvent(env, Mach(s, Idle)) && Settled(env, s)
    requires AllDistinct(waves) && AllDisjoint(waves) && Fed(env, s, waves)
    requires open in Union(waves) && !s.PhaseOf(open).Terminal()
    requires end == RunWaves(env, s, waves)
    ensures paid in Union(waves)
    ensures Owed(env, end, paid) < Owed(env, s, paid)
    decreases |waves|
  {
    var wave, s1 := waves[0], RunWave(env, s, waves[0]);
    UnionSplit(waves);
    RunWaveOwed(env, s, wave);
    RunWaveFrame(env, s, wave);
    if AllOver(s, Members(wave)) {
      FedNext(env, s, waves);
      paid := WavesProgress(env, s1, waves[1..], open, end);
    } else {
      var first :| first in Members(wave) && !s.PhaseOf(first).Terminal();
      paid := WavePays(env, s, waves, first);
    }
  }

  /** The first wave with an open job is the one that pays, or it finds its slots
      taken by a Running job of a later wave, which pays instead. */
  lemma WavePays(env: Env, s: State, waves: seq<seq<JobId>>, first: JobId) returns (paid: JobId)
    requires Favourable(env) && Solvent(env, Mach(s, Idle)) && Settled(env, s)
    requires AllDistinct(waves) && AllDisjoint(waves) && waves != [] && Fed(env, s, waves)
    requires first in waves[0] && !s.PhaseOf(first).Terminal()
    ensures paid in Union(waves)
    ensures Owed(env, RunWaves(env, s, waves), paid) < Owed(env, s, paid)
  {
    hide DriveWave, Settled;
    var wave := waves[0];
    var driven, s1 := DriveWave(env, s, wave), RunWave(env, s, wave);
    UnionSplit(waves);
    assert first in Members(wave);
    assert Union(waves[..0]) == {};
    DriveWaveLands(env, s, wave, first);
    DriveWaveFrame(env, s, wave);
    RunWaveOwed(env, s, wave);
    if Holders(driven.phases) != {} {
      paid :| paid in Holders(driven.phases);
      if paid in wave {
        assert paid in Members(wave);
        RunWavePays(env, s, wave, paid);
        RunWavesOwed(env, s1, waves[1..]);
      } else {
        assert s.PhaseOf(paid).Running? && paid in Holders(s.phases);
        RunningIsExecuted(env, s, waves, paid);
      }
    } else {
      paid := first;
      SkippedPays(env, s, wave, first);
      RunWavesOwed(env, s1, waves[1..]);
    }
  }

  lemma SkippedPays(env: Env, s: State, wave: seq<JobId>, id: JobId)
    requires PoliciesBounded(env) && Solvent(env, Mach(s, Idle)) && Distinct(wave)
    requires Drivable(s.PhaseOf(id)) && DriveWave(env, s, wave).PhaseOf(id).Skipped?
    ensures Owed(env, RunWave(env, s, wave), id) < Owed(env, s, id)
  {
    var driven := DriveWave(env, s, wave);
    var executed := Execute(env, driven, wave);
    ExecuteFrame(env, driven, wave);
    DrainWaveFrame(env, executed, wave);
    assert SolventJob(env, Mach(s, Idle), id);
  }

  // ----- A tick -----

  /** What holds between ticks over a fixed graph. */
  ghost predicate Between(env: Env, s: State)
    requires PoliciesBounded(env)
  {
    && Solvent(env, Mach(s, Idle)) && Settled(env, s)
    && Holders(s.phases) <= env.graph.nodes
    && forall id | id in env.graph.nodes :: s.PhaseOf(id).Terminal() || Drivable(s.PhaseOf(id))
  }

  ghost predicate Punctual(env: Env, s: State) {
    forall id | id in env.graph.nodes :: DeadlinePast(env, s, id)
  }

  lemma TickPaysDown(env: Env, s: State, waves: seq<seq<JobId>>)
    requires PoliciesBounded(env) && Solvent(env, Mach(s, Idle)) && AllDistinct(waves)
    ensures Solvent(env, Mach(Tick(env, s, waves), Idle)) && PaidDown(env, s, Tick(env, s, waves))
    ensures Frame(s, Tick(env, s, waves), Union(waves), true)
    ensures Settled(env, s) ==> Settled(env, Tick(env, s, waves))
  {
    hide Tick, Frame;
    var steps := TickPath(env, s, waves);
    PathOwed(env, s, steps, Tick(env, s, waves), Union(waves), true);
    PathFrame(env, s, steps, Tick(env, s, waves), Union(waves), true);
  }

  lemma TickLeavesDrivable(env: Env, s: State, waves: seq<seq<JobId>>, id: JobId)
    requires Stratified(env.graph, waves) && id in env.graph.nodes && !s.PhaseOf(id).WaitingForOperator?
    ensures var phase := Tick(env, s, waves).PhaseOf(id);
            phase.Terminal() || Drivable(phase)
  {
    hide Tick;
    var steps := TickPath(env, s, waves);
    TickLeavesNoneFailed(env, s, waves, id);
    WaitingUnreachable(env, s, steps, id);
  }

  lemma TickKeepsBetween(env: Env, s: State, waves: seq<seq<JobId>>)
    requires PoliciesBounded(env) && Between(env, s) && Stratified(env.graph, waves)
    ensures Between(env, Tick(env, s, waves)) && PaidDown(env, s, Tick(env, s, waves))
  {
    hide Tick, Solvent, Settled, PaidDown;
    var s' := Tick(env, s, waves);
    TickPaysDown(env, s, waves);
    forall id | id in Holders(s'.phases) ensures id in env.graph.nodes {
      assert id !in env.graph.nodes ==> id in Holders(s.phases);
    }
    forall id | id in env.graph.nodes ensures s'.PhaseOf(id).Terminal() || Drivable(s'.PhaseOf(id)) {
      TickLeavesDrivable(env, s, waves, id);
    }
  }

  lemma BetweenFed(env: Env, s: State, waves: seq<seq<JobId>>)
    requires PoliciesBounded(env) && Between(env, s) && Punctual(env, s) && Stratified(env.graph, waves)
    ensures Fed(env, s, waves)
  {
    forall k, id | 0 <= k < |waves| && id in waves[k]
      ensures forall u | u in env.graph.Predecessors(id) :: u in Union(waves[..k])
    {
      assert env.graph.Predecessors(id) <= Union(waves[..k]);
    }
  }

  /** The clock reading at the start of a tick changes nothing that matters. */
  lemma ReadingKeeps(env: Env, s: State, s1: State, waves: seq<seq<JobId>>)
    requires PoliciesBounded(env) && s1 == s.(now := s.now + 1)
    requires Solvent(env, Mach(s, Idle)) && Settled(env, s) && Fed(env, s, waves)
    ensures Solvent(env, Mach(s1, Idle)) && Settled(env, s1) && Fed(env, s1, waves)
  {
    forall id ensures SolventJob(env, Mach(s1, Idle), id) {
      assert SolventJob(env, Mach(s, Idle), id);
    }
    forall k, id, u | 0 <= k < |waves| && id in waves[k] && u in env.graph.Predecessors(id)
      ensures s1.PhaseOf(u).Terminal() || u in Union(waves[..k])
    {
      assert s.PhaseOf(u).Terminal() || u in Union(waves[..k]);
    }
  }

  lemma ReadingOwes(env: Env, s: State, s1: State, id: JobId)
    requires PoliciesBounded(env) && s1 == s.(now := s.now + 1)
    ensures Owed(env, s1, id) == Owed(env, s, id)
  {
  }

  /** In every tick some open job of the graph comes to owe strictly less. */
  lemma TickPays(env: Env, s: State, waves: seq<seq<JobId>>, open: JobId, end: State) returns (paid: JobId)
    requires Favourable(env) && Between(env, s) && Punctual(env, s) && Stratified(env.graph, waves)
    requires open in env.graph.nodes && !s.PhaseOf(open).Terminal()
    requires end == Tick(env, s, waves)
    ensures paid in env.graph.nodes
    ensures Owed(env, end, paid) < Owed(env, s, paid)
  {
    hide RunWaves;
    var s1 := s.(now := s.now + 1);
    BetweenFed(env, s, waves);
    ReadingKeeps(env, s, s1, waves);
    paid := WavesProgress(env, s1, waves, open, end);
    ReadingOwes(env, s, s1, paid);
  }

  // ----- Sums over the graph -----

  function TotalOwed(env: Env, s: State, ids: seq<JobId>): int
    requires PoliciesBounded(env)
  {
    if ids == [] then 0 else Owed(env, s, ids[0]) + TotalOwed(env, s, ids[1..])
  }

  function TotalAllowance(env: Env, ids: seq<JobId>): nat
    requires PoliciesBounded(env)
  {
    if ids == [] then 0 else Allowance(env, ids[0]) + TotalAllowance(env, ids[1..])
  }

  lemma {:induction false} TotalFalls(env: Env, s: State, s': State, ids: seq<JobId>, paid: JobId)
    requires PoliciesBounded(env) && PaidDown(env, s, s')
    ensures TotalOwed(env, s', ids) <= TotalOwed(env, s, ids)
    ensures paid in ids && Owed(env, s', paid) < Owed(env, s, paid) ==>
              TotalOwed(env, s', ids) < TotalOwed(env, s, ids)
    decreases |ids|
  {
    if ids != [] {
      assert Owed(env, s', ids[0]) <= Owed(env, s, ids[0]);
      TotalFalls(env, s, s', ids[1..], paid);
    }
  }

  lemma {:induction false} TotalCoversOpen(env: Env, s: State, ids: seq<JobId>, id: JobId)
    requires PoliciesBounded(env) && Solvent(env, Mach(s, Idle))
    ensures TotalOwed(env, s, ids) >= 0
    ensures id in ids && Drivable(s.PhaseOf(id)) ==> TotalOwed(env, s, ids) >= 1
    decreases |ids|
  {
    if ids != [] {
      assert SolventJob(env, Mach(s, Idle), ids[0]);
      TotalCoversOpen(env, s, ids[1..], id);
    }
  }

  /** One tick, as the reader meets it: the total strictly drops. */
  lemma TickLowersTotal(env: Env, s: State, waves: seq<seq<JobId>>, order: seq<JobId>)
    requires Favourable(env) && Between(env, s) && Punctual(env, s) && Stratified(env.graph, waves)
    requires Members(order) == env.graph.nodes
    ensures AllOver(s, env.graph.nodes)
            || TotalOwed(env, Tick(env, s, waves), order) < TotalOwed(env, s, order)
  {
    if !AllOver(s, env.graph.nodes) {
      var open :| open in env.graph.nodes && !s.PhaseOf(open).Terminal();
      var paid := TickPays(env, s, waves, open, Tick(env, s, waves));
      TickKeepsBetween(env, s, waves);
      assert paid in Members(order);
      TotalFalls(env, s, Tick(env, s, waves), order, paid);
    }
  }

  // ----- Runs of ticks -----

  /** One tick per entry; each tick may find its own layering of the graph. */
  function Ticks(env: Env, s: State, schedule: seq<seq<seq<JobId>>>): State
    decreases |schedule|
  {
    if schedule == [] then s else Ticks(env, Tick(env, s, schedule[0]), schedule[1..])
  }

  /** Every tick uses a layering of the graph and starts past every pending deadline. */
  ghost predicate OnTime(env: Env, s: State, schedule: seq<seq<seq<JobId>>>)
    decreases |schedule|
  {
    schedule != [] ==>
      && Stratified(env.graph, schedule[0]) && Punctual(env, s)
      && OnTime(env, Tick(env, s, schedule[0]), schedule[1..])
  }

  lemma {:induction false} TicksFinish(env: Env, s: State, schedule: seq<seq<seq<JobId>>>, order: seq<JobId>)
    requires Favourable(env) && Between(env, s) && OnTime(env, s, schedule)
    requires Members(order) == env.graph.nodes
    requires |schedule| >= TotalOwed(env, s, order)
    ensures AllOver(Ticks(env, s, schedule), env.graph.nodes)
    decreases |schedule|
  {
    if schedule == [] {
      forall id | id in env.graph.nodes ensures s.PhaseOf(id).Terminal() {
        assert id in Members(order);
        TotalCoversOpen(env, s, order, id);
      }
    } else {
      var s1 := Tick(env, s, schedule[0]);
      TickKeepsBetween(env, s, schedule[0]);
      TickLowersTotal(env, s, schedule[0], order);
      if AllOver(s, env.graph.nodes) {
        forall id | id in env.graph.nodes ensures Owed(env, s1, id) == 0 {
          assert SolventJob(env, Mach(s1, Idle), id);
        }
        TotalZero(env, s1, order);
      }
      TicksFinish(env, s1, schedule[1..], order);
    }
  }

  lemma {:induction false} TotalZero(env: Env, s: State, ids: seq<JobId>)
    requires PoliciesBounded(env) && forall id | id in ids :: Owed(env, s, id) == 0
    ensures TotalOwed(env, s, ids) == 0
    decreases |ids|
  {
    if ids != [] {
      TotalZero(env, s, ids[1..]);
    }
  }

  lemma {:induction false} FreshOwesAllowance(env: Env, s: State, ids: seq<JobId>)
    requires PoliciesBounded(env) && Fresh(s)
    ensures TotalOwed(env, s, ids) == TotalAllowance(env, ids)
    decreases |ids|
  {
    if ids != [] {
      FreshOwesAllowance(env, s, ids[1..]);
    }
  }

  /** From a fresh scheduler on a fixed graph, with every cap at least one, no
      custom policy, no waiting gate, no panic and punctual ticks: after as many
      ticks as the allowances of the nodes add up to, every node is Succeeded,
      Skipped or Deadlettered. */
  lemma BoundedConvergence(env: Env, s0: State, schedule: seq<seq<seq<JobId>>>, order: seq<JobId>)
    requires Favourable(env) && Fresh(s0) && OnTime(env, s0, schedule)
    requires Distinct(order) && Members(order) == env.graph.nodes
    requires |schedule| >= TotalAllowance(env, order)
    ensures AllOver(Ticks(env, s0, schedule), env.graph.nodes)
  {
    FreshSettled(env, s0);
    FreshOwesAllowance(env, s0, order);
    assert Holders(s0.phases) == {};
    TicksFinish(env, s0, schedule, order);
  }
}
