/** The fuel of the two bounded loops is enough. */
module Fuel {
  import opened Types
  import opened Driver
  import opened Machine
  import opened Frames

  /** Every step of the driver moves a job strictly down this order. */
  function Height(phase: JobPhase): nat {
    match phase
    case Failed(_) => 5
    case Retrying(_) => 4
    case Pending => 3
    case Gated => 2
    case Ready => 1
    case _ => 0
  }

  lemma ProgressDescends(env: Env, s: State, id: JobId)
    ensures AdvanceOnce(env, s, id).1 ==>
              Height(AdvanceOnce(env, s, id).0.PhaseOf(id)) < Height(s.PhaseOf(id))
  {
    ActLegal(env, s, id);
  }

  /** The loop without fuel: step until Running or no progress. */
  function Settle(env: Env, s: State, id: JobId): State
    decreases Height(s.PhaseOf(id))
  {
    if s.PhaseOf(id).Running? then s
    else
      var (s', progressed) := AdvanceOnce(env, s, id);
      if progressed then
        ProgressDescends(env, s, id);
        Settle(env, s', id)
      else s'
  }

  lemma {:induction false} FuelSuffices(env: Env, s: State, id: JobId, fuel: nat)
    requires fuel > Height(s.PhaseOf(id))
    ensures Drive(env, s, id, fuel) == Settle(env, s, id)
    decreases fuel
  {
    hide AdvanceOnce;
    if !s.PhaseOf(id).Running? {
      var (s', progressed) := AdvanceOnce(env, s, id);
      if progressed {
        ProgressDescends(env, s, id);
        FuelSuffices(env, s', id, fuel - 1);
      }
    }
  }

  /** Pass 1's six steps reach exactly what the unbounded loop reaches, for every
      job in every state: the same phases, counters, log and oracle readings. */
  lemma SixIsEnough(env: Env, s: State, id: JobId)
    ensures Drive(env, s, id, FIRST_FUEL) == Settle(env, s, id)
  {
    FuelSuffices(env, s, id, FIRST_FUEL);
  }

  /** One unit of fuel already takes a job out of Failed. */
  lemma DriveLeavesFailed(env: Env, s: State, id: JobId, fuel: nat)
    requires fuel > 0
    ensures !Drive(env, s, id, fuel).PhaseOf(id).Failed?
  {
    ActLegal(env, s, id);
    if s.PhaseOf(id).Failed? {
      var s1 := AdvanceOnce(env, s, id).0;
      assert Drive(env, s, id, fuel) == Drive(env, s1, id, fuel - 1);
      DriveFrame(env, s1, id, fuel - 1);
    } else {
      DriveFrame(env, s, id, fuel);
    }
  }

  lemma PendingNotRunning(env: Env, s: State, id: JobId)
    requires s.PhaseOf(id).Pending?
    ensures !Drive(env, s, id, 1).PhaseOf(id).Running?
  {
    hide GateVerdict;
    var s1 := AdvanceOnce(env, s, id).0;
    assert Drive(env, s, id, 1) == Drive(env, s1, id, 0) == s1;
  }

  lemma RetryingNotRunning(env: Env, s: State, id: JobId)
    requires s.PhaseOf(id).Retrying?
    ensures !Drive(env, s, id, 2).PhaseOf(id).Running?
  {
    var (s1, progressed) := AdvanceOnce(env, s, id);
    if progressed {
      assert s1.PhaseOf(id).Pending?;
      assert Drive(env, s, id, 2) == Drive(env, s1, id, 1);
      PendingNotRunning(env, s1, id);
    }
  }

  /** The three steps of the drain do not bring a failed job back to Running, whatever
      its policy and its gates: a retry is executed in a later tick. */
  lemma DrainNeverRestarts(env: Env, s: State, id: JobId)
    requires s.PhaseOf(id).Failed?
    ensures !Drive(env, s, id, DRAIN_FUEL).PhaseOf(id).Running?
  {
    var s1 := AdvanceOnce(env, s, id).0;
    assert Drive(env, s, id, DRAIN_FUEL) == Drive(env, s1, id, 2);
    assert s1.PhaseOf(id).Retrying? || s1.PhaseOf(id).Deadlettered?;
    if s1.PhaseOf(id).Retrying? {
      RetryingNotRunning(env, s1, id);
    } else {
      DriveFrame(env, s1, id, 2);
    }
  }

  lemma {:induction false} DrainLeavesNoneFailed(env: Env, s: State, wave: seq<JobId>)
    ensures forall id | id in wave :: !DrainWave(env, s, wave).PhaseOf(id).Failed?
    decreases |wave|
  {
    if wave != [] {
      var s1 := Drive(env, s, wave[0], DRAIN_FUEL);
      DriveLeavesFailed(env, s, wave[0], DRAIN_FUEL);
      DrainLeavesNoneFailed(env, s1, wave[1..]);
      DrainWaveFrame(env, s1, wave[1..]);
    }
  }

  lemma {:induction false} WavesLeaveNoneFailed(env: Env, s: State, waves: seq<seq<JobId>>, id: JobId)
    requires AllDistinct(waves)
    requires AllDisjoint(waves)
    requires id in Union(waves)
    ensures !RunWaves(env, s, waves).PhaseOf(id).Failed?
    decreases |waves|
  {
    var s1 := RunWave(env, s, waves[0]);
    var rest := waves[1..];
    assert forall k | 0 <= k < |rest| :: rest[k] == waves[k + 1];
    if id in waves[0] {
      DrainLeavesNoneFailed(env, Execute(env, DriveWave(env, s, waves[0]), waves[0]), waves[0]);
      assert id in Members(waves[0]);
      assert id !in Union(rest) by {
        forall k | 0 <= k < |rest| ensures id !in rest[k] {
          assert Members(waves[0]) !! Members(waves[k + 1]);
          assert id !in Members(rest[k]);
        }
      }
      RunWavesFrame(env, s1, rest);
    } else {
      WavesLeaveNoneFailed(env, s1, rest, id);
    }
  }

  /** No job of the graph is left Failed by a tick: pass 3 always decides. */
  lemma TickLeavesNoneFailed(env: Env, s: State, waves: seq<seq<JobId>>, id: JobId)
    requires Stratified(env.graph, waves) && id in env.graph.nodes
    ensures !Tick(env, s, waves).PhaseOf(id).Failed?
  {
    hide RunWaves;
    WavesLeaveNoneFailed(env, s.(now := s.now + 1), waves, id);
  }
}
