/** Snapshots: what survives a restart, and what a restored scheduler does next. */
module Restart {
  import opened Types
  import opened Retry
  import opened Budget
  import opened Driver
  import opened Machine
  import opened Interference
  import opened Accounting
  import opened LogHistory

  datatype StoredJobState = StoredJobState(
    id: JobId, phase: JobPhase, attempts: nat, failureHistory: seq<FailureRecord>)

  function StoredJob(s: State, id: JobId): StoredJobState {
    StoredJobState(id, s.PhaseOf(id), s.AttemptsOf(id), s.HistoryOf(id))
  }

  /** The projection, listing the known jobs in the order the map hands them out. */
  function Project(s: State, order: seq<JobId>): seq<StoredJobState> {
    seq(|order|, i requires 0 <= i < |order| => StoredJob(s, order[i]))
  }

  function IdsOf(snapshot: seq<StoredJobState>): seq<JobId> {
    seq(|snapshot|, i requires 0 <= i < |snapshot| => snapshot[i].id)
  }

  function RestoreJob(s: State, job: StoredJobState): State {
    s.(phases := s.phases[job.id := job.phase],
       attempts := if job.attempts > 0 then s.attempts[job.id := job.attempts] else s.attempts,
       history := if job.failureHistory != [] then s.history[job.id := job.failureHistory] else s.history)
  }

  /** Overlay a snapshot; the budget counters are not part of it. */
  function Restore(s: State, snapshot: seq<StoredJobState>): State
    decreases |snapshot|
  {
    if snapshot == [] then s else Restore(RestoreJob(s, snapshot[0]), snapshot[1..])
  }

  function RegisterAll(s: State, ids: seq<JobId>): State
    decreases |ids|
  {
    if ids == [] then s else RegisterAll(Register(s, ids[0]), ids[1..])
  }

  // ----- The state a snapshot can carry -----

  /** Only known jobs are registered, counted or remembered, and every count and
      every memory says something. */
  ghost predicate Tidy(s: State) {
    && s.jobs <= s.phases.Keys
    && s.attempts.Keys <= s.phases.Keys
    && s.history.Keys <= s.phases.Keys
    && (forall id | id in s.attempts :: s.attempts[id] > 0)
    && (forall id | id in s.history :: s.history[id] != [])
  }

  lemma TidyKept(env: Env, m: Mach, step: Step)
    requires Remembers(m) && Tidy(m.s) && Next(env, m, step).Some?
    ensures Tidy(Next(env, m, step).value.s)
  {
    if step.Deliver? && !step.ok {
      assert m.s.PhaseOf(step.id).Running?;
    } else if step.Fire? || step.Operate? {
      StepEffect(env, m, step);
    }
  }

  lemma {:induction false} RunTidy(env: Env, m: Mach, steps: seq<Step>)
    requires Remembers(m) && Tidy(m.s) && Run(env, m, steps).Some?
    ensures Tidy(Run(env, m, steps).value.s)
    decreases |steps|
  {
    if steps != [] {
      RememberingStep(env, m, steps);
      TidyKept(env, m, steps[0]);
      RunTidy(env, Next(env, m, steps[0]).value, steps[1..]);
    }
  }

  // ----- Restoring what was projected -----

  function Find<K, V>(m: map<K, V>, key: K): Option<V> {
    if key in m then Some(m[key]) else None
  }

  lemma SameMap<K(!new), V(!new)>(m: map<K, V>, n: map<K, V>)
    requires forall key :: Find(m, key) == Find(n, key)
    ensures m == n
  {
    forall key ensures (key in m <==> key in n) && (key in m ==> m[key] == n[key]) {
      assert Find(m, key) == Find(n, key);
    }
  }

  /** What a restore leaves of one job: the snapshot's entry, or what was there. */
  lemma {:induction false} RestoredJob(base: State, s: State, order: seq<JobId>, id: JobId)
    ensures var r := Restore(base, Project(s, order));
            && Find(r.phases, id) == (if id in order then Some(s.PhaseOf(id)) else Find(base.phases, id))
            && Find(r.attempts, id) ==
                 (if id in order && s.AttemptsOf(id) > 0 then Some(s.AttemptsOf(id)) else Find(base.attempts, id))
            && Find(r.history, id) ==
                 (if id in order && s.HistoryOf(id) != [] then Some(s.HistoryOf(id)) else Find(base.history, id))
    decreases |order|
  {
    if order != [] {
      assert Project(s, order)[1..] == Project(s, order[1..]);
      RestoredJob(RestoreJob(base, StoredJob(s, order[0])), s, order[1..], id);
    }
  }

  lemma {:induction false} RestoreKeepsRest(base: State, snapshot: seq<StoredJobState>)
    ensures Restore(base, snapshot) ==
            base.(phases := Restore(base, snapshot).phases,
                  attempts := Restore(base, snapshot).attempts,
                  history := Restore(base, snapshot).history)
    decreases |snapshot|
  {
    if snapshot != [] {
      RestoreKeepsRest(RestoreJob(base, snapshot[0]), snapshot[1..]);
    }
  }

  lemma {:induction false} RegisteredJob(base: State, ids: seq<JobId>, id: JobId)
    ensures Find(RegisterAll(base, ids).phases, id) ==
            (if id in ids && id !in base.phases then Some(Pending) else Find(base.phases, id))
    decreases |ids|
  {
    if ids != [] {
      RegisteredJob(Register(base, ids[0]), ids[1..], id);
    }
  }

  lemma {:induction false} RegisterKeepsRest(base: State, ids: seq<JobId>)
    ensures RegisterAll(base, ids) ==
            base.(phases := RegisterAll(base, ids).phases, jobs := base.jobs + Members(ids))
    decreases |ids|
  {
    if ids == [] {
      assert Members(ids) == {};
    } else {
      RegisterKeepsRest(Register(base, ids[0]), ids[1..]);
      assert Members(ids) == {ids[0]} + Members(ids[1..]);
    }
  }

  /** Restoring and registering commute, for any state, snapshot and job. */
  lemma {:induction false} RestoreCommutes(s: State, snapshot: seq<StoredJobState>, id: JobId)
    ensures Restore(Register(s, id), snapshot) == Register(Restore(s, snapshot), id)
    decreases |snapshot|
  {
    if snapshot != [] {
      var job := snapshot[0];
      RestoreCommutes(RestoreJob(s, job), snapshot[1..], id);
      RestoreJobCommutes(s, job, id, snapshot[1..]);
    }
  }

  lemma RestoreJobCommutes(s: State, job: StoredJobState, id: JobId, rest: seq<StoredJobState>)
    ensures RestoreJob(Register(s, id), job) == Register(RestoreJob(s, job), id)
  {
    if id in s.phases {
      assert RestoreJob(Register(s, id), job).phases == Register(RestoreJob(s, job), id).phases;
    } else if id == job.id {
      assert s.phases[id := Pending][id := job.phase] == s.phases[id := job.phase];
    } else {
      assert s.phases[id := Pending][job.id := job.phase] == s.phases[job.id := job.phase][id := Pending];
    }
  }

  /** A new process in the same world: nothing known, no slot out. The event stream,
      the record of executions and the readings of the world go on. */
  function Reborn(s: State): State {
    s.(phases := map[], attempts := map[], history := map[], jobs := {}, slots := NO_SLOTS)
  }

  /** With no Running job, restoring the projection into a new process gives back
      the very same state, whichever jobs are re-registered before and whichever
      after; so every later tick, event and oracle reading is the same. */
  lemma RestoreIsIdentity(s: State, order: seq<JobId>, before: seq<JobId>, after: seq<JobId>)
    requires Tidy(s) && s.slots == NO_SLOTS
    requires Members(order) == s.phases.Keys
    requires Members(before) + Members(after) == s.jobs
    ensures RegisterAll(Restore(RegisterAll(Reborn(s), before), Project(s, order)), after) == s
  {
    hide Restore, RegisterAll, Project;
    var s1 := RegisterAll(Reborn(s), before);
    var s2 := Restore(s1, Project(s, order));
    var s3 := RegisterAll(s2, after);
    RegisterKeepsRest(Reborn(s), before);
    RestoreKeepsRest(s1, Project(s, order));
    RegisterKeepsRest(s2, after);
    RestoredMaps(s, order, before, s1, s2);
    forall id ensures Find(s3.phases, id) == Find(s.phases, id) {
      RegisteredJob(s2, after, id);
      assert id in after ==> id in Members(after);
    }
    SameMap(s3.phases, s.phases);
  }

  lemma RestoredMaps(s: State, order: seq<JobId>, before: seq<JobId>, s1: State, s2: State)
    requires Tidy(s) && Members(order) == s.phases.Keys && Members(before) <= s.phases.Keys
    requires s1 == RegisterAll(Reborn(s), before) && s2 == Restore(s1, Project(s, order))
    ensures s2.phases == s.phases && s2.attempts == s.attempts && s2.history == s.history
  {
    hide Restore, RegisterAll, Project;
    RegisterKeepsRest(Reborn(s), before);
    forall id
      ensures Find(s2.phases, id) == Find(s.phases, id)
      ensures Find(s2.attempts, id) == Find(s.attempts, id)
      ensures Find(s2.history, id) == Find(s.history, id)
    {
      RegisteredJob(Reborn(s), before, id);
      RestoredJob(s1, s, order, id);
      assert id in order <==> id in Members(order);
      assert id in before <==> id in Members(before);
    }
    SameMap(s2.phases, s.phases);
    SameMap(s2.attempts, s.attempts);
    SameMap(s2.history, s.history);
  }

  lemma SettledWithoutRunning(env: Env, s: State)
    requires Settled(env, s) && Holders(s.phases) == {}
    ensures s.slots == NO_SLOTS
  {
    forall kind ensures s.slots.kinds[kind] == 0 {
      assert OfKind({}, kind) == {};
    }
    forall scope ensures s.slots.scopes[scope] == 0 {
      assert OfScope({}, scope) == {};
    }
    assert s.slots.kinds == multiset{};
    assert s.slots.scopes == multiset{};
  }

  /** Restart transparency for every state reachable from a fresh scheduler by any
      interleaving of ticks, operator moves and registrations, between ticks and
      with no job Running. */
  lemma RestartTransparency(env: Env, s0: State, steps: seq<Step>,
                            order: seq<JobId>, before: seq<JobId>, after: seq<JobId>)
    requires Fresh(s0) && s0.jobs <= s0.phases.Keys
    requires Run(env, Mach(s0, Idle), steps).Some? && Run(env, Mach(s0, Idle), steps).value.pc.Idle?
    requires var s := Run(env, Mach(s0, Idle), steps).value.s;
             && Holders(s.phases) == {}
             && Members(order) == s.phases.Keys
             && Members(before) + Members(after) == s.jobs
    ensures var s := Run(env, Mach(s0, Idle), steps).value.s;
            RegisterAll(Restore(RegisterAll(Reborn(s), before), Project(s, order)), after) == s
  {
    var s := Run(env, Mach(s0, Idle), steps).value.s;
    RunTidy(env, Mach(s0, Idle), steps);
    FreshSettled(env, s0);
    RunningWithinCaps(env, s0, steps);
    SettledWithoutRunning(env, s);
    RestoreIsIdentity(s, order, before, after);
  }

  /** The counters are not restored, so the books balance after a restore exactly
      when the snapshot holds no Running job. */
  lemma RestoredBooksIff(env: Env, s: State, order: seq<JobId>, before: seq<JobId>)
    requires Tidy(s) && Members(order) == s.phases.Keys && Members(before) <= s.phases.Keys
    ensures Settled(env, Restore(RegisterAll(Reborn(s), before), Project(s, order)))
            <==> Holders(s.phases) == {}
  {
    hide Restore, RegisterAll, Project;
    var s1 := RegisterAll(Reborn(s), before);
    var s2 := Restore(s1, Project(s, order));
    RegisterKeepsRest(Reborn(s), before);
    RestoreKeepsRest(s1, Project(s, order));
    RestoredMaps(s, order, before, s1, s2);
    NoSlotsSettledIff(env, s2);
  }

  lemma NoSlotsSettledIff(env: Env, s: State)
    requires s.slots == NO_SLOTS
    ensures Settled(env, s) <==> Holders(s.phases) == {}
  {
    if Holders(s.phases) == {} {
      forall kind ensures OfKind({}, kind) == {} {}
      forall scope ensures OfScope({}, scope) == {} {}
    }
  }
}
