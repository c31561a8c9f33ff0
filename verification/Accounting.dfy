/** Slot conservation: in every dimension, the slots that are out are the Running
    jobs, plus the one job the tick thread has between two locks. */
module Accounting {
  import opened Types
  import opened Budget
  import opened Driver
  import opened Machine
  import opened Interference

  function Holders(phases: Phases): set<JobId> {
    set id | id in phases && phases[id].Running?
  }

  function OfKind(ids: set<JobId>, kind: JobKindId): set<JobId> {
    set id | id in ids && id.kind == kind
  }

  function OfScope(ids: set<JobId>, scope: JobScope): set<JobId> {
    set id | id in ids && id.scope == scope
  }

  /** The slots count `ids` in all three dimensions. */
  ghost predicate Counts(slots: Slots, ids: set<JobId>) {
    && slots.global == |ids|
    && (forall kind :: slots.kinds[kind] == |OfKind(ids, kind)|)
    && (forall scope :: slots.scopes[scope] == |OfScope(ids, scope)|)
  }

  /** The job whose slot is out while it is not Running: reserved but not yet
      dispatched, or finished but not yet released. */
  function InFlight(pc: Pc): set<JobId> {
    match pc
    case Armed(id, signal) => if signal.AllocateBudget? then {id} else {}
    case Clearing(id, _) => {id}
    case Releasing(id, _) => {id}
    case _ => {}
  }

  ghost predicate Balanced(env: Env, m: Mach) {
    && Remembers(m)
    && WithinCaps(env.caps, m.s.slots)
    && Counts(m.s.slots, Held(m))
  }

  lemma OneMoreOfKind(ids: set<JobId>, id: JobId, kind: JobKindId)
    requires id !in ids
    ensures |OfKind(ids + {id}, kind)| == |OfKind(ids, kind)| + if id.kind == kind then 1 else 0
  {
    if id.kind == kind {
      assert OfKind(ids + {id}, kind) == OfKind(ids, kind) + {id};
    } else {
      assert OfKind(ids + {id}, kind) == OfKind(ids, kind);
    }
  }

  lemma OneMoreOfScope(ids: set<JobId>, id: JobId, scope: JobScope)
    requires id !in ids
    ensures |OfScope(ids + {id}, scope)| == |OfScope(ids, scope)| + if id.scope == scope then 1 else 0
  {
    if id.scope == scope {
      assert OfScope(ids + {id}, scope) == OfScope(ids, scope) + {id};
    } else {
      assert OfScope(ids + {id}, scope) == OfScope(ids, scope);
    }
  }

  lemma CountsTake(slots: Slots, ids: set<JobId>, id: JobId)
    requires Counts(slots, ids) && id !in ids
    ensures Counts(Take(slots, id), ids + {id})
  {
    forall kind ensures Take(slots, id).kinds[kind] == |OfKind(ids + {id}, kind)| {
      OneMoreOfKind(ids, id, kind);
    }
    forall scope ensures Take(slots, id).scopes[scope] == |OfScope(ids + {id}, scope)| {
      OneMoreOfScope(ids, id, scope);
    }
  }

  /** Releasing a counted job never meets a counter at zero. */
  lemma CountsGiveBack(slots: Slots, ids: set<JobId>, id: JobId)
    requires Counts(slots, ids) && id in ids
    ensures Counts(GiveBack(slots, id), ids - {id})
    ensures slots.global > 0 && slots.kinds[id.kind] > 0 && slots.scopes[id.scope] > 0
  {
    assert id in OfKind(ids, id.kind) && id in OfScope(ids, id.scope);
    var rest := ids - {id};
    assert rest + {id} == ids;
    forall kind ensures GiveBack(slots, id).kinds[kind] == |OfKind(rest, kind)| {
      OneMoreOfKind(rest, id, kind);
    }
    forall scope ensures GiveBack(slots, id).scopes[scope] == |OfScope(rest, scope)| {
      OneMoreOfScope(rest, id, scope);
    }
  }

  lemma GiveBackWithinCaps(caps: Caps, slots: Slots, id: JobId)
    requires WithinCaps(caps, slots)
    ensures WithinCaps(caps, GiveBack(slots, id))
  {
  }

  /** The jobs a slot is out for. */
  function Held(m: Mach): set<JobId> {
    Holders(m.s.phases) + InFlight(m.pc)
  }

  lemma HoldersSilent(s: State, s': State)
    requires Silent(s, s')
    ensures Holders(s'.phases) == Holders(s.phases)
  {
    forall id ensures id in Holders(s'.phases) <==> id in Holders(s.phases) {
      assert s'.PhaseOf(id) == s.PhaseOf(id);
    }
  }

  lemma HoldersLogged(s: State, s': State, e: TransitionEvent)
    requires s'.phases == s.phases[e.id := e.to]
    ensures Holders(s'.phases) == Holders(s.phases) - {e.id} + if e.to.Running? then {e.id} else {}
  {
  }

  /** The slots change only where the thread reserves one or gives one back. */
  lemma HeldStep(env: Env, m: Mach, step: Step)
    requires Remembers(m) && Next(env, m, step).Some?
    ensures var m' := Next(env, m, step).value;
            if step.Choose? && m'.pc.Armed? && m'.pc.signal.AllocateBudget? then
              && m'.pc.id !in Held(m) && Held(m') == Held(m) + {m'.pc.id}
              && Refusal(env.caps, m.s.slots, m'.pc.id).None? && m'.s.slots == Take(m.s.slots, m'.pc.id)
            else if step.Release? then
              && m.pc.id in Held(m) && Held(m') == Held(m) - {m.pc.id}
              && m'.s.slots == GiveBack(m.s.slots, m.pc.id)
            else
              Held(m') == Held(m) && m'.s.slots == m.s.slots
  {
    hide Remembers, Refusal, Take, GiveBack;
    if step.Fire? || step.Operate? {
      HeldLogged(env, m, step);
    } else {
      HeldSilent(env, m, step);
    }
  }

  lemma HeldLogged(env: Env, m: Mach, step: Step)
    requires Remembers(m) && Next(env, m, step).Some? && (step.Fire? || step.Operate?)
    ensures var m' := Next(env, m, step).value;
            Held(m') == Held(m) && m'.s.slots == m.s.slots
  {
    var m' := Next(env, m, step).value;
    StepEffect(env, m, step);
    HoldersLogged(m.s, m'.s, m'.s.log[|m.s.log|]);
  }

  lemma HeldSilent(env: Env, m: Mach, step: Step)
    requires Remembers(m) && Next(env, m, step).Some? && !step.Fire? && !step.Operate?
    ensures var m' := Next(env, m, step).value;
            if step.Choose? && m'.pc.Armed? && m'.pc.signal.AllocateBudget? then
              && m'.pc.id !in Held(m) && Held(m') == Held(m) + {m'.pc.id}
              && Refusal(env.caps, m.s.slots, m'.pc.id).None? && m'.s.slots == Take(m.s.slots, m'.pc.id)
            else if step.Release? then
              && m.pc.id in Held(m) && Held(m') == Held(m) - {m.pc.id}
              && m'.s.slots == GiveBack(m.s.slots, m.pc.id)
            else
              Held(m') == Held(m) && m'.s.slots == m.s.slots
  {
    hide GateVerdict, Trim, Advance, Refusal, Take, GiveBack, Holders;
    StepEffect(env, m, step);
    HoldersSilent(m.s, Next(env, m, step).value.s);
    HoldersRunning(m.s);
  }

  lemma HoldersRunning(s: State)
    ensures forall id :: id in Holders(s.phases) <==> s.PhaseOf(id).Running?
  {
  }

  lemma BalancedKept(env: Env, m: Mach, step: Step)
    requires Balanced(env, m) && Next(env, m, step).Some?
    ensures Balanced(env, Next(env, m, step).value)
  {
    var m' := Next(env, m, step).value;
    RemembersKept(env, m, step);
    HeldStep(env, m, step);
    if step.Choose? && m'.pc.Armed? && m'.pc.signal.AllocateBudget? {
      CountsTake(m.s.slots, Held(m), m'.pc.id);
      RefusalMeaning(env.caps, m.s.slots, m'.pc.id);
    } else if step.Release? {
      CountsGiveBack(m.s.slots, Held(m), m.pc.id);
      GiveBackWithinCaps(env.caps, m.s.slots, m.pc.id);
    }
  }

  lemma {:induction false} RunBalanced(env: Env, m: Mach, steps: seq<Step>)
    requires Balanced(env, m) && Run(env, m, steps).Some?
    ensures Balanced(env, Run(env, m, steps).value)
    decreases |steps|
  {
    if steps != [] {
      BalancedKept(env, m, steps[0]);
      RunBalanced(env, Next(env, m, steps[0]).value, steps[1..]);
    }
  }

  /** Between ticks: the counters are exactly the Running jobs. */
  ghost predicate Settled(env: Env, s: State) {
    WithinCaps(env.caps, s.slots) && Counts(s.slots, Holders(s.phases))
  }

  lemma SettledMeansBalanced(env: Env, s: State)
    ensures Settled(env, s) <==> Balanced(env, Mach(s, Idle))
  {
    assert Holders(s.phases) + {} == Holders(s.phases);
  }

  lemma FreshSettled(env: Env, s: State)
    requires Fresh(s)
    ensures Settled(env, s)
  {
    assert Holders(s.phases) == {};
    forall kind ensures OfKind({}, kind) == {} {}
    forall scope ensures OfScope({}, scope) == {} {}
  }

  /** Whatever operators do and wherever the tick thread stands, the Running jobs
      stay within every installed cap, and a release never meets a zero counter. */
  lemma RunningWithinCaps(env: Env, s: State, steps: seq<Step>)
    requires Settled(env, s) && Run(env, Mach(s, Idle), steps).Some?
    ensures var m := Run(env, Mach(s, Idle), steps).value;
            var running := Holders(m.s.phases);
            && (env.caps.global.Some? ==> |running| <= env.caps.global.value)
            && (forall k | k in env.caps.byKind :: |OfKind(running, k)| <= env.caps.byKind[k])
            && (forall c | c in env.caps.byScope :: |OfScope(running, c)| <= env.caps.byScope[c])
            && (m.pc.Releasing? ==>
                  m.s.slots.global > 0 && m.s.slots.kinds[m.pc.id.kind] > 0 && m.s.slots.scopes[m.pc.id.scope] > 0)
            && (m.pc.Idle? ==> Settled(env, m.s))
  {
    SettledMeansBalanced(env, s);
    RunBalanced(env, Mach(s, Idle), steps);
    var m := Run(env, Mach(s, Idle), steps).value;
    var running, held := Holders(m.s.phases), Held(m);
    SubsetSize(running, held);
    forall k | k in env.caps.byKind ensures |OfKind(running, k)| <= env.caps.byKind[k] {
      SubsetSize(OfKind(running, k), OfKind(held, k));
    }
    forall c | c in env.caps.byScope ensures |OfScope(running, c)| <= env.caps.byScope[c] {
      SubsetSize(OfScope(running, c), OfScope(held, c));
    }
    if m.pc.Releasing? {
      CountsGiveBack(m.s.slots, held, m.pc.id);
    }
    SettledMeansBalanced(env, m.s);
  }

  /** A whole tick keeps the books, panics included. */
  lemma TickSettled(env: Env, s: State, waves: seq<seq<JobId>>)
    requires Settled(env, s) && AllDistinct(waves)
    ensures Settled(env, Tick(env, s, waves))
  {
    var steps := TickPath(env, s, waves);
    RunningWithinCaps(env, s, steps);
  }
}
