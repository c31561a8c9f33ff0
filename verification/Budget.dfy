/** The three-dimension parallelism envelope: a global cap, caps by kind, caps by
    scope, and the live counters. */
module Budget {
  import opened Types

  datatype Caps = Caps(global: Option<nat>, byKind: map<JobKindId, nat>, byScope: map<JobScope, nat>)

  /** What the counters mean: how many slots are out in each dimension. */
  datatype Slots = Slots(global: nat, kinds: multiset<JobKindId>, scopes: multiset<JobScope>)

  const NO_SLOTS := Slots(0, multiset{}, multiset{})

  datatype BudgetError = GlobalExhausted | KindExhausted(kind: string) | ScopeExhausted

  /** The first dimension without slack, in the order the checks are made. */
  function Refusal(caps: Caps, slots: Slots, id: JobId): Option<BudgetError> {
    if caps.global.Some? && slots.global >= caps.global.value then
      Some(GlobalExhausted)
    else if id.kind in caps.byKind && slots.kinds[id.kind] >= caps.byKind[id.kind] then
      Some(KindExhausted(id.kind.name))
    else if id.scope in caps.byScope && slots.scopes[id.scope] >= caps.byScope[id.scope] then
      Some(ScopeExhausted)
    else
      None
  }

  function Take(slots: Slots, id: JobId): Slots {
    Slots(slots.global + 1, slots.kinds + multiset{id.kind}, slots.scopes + multiset{id.scope})
  }

  /** Saturating in every dimension: a counter at zero stays at zero. */
  function GiveBack(slots: Slots, id: JobId): Slots {
    Slots(if slots.global == 0 then 0 else slots.global - 1,
          slots.kinds - multiset{id.kind},
          slots.scopes - multiset{id.scope})
  }

  predicate WithinCaps(caps: Caps, slots: Slots) {
    && (caps.global.Some? ==> slots.global <= caps.global.value)
    && (forall k | k in caps.byKind :: slots.kinds[k] <= caps.byKind[k])
    && (forall s | s in caps.byScope :: slots.scopes[s] <= caps.byScope[s])
  }

  /** Releasing undoes an allocation in all three dimensions. */
  lemma TakeThenGiveBack(slots: Slots, id: JobId)
    ensures GiveBack(Take(slots, id), id) == slots
  {
    assert slots.kinds + multiset{id.kind} - multiset{id.kind} == slots.kinds;
    assert slots.scopes + multiset{id.scope} - multiset{id.scope} == slots.scopes;
  }

  /** An allocation that is not refused keeps every cap, and it is refused exactly
      when taking the slot would break one. */
  lemma RefusalMeaning(caps: Caps, slots: Slots, id: JobId)
    requires WithinCaps(caps, slots)
    ensures Refusal(caps, slots, id).None? <==> WithinCaps(caps, Take(slots, id))
  {
    var taken := Take(slots, id);
    forall k ensures taken.kinds[k] == slots.kinds[k] + if k == id.kind then 1 else 0 {}
    forall s ensures taken.scopes[s] == slots.scopes[s] + if s == id.scope then 1 else 0 {}
  }

  /** Which dimension a refusal names: the first exhausted one of global, kind, scope. */
  lemma RefusalNames(caps: Caps, slots: Slots, id: JobId)
    ensures var globalFull := caps.global.Some? && slots.global >= caps.global.value;
            var kindFull := id.kind in caps.byKind && slots.kinds[id.kind] >= caps.byKind[id.kind];
            var scopeFull := id.scope in caps.byScope && slots.scopes[id.scope] >= caps.byScope[id.scope];
            var refused := Refusal(caps, slots, id);
            && (refused.None? <==> !globalFull && !kindFull && !scopeFull)
            && (refused == Some(GlobalExhausted) <==> globalFull)
            && (refused == Some(KindExhausted(id.kind.name)) <==> !globalFull && kindFull)
            && (refused == Some(ScopeExhausted) <==> !globalFull && !kindFull && scopeFull)
  {
  }

  /** A release lowers the three counters of the job by one, down to zero, and no other. */
  lemma GiveBackCounts(slots: Slots, id: JobId)
    ensures GiveBack(slots, id).global == if slots.global == 0 then 0 else slots.global - 1
    ensures forall k ::
              GiveBack(slots, id).kinds[k] == if k == id.kind && slots.kinds[k] > 0 then slots.kinds[k] - 1 else slots.kinds[k]
    ensures forall c ::
              GiveBack(slots, id).scopes[c] ==
              if c == id.scope && slots.scopes[c] > 0 then slots.scopes[c] - 1 else slots.scopes[c]
  {
    forall k
      ensures GiveBack(slots, id).kinds[k] ==
              if k == id.kind && slots.kinds[k] > 0 then slots.kinds[k] - 1 else slots.kinds[k]
    {
    }
    forall c
      ensures GiveBack(slots, id).scopes[c] ==
              if c == id.scope && slots.scopes[c] > 0 then slots.scopes[c] - 1 else slots.scopes[c]
    {
    }
  }

  function CountAt<K>(counters: map<K, nat>, key: K): nat {
    if key in counters then counters[key] else 0
  }

  /** The multiset a counter map stands for; an absent counter is zero. */
  ghost function Occupied<K>(counters: map<K, nat>): multiset<K>
    decreases |counters|
  {
    if counters == map[] then multiset{}
    else
      var key :| key in counters;
      Occupied(counters - {key})[key := counters[key]]
  }

  lemma {:induction false} OccupiedCounts<K>(counters: map<K, nat>, key: K)
    ensures Occupied(counters)[key] == CountAt(counters, key)
    decreases |counters|
  {
    if counters != map[] {
      var first :| first in counters && Occupied(counters) == Occupied(counters - {first})[first := counters[first]];
      OccupiedCounts(counters - {first}, key);
    }
  }

  function Raise<K>(counters: map<K, nat>, key: K): map<K, nat> {
    counters[key := CountAt(counters, key) + 1]
  }

  /** Lower an existing counter, never below zero; an absent one stays absent. */
  function Lower<K>(counters: map<K, nat>, key: K): map<K, nat> {
    if CountAt(counters, key) > 0 then counters[key := counters[key] - 1] else counters
  }

  lemma OccupiedRaise<K(!new)>(counters: map<K, nat>, key: K)
    ensures Occupied(Raise(counters, key)) == Occupied(counters) + multiset{key}
  {
    forall k ensures Occupied(Raise(counters, key))[k] == (Occupied(counters) + multiset{key})[k] {
      OccupiedCounts(Raise(counters, key), k);
      OccupiedCounts(counters, k);
    }
  }

  lemma OccupiedLower<K(!new)>(counters: map<K, nat>, key: K)
    ensures Occupied(Lower(counters, key)) == Occupied(counters) - multiset{key}
  {
    forall k ensures Occupied(Lower(counters, key))[k] == (Occupied(counters) - multiset{key})[k] {
      OccupiedCounts(Lower(counters, key), k);
      OccupiedCounts(counters, k);
    }
  }

  class BudgetTree {
    var caps: Caps
    var runningGlobal: nat
    var runningByKind: map<JobKindId, nat>
    var runningByScope: map<JobScope, nat>

    ghost function Out(): Slots
      reads this
    {
      Slots(runningGlobal, Occupied(runningByKind), Occupied(runningByScope))
    }

    constructor (caps: Caps)
      ensures Out() == NO_SLOTS && this.caps == caps
    {
      this.caps := caps;
      runningGlobal, runningByKind, runningByScope := 0, map[], map[];
    }

    /** Reserve a slot in all three dimensions, or change nothing. */
    method TryAllocate(id: JobId) returns (refused: Option<BudgetError>)
      modifies this
      ensures caps == old(caps)
      ensures refused == Refusal(caps, old(Out()), id)
      ensures Out() == if refused.None? then Take(old(Out()), id) else old(Out())
    {
      hide Occupied, Raise;
      OccupiedCounts(runningByKind, id.kind);
      OccupiedCounts(runningByScope, id.scope);
      if caps.global.Some? && runningGlobal >= caps.global.value {
        return Some(GlobalExhausted);
      }
      if id.kind in caps.byKind && CountAt(runningByKind, id.kind) >= caps.byKind[id.kind] {
        return Some(KindExhausted(id.kind.name));
      }
      if id.scope in caps.byScope && CountAt(runningByScope, id.scope) >= caps.byScope[id.scope] {
        return Some(ScopeExhausted);
      }
      OccupiedRaise(runningByKind, id.kind);
      OccupiedRaise(runningByScope, id.scope);
      runningGlobal := runningGlobal + 1;
      runningByKind := Raise(runningByKind, id.kind);
      runningByScope := Raise(runningByScope, id.scope);
      return None;
    }

    /** Give a slot back; a counter already at zero stays there. */
    method Release(id: JobId)
      modifies this
      ensures caps == old(caps)
      ensures Out() == GiveBack(old(Out()), id)
    {
      hide Occupied, Lower;
      OccupiedLower(runningByKind, id.kind);
      OccupiedLower(runningByScope, id.scope);
      runningGlobal := if runningGlobal == 0 then 0 else runningGlobal - 1;
      runningByKind := Lower(runningByKind, id.kind);
      runningByScope := Lower(runningByScope, id.scope);
    }
  }
}
