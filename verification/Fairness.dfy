/** Starvation freedom: how long a unit can be passed over, and exactly when there is
    a bound at all. */
module Fairness {
  import opened Types
  import opened Retry
  import opened Rank

  /** One round: what was pending and what was picked. */
  datatype Round = Round(pending: seq<Unit>, picked: seq<Unit>)

  function Ids(units: seq<Unit>): set<string> {
    set u | u in units :: u.id
  }

  function Everyone(): Unit -> bool {
    u => true
  }

  /** A round over the units `ids`, one each, all eligible and of one class, whose
      urgency apart from fairness is at most `bound`. */
  ghost predicate RoundOver(r: Round, ids: set<string>, w: UrgencyWeights, slots: nat, bound: nat) {
    && Ids(r.pending) == ids && Distinct(r.pending) && UniqueIds(r.pending)
    && IsPick(r.picked, r.pending, Everyone(), w, slots)
    && (forall u, v | u in r.pending && v in r.pending :: u.priority == v.priority)
    && (forall u | u in r.pending :: OtherUrgency(u, w) <= bound)
  }

  /** The caller's side: a 64-bit deficit counts the rounds passed over since the last
      pick, and stays at its largest value once there. */
  ghost predicate DeficitsCount(r: Round, next: Round) {
    forall u, v | u in r.pending && v in next.pending && u.id == v.id ::
      v.fairnessDeficit == if u.id in Ids(r.picked) then 0 else SatAdd(u.fairnessDeficit, 1)
  }

  ghost predicate FairRun(rounds: seq<Round>, ids: set<string>, w: UrgencyWeights, slots: nat, bound: nat) {
    && (forall t | 0 <= t < |rounds| :: RoundOver(rounds[t], ids, w, slots, bound))
    && (forall t | 0 < t < |rounds| :: DeficitsCount(rounds[t - 1], rounds[t]))
  }

  predicate PickedAt(rounds: seq<Round>, t: int, id: string) {
    0 <= t < |rounds| && id in Ids(rounds[t].picked)
  }

  ghost predicate PickedWithin(rounds: seq<Round>, from: nat, to: nat, id: string) {
    exists t :: from <= t < to && PickedAt(rounds, t, id)
  }

  lemma UnitOf(rounds: seq<Round>, ids: set<string>, w: UrgencyWeights, slots: nat, bound: nat, t: nat, id: string)
    returns (u: Unit)
    requires FairRun(rounds, ids, w, slots, bound) && t < |rounds| && id in ids
    ensures u in rounds[t].pending && u.id == id
  {
    assert RoundOver(rounds[t], ids, w, slots, bound);
    assert id in Ids(rounds[t].pending);
    u :| u in rounds[t].pending && u.id == id;
  }

  // ----- How many are picked -----

  lemma IdsSplit(units: seq<Unit>)
    requires units != [] && Distinct(units) && UniqueIds(units)
    ensures Ids(units) == {units[0].id} + Ids(units[1..]) && units[0].id !in Ids(units[1..])
  {
    assert forall u :: u in units <==> u == units[0] || u in units[1..];
    assert units[0] !in units[1..];
  }

  lemma {:induction false} IdsCount(units: seq<Unit>)
    requires Distinct(units) && UniqueIds(units)
    ensures |Ids(units)| == |units|
    decreases |units|
  {
    if units == [] {
      assert Ids(units) == {};
    } else {
      IdsCount(units[1..]);
      IdsSplit(units);
    }
  }

  lemma {:induction false} EveryoneEligible(units: seq<Unit>)
    ensures Eligible(units, Everyone()) == units
  {
    if units != [] {
      EveryoneEligible(units[1..]);
    }
  }

  /** A round picks as many different ids as the slots and the units allow. */
  lemma PickedIds(r: Round, ids: set<string>, w: UrgencyWeights, slots: nat, bound: nat)
    requires RoundOver(r, ids, w, slots, bound)
    ensures |Ids(r.picked)| == Min(slots, |ids|) && Ids(r.picked) <= ids
    ensures |r.pending| == |ids|
  {
    PickIsOptimal(r.picked, r.pending, Everyone(), w, slots);
    EveryoneEligible(r.pending);
    IdsCount(r.pending);
    PickedDistinct(r.picked, r.pending, w, slots);
    IdsCount(r.picked);
  }

  lemma PickedDistinct(picked: seq<Unit>, pending: seq<Unit>, w: UrgencyWeights, slots: nat)
    requires IsPick(picked, pending, Everyone(), w, slots) && Distinct(pending)
    ensures Distinct(picked)
  {
    var ranking :|
      && IsRanking(ranking, pending, Everyone(), w)
      && picked == ranking[..if slots < |ranking| then slots else |ranking|];
    assert multiset(ranking) == multiset(pending);
    DistinctReordered(pending, ranking);
  }

  // ----- Deficits -----

  /** Passed over since round `from`: the deficit is at least the rounds since. */
  lemma {:induction false} DeficitGrows(rounds: seq<Round>, ids: set<string>, w: UrgencyWeights, slots: nat, bound: nat,
                                        from: nat, t: nat, u: Unit)
    requires FairRun(rounds, ids, w, slots, bound) && from <= t < |rounds| && u in rounds[t].pending && u.id in ids
    requires !PickedWithin(rounds, from, t, u.id)
    ensures u.fairnessDeficit >= Min(t - from, U64_MAX)
    decreases t
  {
    hide RoundOver;
    if t > from {
      var before := UnitOf(rounds, ids, w, slots, bound, t - 1, u.id);
      assert forall k :: from <= k < t - 1 && PickedAt(rounds, k, u.id) ==> from <= k < t;
      DeficitGrows(rounds, ids, w, slots, bound, from, t - 1, before);
      assert DeficitsCount(rounds[t - 1], rounds[t]);
      assert !PickedAt(rounds, t - 1, u.id);
    }
  }

  /** Picked at `p`: from then on the deficit is at most the rounds since. */
  lemma {:induction false} DeficitResets(rounds: seq<Round>, ids: set<string>, w: UrgencyWeights, slots: nat, bound: nat,
                                         p: nat, t: nat, u: Unit)
    requires FairRun(rounds, ids, w, slots, bound) && p < t < |rounds| && u in rounds[t].pending && u.id in ids
    requires PickedAt(rounds, p, u.id)
    ensures u.fairnessDeficit <= t - p - 1
    decreases t
  {
    hide RoundOver;
    var before := UnitOf(rounds, ids, w, slots, bound, t - 1, u.id);
    assert DeficitsCount(rounds[t - 1], rounds[t]);
    if p < t - 1 {
      DeficitResets(rounds, ids, w, slots, bound, p, t - 1, before);
    }
  }

  // ----- The bound -----

  /** The fewest rounds after which the other terms no longer decide. */
  function Threshold(weight: nat, bound: nat): nat
    requires weight >= 1
  {
    bound / weight
  }

  /** The rounds in which the slots can serve everybody else without a repetition. */
  function Gap(n: nat, slots: nat): nat
    requires n >= 1 && slots >= 1
  {
    (n - 1) / slots
  }

  /** A unit that waited the longest a busy competitor has to does not saturate. */
  predicate Unsaturated(n: nat, slots: nat, weight: nat, bound: nat)
    requires n >= 1 && slots >= 1
  {
    Gap(n, slots) == 0 || bound + (Gap(n, slots) - 1) * weight < U64_MAX
  }

  function Horizon(n: nat, slots: nat, weight: nat, bound: nat): nat
    requires n >= 1 && slots >= 1 && weight >= 1
  {
    Threshold(weight, bound) + Gap(n, slots) + 1
  }

  lemma PastThreshold(weight: nat, bound: nat, p: nat)
    requires weight >= 1 && Threshold(weight, bound) <= p
    ensures (p + 1) * weight > bound
  {
    assert bound < (bound / weight + 1) * weight;
    MulMonotone(weight, bound / weight + 1, p + 1);
  }

  lemma SplitProduct(weight: nat, t: nat, p: nat)
    requires p < t
    ensures (t - p - 1) * weight + (p + 1) * weight == t * weight
  {
  }

  /** The urgency of the waiting unit: nothing is lost but by saturation. */
  lemma WaiterUrgency(u: Unit, w: UrgencyWeights, t: nat)
    requires w.fairnessDeficit >= 1 && u.fairnessDeficit >= Min(t, U64_MAX)
    ensures UrgencyOf(u, w) >= Min(t * w.fairnessDeficit, U64_MAX)
  {
    MulMonotone(w.fairnessDeficit, Min(t, U64_MAX), u.fairnessDeficit);
    MulMonotone(U64_MAX, 1, w.fairnessDeficit);
  }

  lemma RivalUrgency(v: Unit, w: UrgencyWeights, bound: nat, waited: nat)
    requires OtherUrgency(v, w) <= bound && v.fairnessDeficit <= waited
    ensures UrgencyOf(v, w) <= bound + waited * w.fairnessDeficit
  {
    MulMonotone(w.fairnessDeficit, v.fairnessDeficit, waited);
  }

  /** Once the waiting unit's lead in deficit outweighs every other urgency, a unit
      picked since then does not come before it again, unless it saturates. */
  lemma NoSecondPick(w: UrgencyWeights, bound: nat, u: Unit, v: Unit, p: nat, t: nat)
    requires w.fairnessDeficit >= 1 && Threshold(w.fairnessDeficit, bound) <= p < t
    requires u.priority == v.priority && OtherUrgency(v, w) <= bound
    requires u.fairnessDeficit >= Min(t, U64_MAX) && v.fairnessDeficit <= t - p - 1
    requires bound + (t - p - 1) * w.fairnessDeficit < U64_MAX
    ensures !Precedes(w, v, u)
  {
    hide UrgencyOf, OtherUrgency, Threshold;
    var f := w.fairnessDeficit;
    PastThreshold(f, bound, p);
    SplitProduct(f, t, p);
    WaiterUrgency(u, w, t);
    RivalUrgency(v, w, bound, t - p - 1);
  }

  /** Picked where `id` is not: the newcomer comes before it. */
  lemma Overtaken(r: Round, ids: set<string>, w: UrgencyWeights, slots: nat, bound: nat, u: Unit, newcomer: string)
    returns (v: Unit)
    requires RoundOver(r, ids, w, slots, bound) && u in r.pending && u.id !in Ids(r.picked) && newcomer in Ids(r.picked)
    ensures v in r.picked && v in r.pending && v.id == newcomer && newcomer in ids && newcomer != u.id
    ensures Precedes(w, v, u) && u.priority == v.priority && OtherUrgency(v, w) <= bound
  {
    hide OtherUrgency, Precedes, IsPick;
    PickIsOptimal(r.picked, r.pending, Everyone(), w, slots);
    v :| v in r.picked && v.id == newcomer;
    assert u !in r.picked;
  }

  lemma ShortWait(waited: nat, gap: nat, weight: nat, bound: nat)
    requires waited < gap && bound + (gap - 1) * weight < U64_MAX
    ensures bound + waited * weight < U64_MAX
  {
    MulMonotone(weight, waited, gap - 1);
  }

  /** While a unit waits past the threshold, a round picks only units not picked since. */
  lemma NewcomersOnly(rounds: seq<Round>, ids: set<string>, w: UrgencyWeights, slots: nat, bound: nat,
                      id: string, t: nat, newcomer: string)
    requires FairRun(rounds, ids, w, slots, bound) && id in ids && slots >= 1 && w.fairnessDeficit >= 1
    requires Unsaturated(|ids|, slots, w.fairnessDeficit, bound)
    requires Threshold(w.fairnessDeficit, bound) <= t < |rounds|
    requires t <= Threshold(w.fairnessDeficit, bound) + Gap(|ids|, slots)
    requires !PickedWithin(rounds, 0, |rounds|, id) && PickedAt(rounds, t, newcomer)
    ensures newcomer in ids - {id}
    ensures !PickedWithin(rounds, Threshold(w.fairnessDeficit, bound), t, newcomer)
  {
    hide Threshold, Gap, OtherUrgency, Precedes, RoundOver, DeficitsCount;
    var f, start := w.fairnessDeficit, Threshold(w.fairnessDeficit, bound);
    var u := UnitOf(rounds, ids, w, slots, bound, t, id);
    assert !PickedAt(rounds, t, id);
    var v := Overtaken(rounds[t], ids, w, slots, bound, u, newcomer);
    assert !PickedWithin(rounds, 0, t, id);
    DeficitGrows(rounds, ids, w, slots, bound, 0, t, u);
    if PickedWithin(rounds, start, t, newcomer) {
      var p :| start <= p < t && PickedAt(rounds, p, newcomer);
      DeficitResets(rounds, ids, w, slots, bound, p, t, v);
      ShortWait(t - p - 1, Gap(|ids|, slots), f, bound);
      NoSecondPick(w, bound, u, v, p, t);
    }
  }

  /** One more round of newcomers. */
  lemma NewRound(rounds: seq<Round>, ids: set<string>, w: UrgencyWeights, slots: nat, bound: nat,
                 id: string, t: nat, before: set<string>)
    requires FairRun(rounds, ids, w, slots, bound) && id in ids && slots >= 1 && w.fairnessDeficit >= 1
    requires Unsaturated(|ids|, slots, w.fairnessDeficit, bound)
    requires Threshold(w.fairnessDeficit, bound) <= t < |rounds|
    requires t <= Threshold(w.fairnessDeficit, bound) + Gap(|ids|, slots)
    requires !PickedWithin(rounds, 0, |rounds|, id)
    requires forall x | x in before :: PickedWithin(rounds, Threshold(w.fairnessDeficit, bound), t, x)
    ensures var now := Ids(rounds[t].picked);
            now !! before && now <= ids - {id} && |now| == Min(slots, |ids|)
    ensures forall x | x in before + Ids(rounds[t].picked) ::
              PickedWithin(rounds, Threshold(w.fairnessDeficit, bound), t + 1, x)
  {
    hide Threshold, Gap, Unsaturated, RoundOver, DeficitsCount;
    var start, now := Threshold(w.fairnessDeficit, bound), Ids(rounds[t].picked);
    PickedIds(rounds[t], ids, w, slots, bound);
    forall x | x in now ensures x !in before && x in ids - {id} && PickedWithin(rounds, start, t + 1, x) {
      assert PickedAt(rounds, t, x);
      NewcomersOnly(rounds, ids, w, slots, bound, id, t, x);
    }
    forall x | x in before ensures PickedWithin(rounds, start, t + 1, x) {
      var s :| start <= s < t && PickedAt(rounds, s, x);
    }
  }

  /** So `k` rounds past the threshold pick `k` times a round's worth of different units. */
  lemma {:induction false} NewPicks(rounds: seq<Round>, ids: set<string>, w: UrgencyWeights, slots: nat, bound: nat,
                                    id: string, k: nat)
    returns (seen: set<string>)
    requires FairRun(rounds, ids, w, slots, bound) && id in ids && slots >= 1 && w.fairnessDeficit >= 1
    requires Unsaturated(|ids|, slots, w.fairnessDeficit, bound) && k <= Gap(|ids|, slots) + 1
    requires Threshold(w.fairnessDeficit, bound) + k <= |rounds| && !PickedWithin(rounds, 0, |rounds|, id)
    ensures |seen| == k * Min(slots, |ids|) && seen <= ids - {id}
    ensures var start := Threshold(w.fairnessDeficit, bound);
            forall x | x in seen :: PickedWithin(rounds, start, start + k, x)
    decreases k
  {
    hide FairRun, PickedWithin, Threshold, Gap, Unsaturated, Min;
    seen := {};
    if k > 0 {
      var t := Threshold(w.fairnessDeficit, bound) + k - 1;
      var before := NewPicks(rounds, ids, w, slots, bound, id, k - 1);
      NewRound(rounds, ids, w, slots, bound, id, t, before);
      seen := before + Ids(rounds[t].picked);
      Total(k, Min(slots, |ids|));
    } else {
      Nothing(Min(slots, |ids|));
    }
  }

  lemma Nothing(each: int)
    ensures 0 * each == 0
  {
  }

  lemma Total(k: nat, each: nat)
    requires k > 0
    ensures (k - 1) * each + each == k * each
  {
  }

  /** One round more than a full turn of the others needs one unit more than there are. */
  lemma TurnIsOver(n: nat, slots: nat)
    requires n >= 1 && slots >= 1
    ensures (Gap(n, slots) + 1) * Min(slots, n) > n - 1
  {
    if slots <= n {
      assert n - 1 < ((n - 1) / slots + 1) * slots;
    }
  }

  /** With at least one slot and a fairness weight of at least one, no unit of n waits
      for more than bound / weight + (n - 1) / slots + 1 rounds, as long as a competitor
      cannot saturate within the turn it has to wait itself. Nothing is assumed of the
      deficits the run starts from, nor of the waiting unit. */
  lemma NoStarvation(rounds: seq<Round>, ids: set<string>, w: UrgencyWeights, slots: nat, bound: nat, id: string)
    requires FairRun(rounds, ids, w, slots, bound) && id in ids
    requires slots >= 1 && w.fairnessDeficit >= 1 && Unsaturated(|ids|, slots, w.fairnessDeficit, bound)
    requires |rounds| >= Horizon(|ids|, slots, w.fairnessDeficit, bound)
    ensures PickedWithin(rounds, 0, Horizon(|ids|, slots, w.fairnessDeficit, bound), id)
  {
    hide RoundOver, DeficitsCount, Threshold, Gap, Unsaturated;
    var horizon := Horizon(|ids|, slots, w.fairnessDeficit, bound);
    if !PickedWithin(rounds, 0, horizon, id) {
      var window := rounds[..horizon];
      assert forall t | 0 <= t < |window| :: PickedAt(window, t, id) ==> PickedAt(rounds, t, id);
      assert FairRun(window, ids, w, slots, bound);
      var seen := NewPicks(window, ids, w, slots, bound, id, Gap(|ids|, slots) + 1);
      SubsetSize(seen, ids - {id});
      TurnIsOver(|ids|, slots);
    }
  }
}
