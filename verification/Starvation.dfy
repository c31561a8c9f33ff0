/** Where competitors saturate within the turn they have to wait: a unit that is
    never picked, and with it the exact condition for starvation freedom. */
module Starvation {
  import opened Types
  import opened Retry
  import opened Ordering
  import opened Rank
  import opened Fairness

  // ----- Runs in which one unit can only lose -----

  /** Every other unit has no less other urgency, comes before the waiter by id, and
      saturates once it has been passed over `turn` times. */
  ghost predicate Outclassed(r: Round, w: UrgencyWeights, waiter: string, turn: nat) {
    forall u, v | u in r.pending && v in r.pending && u.id == waiter && v.id != waiter ::
      && LexLe(v.id, waiter) && OtherUrgency(u, w) <= OtherUrgency(v, w)
      && OtherUrgency(v, w) + turn * w.fairnessDeficit >= U64_MAX
  }

  ghost predicate Hopeless(rounds: seq<Round>, w: UrgencyWeights, waiter: string, turn: nat) {
    && (forall t | 0 <= t < |rounds| :: Outclassed(rounds[t], w, waiter, turn))
    && (rounds != [] ==> forall u | u in rounds[0].pending :: u.fairnessDeficit == 0)
  }

  /** A deficit never exceeds the rounds since the start. */
  lemma {:induction false} DeficitAtMost(rounds: seq<Round>, ids: set<string>, w: UrgencyWeights, slots: nat, bound: nat,
                                         t: nat, u: Unit)
    requires FairRun(rounds, ids, w, slots, bound) && t < |rounds| && u in rounds[t].pending && u.id in ids
    requires forall x | x in rounds[0].pending :: x.fairnessDeficit == 0
    ensures u.fairnessDeficit <= t
    decreases t
  {
    hide RoundOver;
    if t > 0 {
      var before := UnitOf(rounds, ids, w, slots, bound, t - 1, u.id);
      DeficitAtMost(rounds, ids, w, slots, bound, t - 1, before);
      assert DeficitsCount(rounds[t - 1], rounds[t]);
    }
  }

  /** Everybody picked in the rounds from `from` up to `t`. */
  function PickedFrom(rounds: seq<Round>, from: nat, t: nat): set<string>
    requires t <= |rounds|
    decreases t
  {
    if t <= from then {} else PickedFrom(rounds, from, t - 1) + Ids(rounds[t - 1].picked)
  }

  lemma {:induction false} PickedFromMeans(rounds: seq<Round>, from: nat, t: nat, x: string)
    requires from <= t <= |rounds|
    ensures x in PickedFrom(rounds, from, t) <==> PickedWithin(rounds, from, t, x)
    decreases t
  {
    if t > from {
      PickedFromMeans(rounds, from, t - 1, x);
      if PickedWithin(rounds, from, t, x) {
        var s :| from <= s < t && PickedAt(rounds, s, x);
        assert s < t - 1 ==> PickedWithin(rounds, from, t - 1, x);
      }
      if PickedWithin(rounds, from, t - 1, x) {
        var s :| from <= s < t - 1 && PickedAt(rounds, s, x);
      }
      if x in Ids(rounds[t - 1].picked) {
        assert PickedAt(rounds, t - 1, x);
      }
    }
  }

  lemma {:induction false} PickedFromFew(rounds: seq<Round>, ids: set<string>, w: UrgencyWeights, slots: nat, bound: nat,
                                         from: nat, t: nat)
    requires FairRun(rounds, ids, w, slots, bound) && from <= t <= |rounds|
    ensures |PickedFrom(rounds, from, t)| <= (t - from) * slots && PickedFrom(rounds, from, t) <= ids
    decreases t
  {
    hide RoundOver, DeficitsCount, Ids;
    if t > from {
      PickedFromFew(rounds, ids, w, slots, bound, from, t - 1);
      assert RoundOver(rounds[t - 1], ids, w, slots, bound);
      PickedIds(rounds[t - 1], ids, w, slots, bound);
      Total(t - from, slots);
      UnionSize(PickedFrom(rounds, from, t - 1), Ids(rounds[t - 1].picked));
    } else {
      Nothing(slots);
    }
  }

  lemma UnionSize<T>(a: set<T>, b: set<T>)
    ensures |a + b| <= |a| + |b|
  {
    assert a + b == a + (b - a);
    SubsetSize(b - a, b);
  }

  lemma UrgencyAtLeast(u: Unit, w: UrgencyWeights, deficit: nat)
    requires u.fairnessDeficit >= deficit
    ensures UrgencyOf(u, w) >= Min(OtherUrgency(u, w) + deficit * w.fairnessDeficit, U64_MAX)
  {
    MulMonotone(w.fairnessDeficit, deficit, u.fairnessDeficit);
  }

  lemma UrgencyAtMost(u: Unit, w: UrgencyWeights, deficit: nat)
    requires u.fairnessDeficit <= deficit
    ensures UrgencyOf(u, w) <= OtherUrgency(u, w) + deficit * w.fairnessDeficit
    ensures UrgencyOf(u, w) <= U64_MAX
  {
    MulMonotone(w.fairnessDeficit, u.fairnessDeficit, deficit);
  }

  /** A competitor that was not picked in the last `turn` rounds comes before the waiter. */
  lemma ComesBefore(rounds: seq<Round>, ids: set<string>, w: UrgencyWeights, slots: nat, bound: nat,
                    waiter: string, turn: nat, t: nat, u: Unit, v: Unit)
    requires FairRun(rounds, ids, w, slots, bound) && Hopeless(rounds, w, waiter, turn) && w.fairnessDeficit >= 1
    requires t < |rounds| && u in rounds[t].pending && v in rounds[t].pending && u.id == waiter != v.id && v.id in ids
    requires waiter in ids && !PickedWithin(rounds, if t < turn then 0 else t - turn, t, v.id)
    ensures Precedes(w, v, u) && !Precedes(w, u, v)
  {
    hide UrgencyOf, OtherUrgency, DeficitsCount, IsPick;
    var f := w.fairnessDeficit;
    assert Outclassed(rounds[t], w, waiter, turn);
    assert RoundOver(rounds[t], ids, w, slots, bound);
    DeficitGrows(rounds, ids, w, slots, bound, if t < turn then 0 else t - turn, t, v);
    DeficitAtMost(rounds, ids, w, slots, bound, t, u);
    Outranks(w, u, v, turn, if t < turn then t else turn);
    if LexLe(u.id, v.id) {
      LexAntisymmetric(u.id, v.id);
    }
  }

  lemma Outranks(w: UrgencyWeights, u: Unit, v: Unit, turn: nat, waited: nat)
    requires w.fairnessDeficit >= 1 && OtherUrgency(u, w) <= OtherUrgency(v, w)
    requires OtherUrgency(v, w) + turn * w.fairnessDeficit >= U64_MAX
    requires v.fairnessDeficit >= Min(waited, U64_MAX)
    requires waited == turn || u.fairnessDeficit <= waited
    ensures UrgencyOf(v, w) >= UrgencyOf(u, w)
  {
    hide UrgencyOf, OtherUrgency;
    var f := w.fairnessDeficit;
    UrgencyAtMost(u, w, u.fairnessDeficit);
    UrgencyAtLeast(v, w, Min(waited, U64_MAX));
    if waited > U64_MAX {
      MulMonotone(U64_MAX, 1, f);
    } else if waited != turn {
      UrgencyAtMost(u, w, waited);
    }
  }

  /** The others that were not picked lately fill the slots. */
  lemma EnoughOthers(rounds: seq<Round>, ids: set<string>, w: UrgencyWeights, slots: nat, bound: nat,
                     waiter: string, turn: nat, t: nat, from: nat)
    requires FairRun(rounds, ids, w, slots, bound) && slots >= 1 && waiter in ids
    requires turn + 1 <= Gap(|ids|, slots) && from <= t <= |rounds| && t - from <= turn
    ensures |ids - {waiter} - PickedFrom(rounds, from, t)| >= slots
  {
    hide FairRun, Gap, PickedFrom;
    var recent, others := PickedFrom(rounds, from, t), ids - {waiter};
    PickedFromFew(rounds, ids, w, slots, bound, from, t);
    DifferenceSize(others, recent);
    Room(|ids|, slots, t - from);
  }

  lemma Room(n: nat, slots: nat, length: nat)
    requires n >= 1 && slots >= 1 && length + 1 <= Gap(n, slots)
    ensures length * slots + slots <= n - 1
  {
    MulMonotone(slots, length + 1, Gap(n, slots));
    assert (n - 1) / slots * slots <= n - 1;
    Total(length + 1, slots);
  }

  lemma DifferenceSize<T>(a: set<T>, b: set<T>)
    ensures |a - b| >= |a| - |b|
  {
    assert a == (a - b) + (a * b);
    SubsetSize(a * b, b);
  }

  /** A full set of units that come before the waiter keeps it from the slots. */
  lemma NotThisRound(r: Round, ids: set<string>, w: UrgencyWeights, slots: nat, bound: nat,
                     waiter: string, ahead: set<string>)
    requires RoundOver(r, ids, w, slots, bound) && ahead <= ids - {waiter} && |ahead| >= slots
    requires forall u, v | u in r.pending && v in r.pending && u.id == waiter && v.id in ahead :: !Precedes(w, u, v)
    ensures waiter !in Ids(r.picked)
  {
    hide RoundOver, Precedes;
    if waiter in Ids(r.picked) {
      PickedIds(r, ids, w, slots, bound);
      if ahead <= Ids(r.picked) {
        SubsetSize(ahead + {waiter}, Ids(r.picked));
      }
      var x :| x in ahead && x !in Ids(r.picked);
      var u, v := PickedFirst(r, ids, w, slots, bound, waiter, x);
    }
  }

  lemma PickedFirst(r: Round, ids: set<string>, w: UrgencyWeights, slots: nat, bound: nat, first: string, other: string)
    returns (u: Unit, v: Unit)
    requires RoundOver(r, ids, w, slots, bound) && first in Ids(r.picked) && other in ids && other !in Ids(r.picked)
    ensures u in r.pending && v in r.pending && u.id == first && v.id == other && Precedes(w, u, v)
  {
    hide OtherUrgency, Precedes, IsPick;
    PickIsOptimal(r.picked, r.pending, Everyone(), w, slots);
    u :| u in r.picked && u.id == first;
    assert other in Ids(r.pending);
    v :| v in r.pending && v.id == other;
    assert v !in r.picked;
  }

  /** In a hopeless run of any length the waiter is never picked. */
  lemma {:induction false} NeverPicked(rounds: seq<Round>, ids: set<string>, w: UrgencyWeights, slots: nat, bound: nat,
                                       waiter: string, turn: nat, t: nat)
    requires FairRun(rounds, ids, w, slots, bound) && Hopeless(rounds, w, waiter, turn)
    requires slots >= 1 && w.fairnessDeficit >= 1 && waiter in ids && turn + 1 <= Gap(|ids|, slots)
    requires t < |rounds|
    ensures !PickedAt(rounds, t, waiter)
  {
    hide Gap, OtherUrgency, Precedes, DeficitsCount, IsPick;
    var from := if t < turn then 0 else t - turn;
    var ahead := ids - {waiter} - PickedFrom(rounds, from, t);
    EnoughOthers(rounds, ids, w, slots, bound, waiter, turn, t, from);
    assert RoundOver(rounds[t], ids, w, slots, bound);
    forall u, v | u in rounds[t].pending && v in rounds[t].pending && u.id == waiter && v.id in ahead
      ensures !Precedes(w, u, v)
    {
      PickedFromMeans(rounds, from, t, v.id);
      ComesBefore(rounds, ids, w, slots, bound, waiter, turn, t, u, v);
    }
    NotThisRound(rounds[t], ids, w, slots, bound, waiter, ahead);
  }

  // ----- Such runs exist -----

  /** Weights under which the other urgency is the staleness. */
  function PlainWeights(weight: u64): UrgencyWeights {
    UrgencyWeights(1, 0, 0, weight)
  }

  function UnitFor(id: string, waiter: string, bound: nat, deficit: u64): Unit {
    Unit(id, Normal, if id == waiter then 0 else Min(bound, U64_MAX), false, 0, deficit)
  }

  function Line(order: seq<string>, waiter: string, bound: nat, deficits: map<string, u64>): seq<Unit>
    requires forall x | x in order :: x in deficits
  {
    seq(|order|, i requires 0 <= i < |order| => UnitFor(order[i], waiter, bound, deficits[order[i]]))
  }

  function Chosen(pending: seq<Unit>, w: UrgencyWeights, slots: nat): seq<Unit> {
    var ranking := Sort(ByKey(w), Eligible(pending, Everyone()));
    ranking[..if slots < |ranking| then slots else |ranking|]
  }

  function RoundWith(order: seq<string>, waiter: string, bound: nat, weight: u64, slots: nat,
                     deficits: map<string, u64>): Round
    requires forall x | x in order :: x in deficits
  {
    var pending := Line(order, waiter, bound, deficits);
    Round(pending, Chosen(pending, PlainWeights(weight), slots))
  }

  function NextDeficits(deficits: map<string, u64>, picked: set<string>): map<string, u64> {
    map x | x in deficits :: if x in picked then 0 else SatAdd(deficits[x], 1)
  }

  function Rounds(order: seq<string>, waiter: string, bound: nat, weight: u64, slots: nat,
                  deficits: map<string, u64>, count: nat): seq<Round>
    requires forall x | x in order :: x in deficits
    decreases count
  {
    if count == 0 then []
    else
      var r := RoundWith(order, waiter, bound, weight, slots, deficits);
      [r] + Rounds(order, waiter, bound, weight, slots, NextDeficits(deficits, Ids(r.picked)), count - 1)
  }

  lemma LineOver(order: seq<string>, waiter: string, bound: nat, weight: u64, slots: nat, deficits: map<string, u64>)
    requires Distinct(order) && forall x | x in order :: x in deficits
    ensures var r := RoundWith(order, waiter, bound, weight, slots, deficits);
            RoundOver(r, Members(order), PlainWeights(weight), slots, bound)
  {
    hide Chosen, Line;
    var r, w := RoundWith(order, waiter, bound, weight, slots, deficits), PlainWeights(weight);
    ChosenIsPick(r.pending, w, slots);
    LineMembers(order, waiter, bound, deficits);
    forall u | u in r.pending ensures OtherUrgency(u, w) <= bound {
      assert u == UnitFor(u.id, waiter, bound, deficits[u.id]);
    }
  }

  lemma ChosenIsPick(pending: seq<Unit>, w: UrgencyWeights, slots: nat)
    ensures IsPick(Chosen(pending, w, slots), pending, Everyone(), w, slots)
  {
    RankingExists(pending, Everyone(), w);
  }

  lemma LineMembers(order: seq<string>, waiter: string, bound: nat, deficits: map<string, u64>)
    requires Distinct(order) && forall x | x in order :: x in deficits
    ensures var line := Line(order, waiter, bound, deficits);
            && Ids(line) == Members(order) && Distinct(line) && UniqueIds(line)
            && forall u | u in line :: u.id in deficits && u == UnitFor(u.id, waiter, bound, deficits[u.id])
  {
    var line := Line(order, waiter, bound, deficits);
    forall x ensures x in Ids(line) <==> x in Members(order) {
      if x in Members(order) {
        var i :| 0 <= i < |order| && order[i] == x;
        assert line[i].id == x;
      }
    }
    forall i, j | 0 <= i < j < |line| ensures line[i] != line[j] {
      assert line[i].id == order[i] && line[j].id == order[j];
    }
  }

  lemma LineOutclassed(order: seq<string>, waiter: string, bound: nat, weight: u64, slots: nat,
                       deficits: map<string, u64>, turn: nat)
    requires forall x | x in order :: x in deficits && LexLe(x, waiter)
    requires bound + turn * weight >= U64_MAX
    ensures var r := RoundWith(order, waiter, bound, weight, slots, deficits);
            Outclassed(r, PlainWeights(weight), waiter, turn)
  {
  }

  lemma DeficitsFollow(order: seq<string>, waiter: string, bound: nat, weight: u64, slots: nat, deficits: map<string, u64>)
    requires forall x | x in order :: x in deficits
    ensures var r := RoundWith(order, waiter, bound, weight, slots, deficits);
            var r' := RoundWith(order, waiter, bound, weight, slots, NextDeficits(deficits, Ids(r.picked)));
            DeficitsCount(r, r')
  {
    hide Chosen;
    var r := RoundWith(order, waiter, bound, weight, slots, deficits);
    var r' := RoundWith(order, waiter, bound, weight, slots, NextDeficits(deficits, Ids(r.picked)));
    forall u | u in r.pending ensures u.id in deficits && u.fairnessDeficit == deficits[u.id] {
    }
    forall v | v in r'.pending ensures v.id in deficits && v.fairnessDeficit == NextDeficits(deficits, Ids(r.picked))[v.id] {
    }
  }

  lemma {:induction false} RoundsFair(order: seq<string>, waiter: string, bound: nat, weight: u64, slots: nat,
                                      deficits: map<string, u64>, count: nat, turn: nat)
    requires Distinct(order) && forall x | x in order :: x in deficits && LexLe(x, waiter)
    requires bound + turn * weight >= U64_MAX
    ensures var rounds := Rounds(order, waiter, bound, weight, slots, deficits, count);
            && |rounds| == count
            && (count > 0 ==> rounds[0] == RoundWith(order, waiter, bound, weight, slots, deficits))
            && FairRun(rounds, Members(order), PlainWeights(weight), slots, bound)
            && forall t | 0 <= t < count :: Outclassed(rounds[t], PlainWeights(weight), waiter, turn)
    decreases count
  {
    hide RoundOver, DeficitsCount, Outclassed, RoundWith;
    if count > 0 {
      var r := RoundWith(order, waiter, bound, weight, slots, deficits);
      var next := NextDeficits(deficits, Ids(r.picked));
      LineOver(order, waiter, bound, weight, slots, deficits);
      LineOutclassed(order, waiter, bound, weight, slots, deficits, turn);
      DeficitsFollow(order, waiter, bound, weight, slots, deficits);
      RoundsFair(order, waiter, bound, weight, slots, next, count - 1, turn);
      var rounds := Rounds(order, waiter, bound, weight, slots, deficits, count);
      assert rounds[1..] == Rounds(order, waiter, bound, weight, slots, next, count - 1);
      forall t | 0 < t < |rounds| ensures DeficitsCount(rounds[t - 1], rounds[t]) {
        assert rounds[t] == rounds[1..][t - 1] && (t > 1 ==> rounds[t - 1] == rounds[1..][t - 2]);
      }
    }
  }

  lemma {:induction false} ListOf(ids: set<string>) returns (order: seq<string>)
    ensures Distinct(order) && Members(order) == ids
  {
    order := [];
    if ids != {} {
      var x :| x in ids;
      var rest := ListOf(ids - {x});
      assert x !in Members(rest);
      order := rest + [x];
      assert Members(order) == Members(rest) + {x};
    }
  }

  lemma {:induction false} LastId(ids: set<string>) returns (last: string)
    requires ids != {}
    ensures last in ids && forall x | x in ids :: LexLe(x, last)
  {
    var x :| x in ids;
    LexTotal(x, x);
    last := x;
    if ids != {x} {
      var y := LastId(ids - {x});
      LexTotal(x, y);
      last := if LexLe(x, y) then y else x;
      forall z | z in ids ensures LexLe(z, last) {
        if z != x && last == x {
          LexTransitive(z, y, x);
        }
      }
    }
  }

  /** Where a competitor saturates within its turn, there is for every length a fair
      run from zero deficits in which one unit is never picked. */
  lemma StarvingRun(ids: set<string>, slots: nat, weight: u64, bound: nat, count: nat)
    returns (w: UrgencyWeights, rounds: seq<Round>, waiter: string)
    requires ids != {} && slots >= 1 && weight >= 1 && !Unsaturated(|ids|, slots, weight, bound)
    ensures w.fairnessDeficit == weight && |rounds| == count && FairRun(rounds, ids, w, slots, bound)
    ensures count > 0 ==> forall u | u in rounds[0].pending :: u.fairnessDeficit == 0
    ensures waiter in ids && !PickedWithin(rounds, 0, count, waiter)
  {
    hide Gap, FairRun, Outclassed;
    w := PlainWeights(weight);
    waiter := LastId(ids);
    var order := ListOf(ids);
    var turn := Gap(|ids|, slots) - 1;
    forall x | x in order ensures LexLe(x, waiter) {
      assert x in Members(order);
    }
    var zero: map<string, u64> := map x | x in ids :: 0;
    forall x | x in order ensures x in zero {
      assert x in Members(order);
    }
    rounds := Rounds(order, waiter, bound, weight, slots, zero, count);
    RoundsFair(order, waiter, bound, weight, slots, zero, count, turn);
    forall t | 0 <= t < count ensures !PickedAt(rounds, t, waiter) {
      NeverPicked(rounds, ids, w, slots, bound, waiter, turn, t);
    }
  }

  // ----- The exact condition -----

  /** Every fair run picks every unit within the first `h` rounds. */
  ghost predicate AllPickedWithin(ids: set<string>, slots: nat, weight: nat, bound: nat, h: nat) {
    forall w: UrgencyWeights, rounds, id |
      w.fairnessDeficit == weight && FairRun(rounds, ids, w, slots, bound) && id in ids && |rounds| >= h ::
      PickedWithin(rounds, 0, h, id)
  }

  /** Some bound on the wait holds for all runs exactly when no competitor saturates
      within its turn; and then (bound / weight) + (n - 1) / slots + 1 is one. */
  lemma StarvationFreeIff(ids: set<string>, slots: nat, weight: u64, bound: nat)
    requires ids != {} && slots >= 1 && weight >= 1
    ensures (exists h: nat :: AllPickedWithin(ids, slots, weight, bound, h)) <==> Unsaturated(|ids|, slots, weight, bound)
    ensures Unsaturated(|ids|, slots, weight, bound) ==>
              AllPickedWithin(ids, slots, weight, bound, Horizon(|ids|, slots, weight, bound))
  {
    hide FairRun, PickedWithin, Unsaturated, Horizon;
    if Unsaturated(|ids|, slots, weight, bound) {
      forall w: UrgencyWeights, rounds, id |
        w.fairnessDeficit == weight && FairRun(rounds, ids, w, slots, bound) && id in ids
        && |rounds| >= Horizon(|ids|, slots, weight, bound)
        ensures PickedWithin(rounds, 0, Horizon(|ids|, slots, weight, bound), id)
      {
        NoStarvation(rounds, ids, w, slots, bound, id);
      }
      assert AllPickedWithin(ids, slots, weight, bound, Horizon(|ids|, slots, weight, bound));
    } else {
      forall h: nat ensures !AllPickedWithin(ids, slots, weight, bound, h) {
        var w, rounds, waiter := StarvingRun(ids, slots, weight, bound, h);
      }
    }
  }
}
