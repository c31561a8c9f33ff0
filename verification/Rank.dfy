/** Which pending unit runs next: priority class, then urgency, then id. */
module Rank {
  import opened Retry
  import opened Ordering

  datatype PriorityClass = Critical | High | Normal | Low
  {
    function Tier(): nat {
      match this
      case Critical => 0
      case High => 1
      case Normal => 2
      case Low => 3
    }
  }

  datatype UrgencyWeights = UrgencyWeights(staleness: u64, behindTarget: u64, drift: u64, fairnessDeficit: u64)

  /** What the accessors of a schedulable unit return. */
  datatype Unit = Unit(
    id: string,
    priority: PriorityClass,
    stalenessSecs: u64,
    behindTarget: bool,
    driftMagnitude: u64,
    fairnessDeficit: u64)

  function SatAdd(a: u64, b: u64): u64 {
    Min(a + b, U64_MAX)
  }

  /** The part of the urgency that is not fairness, over the unbounded integers. */
  function OtherUrgency(u: Unit, w: UrgencyWeights): nat {
    u.stalenessSecs * w.staleness + (if u.behindTarget then w.behindTarget else 0) + u.driftMagnitude * w.drift
  }

  function ExactUrgency(u: Unit, w: UrgencyWeights): nat {
    OtherUrgency(u, w) + u.fairnessDeficit * w.fairnessDeficit
  }

  function UrgencyOf(u: Unit, w: UrgencyWeights): u64 {
    Min(ExactUrgency(u, w), U64_MAX)
  }

  /** The chain of saturating steps is one saturation of the exact weighted sum. */
  method Urgency(u: Unit, w: UrgencyWeights) returns (s: u64)
    ensures s == UrgencyOf(u, w)
    ensures s == Min(u.stalenessSecs * w.staleness + (if u.behindTarget then w.behindTarget else 0)
                     + u.driftMagnitude * w.drift + u.fairnessDeficit * w.fairnessDeficit,
                     0xFFFF_FFFF_FFFF_FFFF)
  {
    s := SaturatingMul(u.stalenessSecs, w.staleness);
    if u.behindTarget {
      s := SatAdd(s, w.behindTarget);
    }
    s := SatAdd(s, SaturatingMul(u.driftMagnitude, w.drift));
    s := SatAdd(s, SaturatingMul(u.fairnessDeficit, w.fairnessDeficit));
  }

  /** The key order: class ascending, urgency descending, id ascending. */
  predicate Precedes(w: UrgencyWeights, a: Unit, b: Unit) {
    if a.priority != b.priority then a.priority.Tier() < b.priority.Tier()
    else if UrgencyOf(a, w) != UrgencyOf(b, w) then UrgencyOf(a, w) > UrgencyOf(b, w)
    else LexLe(a.id, b.id)
  }

  function ByKey(w: UrgencyWeights): (Unit, Unit) -> bool {
    (a, b) => Precedes(w, a, b)
  }

  lemma KeyIsTotalPreorder(w: UrgencyWeights)
    ensures TotalPreorder(ByKey(w))
  {
    forall a: Unit, b: Unit ensures ByKey(w)(a, b) || ByKey(w)(b, a) {
      LexTotal(a.id, b.id);
    }
    forall a: Unit, b: Unit, c: Unit | ByKey(w)(a, b) && ByKey(w)(b, c) ensures ByKey(w)(a, c) {
      if LexLe(a.id, b.id) && LexLe(b.id, c.id) {
        LexTransitive(a.id, b.id, c.id);
      }
    }
  }

  function Eligible(pending: seq<Unit>, eligible: Unit -> bool): seq<Unit> {
    if pending == [] then []
    else (if eligible(pending[0]) then [pending[0]] else []) + Eligible(pending[1..], eligible)
  }

  lemma {:induction false} EligibleMembers(pending: seq<Unit>, eligible: Unit -> bool)
    ensures forall u :: u in Eligible(pending, eligible) <==> u in pending && eligible(u)
  {
    if pending != [] {
      EligibleMembers(pending[1..], eligible);
      assert forall u :: u in pending <==> u == pending[0] || u in pending[1..];
    }
  }

  lemma {:induction false} EligibleCounts(pending: seq<Unit>, eligible: Unit -> bool, u: Unit)
    ensures multiset(Eligible(pending, eligible))[u] == if eligible(u) then multiset(pending)[u] else 0
  {
    if pending != [] {
      EligibleCounts(pending[1..], eligible, u);
      assert pending == [pending[0]] + pending[1..];
    }
  }

  /** `out` is every eligible unit, as often as it is pending, in key order. */
  ghost predicate IsRanking(out: seq<Unit>, pending: seq<Unit>, eligible: Unit -> bool, w: UrgencyWeights) {
    && Ascending(ByKey(w), out)
    && forall u :: multiset(out)[u] == if eligible(u) then multiset(pending)[u] else 0
  }

  lemma RankingExists(pending: seq<Unit>, eligible: Unit -> bool, w: UrgencyWeights)
    ensures IsRanking(Sort(ByKey(w), Eligible(pending, eligible)), pending, eligible, w)
  {
    var out := Sort(ByKey(w), Eligible(pending, eligible));
    KeyIsTotalPreorder(w);
    SortAscends(ByKey(w), Eligible(pending, eligible));
    forall u ensures multiset(out)[u] == if eligible(u) then multiset(pending)[u] else 0 {
      EligibleCounts(pending, eligible, u);
    }
  }

  /** Filter, then sort by key. */
  method Rank(pending: seq<Unit>, eligible: Unit -> bool, w: UrgencyWeights) returns (out: seq<Unit>)
    ensures IsRanking(out, pending, eligible, w)
  {
    out := Sort(ByKey(w), Eligible(pending, eligible));
    RankingExists(pending, eligible, w);
  }

  /** Critical before High before Normal before Low. */
  predicate ClassBefore(a: PriorityClass, b: PriorityClass) {
    match a
    case Critical => !b.Critical?
    case High => b.Normal? || b.Low?
    case Normal => b.Low?
    case Low => false
  }

  /** What a ranking looks like: no unit of a later class stands before one of an earlier
      class; within a class the saturated weighted sum never rises; and units with equal
      sums stand in the order of their ids. */
  lemma RankingReads(out: seq<Unit>, pending: seq<Unit>, eligible: Unit -> bool, w: UrgencyWeights, i: nat, j: nat)
    requires IsRanking(out, pending, eligible, w) && i < j < |out|
    ensures eligible(out[i]) && out[i] in pending
    ensures !ClassBefore(out[j].priority, out[i].priority)
    ensures out[i].priority == out[j].priority ==>
              var first := Min(out[i].stalenessSecs * w.staleness + (if out[i].behindTarget then w.behindTarget else 0)
                               + out[i].driftMagnitude * w.drift + out[i].fairnessDeficit * w.fairnessDeficit,
                               0xFFFF_FFFF_FFFF_FFFF);
              var second := Min(out[j].stalenessSecs * w.staleness + (if out[j].behindTarget then w.behindTarget else 0)
                                + out[j].driftMagnitude * w.drift + out[j].fairnessDeficit * w.fairnessDeficit,
                                0xFFFF_FFFF_FFFF_FFFF);
              first >= second && (first == second ==> LexLe(out[i].id, out[j].id))
  {
    RankingMembers(out, pending, eligible, w);
    assert ByKey(w)(out[i], out[j]);
  }

  ghost predicate UniqueIds(units: seq<Unit>) {
    forall a, b | a in units && b in units && a.id == b.id :: a == b
  }

  /** The ranking does not depend on the order of the input: with unique ids, two
      rankings of two permutations are the same list. */
  lemma RankingIsCanonical(out1: seq<Unit>, out2: seq<Unit>, pending1: seq<Unit>, pending2: seq<Unit>,
                           eligible: Unit -> bool, w: UrgencyWeights)
    requires multiset(pending1) == multiset(pending2) && UniqueIds(pending1)
    requires IsRanking(out1, pending1, eligible, w) && IsRanking(out2, pending2, eligible, w)
    ensures out1 == out2
  {
    assert multiset(out1) == multiset(out2);
    forall a, b | a in out1 && b in out1 && ByKey(w)(a, b) && ByKey(w)(b, a) ensures a == b {
      assert a in multiset(out1) && b in multiset(out1);
      assert a in multiset(pending1) && b in multiset(pending1);
      LexAntisymmetric(a.id, b.id);
    }
    OneArrangement(ByKey(w), out1, out2);
  }

  /** `picked` is a prefix of a ranking, as long as the slots allow. */
  ghost predicate IsPick(picked: seq<Unit>, pending: seq<Unit>, eligible: Unit -> bool, w: UrgencyWeights, slots: nat) {
    exists ranking ::
      && IsRanking(ranking, pending, eligible, w)
      && picked == ranking[..if slots < |ranking| then slots else |ranking|]
  }

  method Pick(pending: seq<Unit>, eligible: Unit -> bool, w: UrgencyWeights, slots: nat) returns (out: seq<Unit>)
    ensures IsPick(out, pending, eligible, w, slots)
  {
    out := Rank(pending, eligible, w);
    ghost var ranking := out;
    if slots < |out| {
      out := out[..slots];
    }
    assert IsRanking(ranking, pending, eligible, w);
  }

  /** The prefix is optimal: only pending eligible units are picked, in key order,
      exactly as many as the slots and the eligible units allow, and none that is
      passed over precedes one that is picked. */
  lemma PickIsOptimal(picked: seq<Unit>, pending: seq<Unit>, eligible: Unit -> bool, w: UrgencyWeights, slots: nat)
    requires IsPick(picked, pending, eligible, w, slots)
    ensures forall u | u in picked :: u in pending && eligible(u)
    ensures Ascending(ByKey(w), picked)
    ensures |picked| == Min(slots, |Eligible(pending, eligible)|)
    ensures (exists u :: u in pending && eligible(u)) && slots > 0 ==> picked != []
    ensures forall u, v | u in picked && v in pending && eligible(v) && v !in picked :: Precedes(w, u, v)
  {
    hide IsRanking, Precedes;
    var ranking :|
      && IsRanking(ranking, pending, eligible, w)
      && picked == ranking[..if slots < |ranking| then slots else |ranking|];
    RankingMembers(ranking, pending, eligible, w);
    RankingSize(ranking, pending, eligible, w);
    forall u, v | u in picked && v in pending && eligible(v) && v !in picked ensures Precedes(w, u, v) {
      var i :| 0 <= i < |picked| && picked[i] == u;
      var j :| 0 <= j < |ranking| && ranking[j] == v;
      InOrder(ranking, pending, eligible, w, |picked|, i, j);
    }
  }

  /** No unit of an earlier class is passed over for one of a later class. */
  lemma PickByClass(picked: seq<Unit>, pending: seq<Unit>, eligible: Unit -> bool, w: UrgencyWeights, slots: nat,
                    u: Unit, v: Unit)
    requires IsPick(picked, pending, eligible, w, slots)
    requires u in picked && v in pending && eligible(v) && v !in picked
    ensures !ClassBefore(v.priority, u.priority)
  {
    PickIsOptimal(picked, pending, eligible, w, slots);
    assert Precedes(w, u, v);
  }

  lemma RankingMembers(ranking: seq<Unit>, pending: seq<Unit>, eligible: Unit -> bool, w: UrgencyWeights)
    requires IsRanking(ranking, pending, eligible, w)
    ensures forall u :: u in ranking <==> u in pending && eligible(u)
  {
    forall u ensures u in ranking <==> u in pending && eligible(u) {
      assert u in ranking <==> u in multiset(ranking);
      assert u in pending <==> u in multiset(pending);
    }
  }

  lemma RankingSize(ranking: seq<Unit>, pending: seq<Unit>, eligible: Unit -> bool, w: UrgencyWeights)
    requires IsRanking(ranking, pending, eligible, w)
    ensures |ranking| == |Eligible(pending, eligible)| && Ascending(ByKey(w), ranking)
  {
    forall u ensures multiset(ranking)[u] == multiset(Eligible(pending, eligible))[u] {
      EligibleCounts(pending, eligible, u);
    }
    assert multiset(ranking) == multiset(Eligible(pending, eligible));
    assert |ranking| == |multiset(ranking)|;
    assert |Eligible(pending, eligible)| == |multiset(Eligible(pending, eligible))|;
  }

  lemma InOrder(ranking: seq<Unit>, pending: seq<Unit>, eligible: Unit -> bool, w: UrgencyWeights,
                n: nat, i: nat, j: nat)
    requires IsRanking(ranking, pending, eligible, w)
    requires i < n <= |ranking| && j < |ranking| && ranking[j] !in ranking[..n]
    ensures Precedes(w, ranking[i], ranking[j])
  {
    assert forall k | 0 <= k < n :: ranking[k] in ranking[..n];
    assert ByKey(w)(ranking[i], ranking[j]);
  }
}
